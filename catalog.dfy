/** The fixed content of the app: the five levels in the order `getAllLevels` lists them.
    Long texts are written as concatenations of short pieces. Lesson code is teaching
    material and appears here as short stand-in texts that keep the identifiers the app's
    own tests look for; every other text is the app's own. */
module Catalog {
  import opened Models
  import opened KotlinText
  import opened CatalogRules
  import CatalogLevel1
  import CatalogLevel2
  import CatalogLevel3
  import CatalogLevel4
  import CatalogLevel5

  /** `createLevel1()` .. `createLevel5()` in order: the levels before the stored progress is
      applied. */
  function Levels(): (levels: seq<Level>)
    ensures CatalogShaped(levels)
  {
    seq(LevelCount, i requires 0 <= i < LevelCount => CreateLevel(i + 1))
  }

  /** `createLevel<id>()`. */
  function CreateLevel(id: int): (l: Level)
    requires 1 <= id <= LevelCount
    ensures CatalogLevel(l, id)
  {
    if id == 1 then (CatalogLevel1.CreateLevel1IsCatalogLevel(id); CatalogLevel1.CreateLevel1(id))
    else if id == 2 then (CatalogLevel2.CreateLevel2IsCatalogLevel(id); CatalogLevel2.CreateLevel2(id))
    else if id == 3 then (CatalogLevel3.CreateLevel3IsCatalogLevel(id); CatalogLevel3.CreateLevel3(id))
    else if id == 4 then (CatalogLevel4.CreateLevel4IsCatalogLevel(id); CatalogLevel4.CreateLevel4(id))
    else (CatalogLevel5.CreateLevel5IsCatalogLevel(id); CatalogLevel5.CreateLevel5(id))
  }
}
