/**
 * Named values of the enumerations the core consults: LanguageID (the
 * main-series language numbering), LanguageGC (the GameCube games'
 * numbering), GameVersion and Species.
 *
 * LanguageID and LanguageGC carry the numbering the games store; the
 * round trip between them depends on it. Species values are national
 * Pokedex numbers. The GameVersion numbers are stand-ins: the model only
 * relies on the named versions being distinct from one another.
 */
module GameIds {
  import opened Bytes

  // LanguageID
  const Japanese: byte := 1
  const English: byte := 2
  const French: byte := 3
  const Italian: byte := 4
  const German: byte := 5
  const Unused6: byte := 6
  const Spanish: byte := 7
  const Korean: byte := 8
  const ChineseS: byte := 9
  const ChineseT: byte := 10

  // LanguageGC
  const GCGerman: byte := 3
  const GCFrench: byte := 4
  const GCItalian: byte := 5
  const GCSpanish: byte := 6
  const GCUnused6: byte := 7

  // GameVersion
  const Any: int := 0
  const D: int := 10
  const BU: int := 37
  const C: int := 41
  const DPPt: int := 57

  // Species
  const Pikachu: int := 25
  const Magikarp: int := 129
  const Alcremie: int := 869
}
