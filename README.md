# PKHeX core: language policy, generation 4 fixed trades, Sword/Shield trainer card

A Dafny model of three pieces of PKHeX.Core, each with proofs about it.

- **Language** (`language.dfy`) is pure lookup logic:
  - which LanguageID values each generation's games can carry;
  - the "safe" language for a preferred one;
  - the two-letter code of a language;
  - the renumbering between the GameCube games' LanguageGC values and the main-series LanguageID values.

  The main results:
  - the safe language is always permitted for a byte-sized preference;
  - asking twice gives the same answer;
  - the two GameCube remaps undo each other on every byte.
- **EncounterTrade4** (`encounter_trade4.dfy`) models the three generation 4 in-game trade records: the fixed-PID trade, the Ranch gift and the Ranch special gift. It covers:
  - what their constructors fix;
  - how a stored creature is matched against them: the contest-stat floor, and the fixed PID against the encryption constant;
  - what they write into a generated PK4: the language rewrite, contest stats, PID, nature, gender and the fateful-encounter flag.

  The shared trade base class is outside the model. Its verdicts, and the field values its calls leave on the PK4, are parameters. The calls made into it are recorded in order in the PK4's `Calls` trace.
- **TrainerCard8** (`trainer_card8.dfy`) is imperative: a class over the block's byte array with little-endian getters and setters. It also has a `TrainerCard8Poke` class, a view of one of the six party slots over the same array.
  - Every setter is proved against a pure write on `Data[..]`, and its getter reads the value back.
  - `LoadTeamData` is proved to load each party member into its slot, zero the unused slots and leave every byte outside the slots unchanged.

  Some accessors add the block's `Offset` to their position and some do not. The model records which ones do (`Field.relative`). With `Offset` zero the fields never overlap (`LayoutDisjointAtZero`). With `Offset` 0x10, the PokeDexComplete flag sits on the low byte of Skin (`MixedOffsetsCollide`).

Shared pieces:
- `bytes.dfy`:
  - the byte and fixed-width integer types;
  - little-endian encoding and decoding, with round-trip lemmas;
  - the two's-complement view of a C# `int`;
  - an in-place byte-run write on arrays.
- `game_ids.dfy`: the enumeration values the code consults.
- `options.dfy`: an `Option` type.

C# semantics are modelled explicitly:
- `(byte)` casts keep the low eight bits (`% 256`).
- `(uint)index >= 6` is `index % 2^32 >= 6`.
- `>> 1` on a non-negative ability is floor division by two.
- `int` fields are stored as their 32-bit two's-complement pattern.

## Model

| member | source | states |
|---|---|---|
| Language.TablesSpelledOut | PKHeX.Core/PKM/Util/Language.cs:11-28 | The Game Boy table is the first seven languages, up to and including Korean. The generation 3 table is the first six, before Korean. |
| Language.GetAvailableGameLanguages | PKHeX.Core/PKM/Util/Language.cs:31-38 | The permitted languages are a prefix of the full table: the first 6 in generations 1 and 3, the first 7 in 2 and 4-6, and all 9 otherwise. So Japanese and English are always included. Korean is included exactly when the generation is not 1 or 3. Both Chinese scripts are included exactly when the generation is outside 1-6. |
| Language.IndexOf | PKHeX.Core/PKM/Util/Language.cs:42 | Array.IndexOf returns -1 exactly when the value is absent. Otherwise it returns the first position holding the value. |
| Language.HasLanguage | PKHeX.Core/PKM/Util/Language.cs:40-44 | True exactly when the language is in the permitted table. |
| Language.ToByte | PKHeX.Core/PKM/Util/Language.cs:49-53 | The (byte) cast of a preference is congruent to it modulo 256. |
| Language.GetSafeLanguage | PKHeX.Core/PKM/Util/Language.cs:46-54 | Generation 1 Blue always gives Japanese. In generation 2, Korean is kept only for Crystal and otherwise falls back to English. Every other case keeps the preference when its byte is permitted in the generation, and otherwise gives English. |
| Language.SafeLanguageIsAvailable | PKHeX.Core/PKM/Util/Language.cs:46-54 | For any byte-sized preference, the safe language is permitted in the generation. |
| Language.SafeLanguageIdempotent | PKHeX.Core/PKM/Util/Language.cs:46-54 | Feeding the safe language back in returns it unchanged. |
| Language.SafeLanguageTruncationEscapes | PKHeX.Core/PKM/Util/Language.cs:53 | A preference of 0x101 passes the byte-cast check in generation 7 and is returned, although it is not a permitted language. |
| Language.GetSafeLanguageChecked | PKHeX.Core/PKM/Util/Language.cs:46-54 | The result is always permitted in the generation. It agrees with GetSafeLanguage on byte-sized preferences. Any preference outside the table falls back to English, except for generation 1 Blue. |
| Language.GetLanguage2CharName | PKHeX.Core/PKM/Util/Language.cs:56-66 | Japanese gives "ja", French "fr", Italian "it", German "de", Spanish "es" and Korean "ko". Both Chinese scripts give "zh". English and unknown IDs get the default code. |
| Language.TwoCharNamesDistinct | PKHeX.Core/PKM/Util/Language.cs:56-66 | Distinct coded languages get distinct codes, except the two Chinese scripts. |
| Language.GetMainLangIDfromGC | PKHeX.Core/PKM/Util/Language.cs:74-82 | A GameCube ID is renumbered exactly when the result is one of the five renumbered main-series IDs. Every other value passes through unchanged. |
| Language.GetGCLangIDfromMain | PKHeX.Core/PKM/Util/Language.cs:90-98 | A main-series ID is renumbered exactly when the result is one of the five renumbered GameCube IDs. Every other value passes through unchanged. |
| Language.RemapsNamesakes | PKHeX.Core/PKM/Util/Language.cs:74-98 | German, French, Italian, Spanish and the unused 6 each map to their namesake, in both directions. |
| Language.RemapsInverse | PKHeX.Core/PKM/Util/Language.cs:74-98 | The two remaps undo each other on every byte. |
| EncounterTrade4.NewTradePID | PKHeX.Core/Legality/Encounters/EncounterTrade/EncounterTrade4.cs:17-23 | The constructor sets the PID, species and level, and makes shininess FixedValue. Every other base field is kept, and the contest stats are zero. |
| EncounterTrade4.NewRanchGift | PKHeX.Core/Legality/Encounters/EncounterTrade/EncounterTrade4.cs:102-109 | The same as the trade constructor, and the version is Diamond. |
| EncounterTrade4.NewRanchSpecial | PKHeX.Core/Legality/Encounters/EncounterTrade/EncounterTrade4.cs:128-136 | The constructor sets species and level, ball 0x10, version Diamond, a female trainer and location 3000. Gender, ability and shininess are kept. |
| EncounterTrade4.ContestList | PKHeX.Core/Legality/Encounters/EncounterTrade/EncounterTrade4.cs:25-30 | The six contest stats, in the order Cool, Beauty, Cute, Smart, Tough, Sheen. |
| EncounterTrade4.ContestFromList | PKHeX.Core/Legality/Encounters/EncounterTrade/EncounterTrade4.cs:32-43 | The Contest initialiser succeeds exactly when the list has at least six entries. The stats are then its first six entries, in order. |
| EncounterTrade4.ContestListRoundTrip | PKHeX.Core/Legality/Encounters/EncounterTrade/EncounterTrade4.cs:25-43 | Listing the stats and reading them back gives the same stats. |
| EncounterTrade4.WithContest | PKHeX.Core/Legality/Encounters/EncounterTrade/EncounterTrade4.cs:32-43 | Initialising Contest changes only the record's contest stats, and fails on lists shorter than six. |
| EncounterTrade4.IsContestBelow | PKHeX.Core/Legality/Encounters/EncounterTrade/EncounterTrade4.cs:50 | Some contest stat of the creature is strictly lower than the record's. |
| EncounterTrade4.ContestBelowIff | PKHeX.Core/Legality/Encounters/EncounterTrade/EncounterTrade4.cs:50 | "Some stat is below the record's" is the negation of "every stat is at least the record's". |
| EncounterTrade4.IsMatch | PKHeX.Core/Legality/Encounters/EncounterTrade/EncounterTrade4.cs:45-54 | A match requires the base match. For the fixed-PID trade and a creature with contest stats, it also requires every stat to be at least the record's. In every other case the base verdict is the result. |
| EncounterTrade4.ContestFloorExample | PKHeX.Core/Legality/Encounters/EncounterTrade/EncounterTrade4.cs:45-54 | Stats exactly on the floor match, and one point lower does not. |
| EncounterTrade4.IsMatchNatureGenderShiny | PKHeX.Core/Legality/Encounters/EncounterTrade/EncounterTrade4.cs:89-92 | For both fixed-PID kinds (also lines 111-114), the result is true exactly when the PID equals the creature's encryption constant. The special gift keeps the base verdict. |
| EncounterTrade4.TradeLanguage | PKHeX.Core/Legality/Encounters/EncounterTrade/EncounterTrade4.cs:61-75 | DPPt Magikarp becomes English exactly for German games, and German otherwise. Other DPPt trades turn English into Japanese and never yield English. HGSS Pikachu becomes French exactly for English games, and English otherwise. Everything else is unchanged. |
| EncounterTrade4.TradeLanguageSettles | PKHeX.Core/Legality/Encounters/EncounterTrade/EncounterTrade4.cs:61-75 | Where the rewrite goes one way, applying it twice equals applying it once. |
| EncounterTrade4.TradeLanguageSwaps | PKHeX.Core/Legality/Encounters/EncounterTrade/EncounterTrade4.cs:61-75 | Where two languages trade places, applying the rewrite twice restores the original. |
| EncounterTrade4.NatureOf | PKHeX.Core/Legality/Encounters/EncounterTrade/EncounterTrade4.cs:83 | The nature lies in 0..24 and is congruent to the PID modulo 25. |
| EncounterTrade4.AbilitySelector | PKHeX.Core/Legality/Encounters/EncounterTrade/EncounterTrade4.cs:85 | Ability >> 1 is the s with 2s <= ability < 2s+2. |
| EncounterTrade4.PK4.constructor | PKHeX.Core/Legality/Encounters/EncounterTrade/EncounterTrade4.cs:59 | A PK4 with the given language, zero PID, nature and gender, the flag clear, zero contest stats and no base calls recorded. |
| EncounterTrade4.PK4.BaseEffect | PKHeX.Core/Legality/Encounters/EncounterTrade/EncounterTrade4.cs:58 | A base call leaves the modelled fields exactly as given, and the call is appended to the trace. |
| EncounterTrade4.ApplyDetails | PKHeX.Core/Legality/Encounters/EncounterTrade/EncounterTrade4.cs:56-78 | The base details run first and leave the fields as `afterBase`. The fixed-PID trade then rewrites the language the base left by TradeLanguage and copies its contest stats. The special gift (lines 138-142) sets the fateful-encounter flag. The Ranch gift adds nothing. PID, nature and gender stay as the base left them. |
| EncounterTrade4.SetPINGA | PKHeX.Core/Legality/Encounters/EncounterTrade/EncounterTrade4.cs:80-87 | Both fixed-PID kinds (also lines 116-123) write the PID, the nature PID % 25 and the record's gender. They then refresh the ability with ability >> 1 and set IVs, in that order. The special gift runs the inherited base SetPINGA, and the fields become what it leaves (`afterBase`). |
| Bytes.FromToLE | PKHeX.Core/Saves/Substructures/Gen8/SWSH/TrainerCard8.cs:26-30 | Decoding the little-endian encoding of a value that fits gives the value back. |
| Bytes.ToFromLE | PKHeX.Core/Saves/Substructures/Gen8/SWSH/TrainerCard8.cs:26-30 | Encoding the decoded value of a byte run gives the run back. |
| Bytes.ToLEWidened | PKHeX.Core/Saves/Substructures/Gen8/SWSH/TrainerCard8.cs:290-300 | A wider encoding is the narrower encoding followed by zero bytes. |
| Bytes.FromLE2 | PKHeX.Core/Saves/Substructures/Gen8/SWSH/TrainerCard8.cs:290-294 | A two-byte little-endian read is the low byte plus 256 times the high byte. |
| Bytes.FromLE4 | PKHeX.Core/Saves/Substructures/Gen8/SWSH/TrainerCard8.cs:314-318 | A four-byte little-endian read is the sum of each byte times 256 to the power of its position. |
| Bytes.Int32BitsCongruent | PKHeX.Core/Saves/Substructures/Gen8/SWSH/TrainerCard8.cs:341 | The int/uint reinterpretations keep the value modulo 2^32. |
| Bytes.Int32BitsRoundTrip | PKHeX.Core/Saves/Substructures/Gen8/SWSH/TrainerCard8.cs:26-30 | Storing a C# int as its 32-bit pattern and reading it back is the identity in both directions. |
| Bytes.WriteBytes | PKHeX.Core/Saves/Substructures/Gen8/SWSH/TrainerCard8.cs:29 | Writing a byte run in place replaces exactly those bytes of the array. |
| TrainerCard8.ReadWriteSame | PKHeX.Core/Saves/Substructures/Gen8/SWSH/TrainerCard8.cs:26-30 | Reading a field after writing it gives the value written. |
| TrainerCard8.ReadWriteOther | PKHeX.Core/Saves/Substructures/Gen8/SWSH/TrainerCard8.cs:125-219 | Writing a field leaves every non-overlapping field reading as before. |
| TrainerCard8.WideWriteNarrowRead | PKHeX.Core/Saves/Substructures/Gen8/SWSH/TrainerCard8.cs:290-300 | A 4-byte write read back through a narrower getter gives the value, and the extra bytes are zero. |
| TrainerCard8.LayoutDisjointAtZero | PKHeX.Core/Saves/Substructures/Gen8/SWSH/TrainerCard8.cs:12-275 | With Offset zero, no two fields of the block share a byte. |
| TrainerCard8.LayoutInsideBlock | PKHeX.Core/Saves/Substructures/Gen8/SWSH/TrainerCard8.cs:102-106 | Every field ends within 0x1B6 bytes of Offset. |
| TrainerCard8.MixedOffsetsCollide | PKHeX.Core/Saves/Substructures/Gen8/SWSH/TrainerCard8.cs:90-94 | At Offset 0x10, the Offset-relative PokeDexComplete flag and the raw-positioned Skin start at the same byte. |
| TrainerCard8.Clamp | PKHeX.Core/Saves/Substructures/Gen8/SWSH/TrainerCard8.cs:69-70 | The clamped value is at most the maximum and at most the input, and it is one of the two. |
| TrainerCard8.NumberBytes | PKHeX.Core/Saves/Substructures/Gen8/SWSH/TrainerCard8.cs:119-120 | The Number setter always writes exactly three bytes, one per UTF-16 code unit. |
| TrainerCard8.NumberBytesMeaning | PKHeX.Core/Saves/Substructures/Gen8/SWSH/TrainerCard8.cs:119-120 | Only the first three code units matter. A code unit below 256 is stored as itself, and missing ones are zero. |
| TrainerCard8.CardFormArgument | PKHeX.Core/Saves/Substructures/Gen8/SWSH/TrainerCard8.cs:341 | An Alcremie with a form argument stores its bit pattern. Any other creature stores -1. |
| TrainerCard8.LoadImageShows | PKHeX.Core/Saves/Substructures/Gen8/SWSH/TrainerCard8.cs:334-342 | After the six setters, every getter of the slot reads back what was loaded. |
| TrainerCard8.LoadImageFrame | PKHeX.Core/Saves/Substructures/Gen8/SWSH/TrainerCard8.cs:334-342 | Loading changes no byte outside the ones it writes. Unknown, the bytes after IsShiny and everything outside the slot keep their values. |
| TrainerCard8.LaterWritesKeep | PKHeX.Core/Saves/Substructures/Gen8/SWSH/TrainerCard8.cs:338-341 | The Gender, IsShiny, EncryptionConstant and FormArgument writes leave the slot's first eight bytes alone. |
| TrainerCard8.LoadImageHighBytes | PKHeX.Core/Saves/Substructures/Gen8/SWSH/TrainerCard8.cs:290-300 | After loading, the high bytes of the widened Species and Form writes are zero. |
| TrainerCard8.LoadFromOutside | PKHeX.Core/Saves/Substructures/Gen8/SWSH/TrainerCard8.cs:334-342 | Loading a party member changes nothing outside its slot. |
| TrainerCard8.ShowsLocal | PKHeX.Core/Saves/Substructures/Gen8/SWSH/TrainerCard8.cs:290-330 | A slot's getters depend only on the slot's own 0x1C bytes. |
| TrainerCard8.SlotStart | PKHeX.Core/Saves/Substructures/Gen8/SWSH/TrainerCard8.cs:236 | Every slot lies between 0xC8 and StartedYear. |
| TrainerCard8.SlotsDisjoint | PKHeX.Core/Saves/Substructures/Gen8/SWSH/TrainerCard8.cs:221-236 | Distinct slots do not overlap. |
| TrainerCard8.LoadSlotsOutside | PKHeX.Core/Saves/Substructures/Gen8/SWSH/TrainerCard8.cs:246-247 | Loading the first n slots changes no byte outside them. |
| TrainerCard8.LoadSlotsShow | PKHeX.Core/Saves/Substructures/Gen8/SWSH/TrainerCard8.cs:246-247 | After loading the first n slots, each slot k < n shows party[k]. |
| TrainerCard8.ClearSlotsEffect | PKHeX.Core/Saves/Substructures/Gen8/SWSH/TrainerCard8.cs:248-249 | Clearing slots from..to-1 zeroes them and changes no other byte. |
| TrainerCard8.TeamImageEffect | PKHeX.Core/Saves/Substructures/Gen8/SWSH/TrainerCard8.cs:244-250 | After loading a team: each slot below the party size shows its member, the remaining slots are zero, and nothing outside the six slots changes. |
| TrainerCard8.TrainerCard8Poke.constructor | PKHeX.Core/Saves/Substructures/Gen8/SWSH/TrainerCard8.cs:284-288 | The view shares the given array and starts at the given offset. |
| TrainerCard8.TrainerCard8Poke.Species | PKHeX.Core/Saves/Substructures/Gen8/SWSH/TrainerCard8.cs:292 | The species is bytes 0 and 1 of the slot, little-endian. |
| TrainerCard8.TrainerCard8Poke.Form | PKHeX.Core/Saves/Substructures/Gen8/SWSH/TrainerCard8.cs:298 | The form is the 1-byte read at 0x04. |
| TrainerCard8.TrainerCard8Poke.Gender | PKHeX.Core/Saves/Substructures/Gen8/SWSH/TrainerCard8.cs:304 | The gender's two's-complement pattern is the little-endian value of bytes 0x08-0x0B. |
| TrainerCard8.TrainerCard8Poke.IsShiny | PKHeX.Core/Saves/Substructures/Gen8/SWSH/TrainerCard8.cs:310 | True exactly when the byte at 0x0C is non-zero. |
| TrainerCard8.TrainerCard8Poke.EncryptionConstant | PKHeX.Core/Saves/Substructures/Gen8/SWSH/TrainerCard8.cs:316 | The little-endian value of bytes 0x10-0x13. |
| TrainerCard8.TrainerCard8Poke.Unknown | PKHeX.Core/Saves/Substructures/Gen8/SWSH/TrainerCard8.cs:322 | The little-endian value of bytes 0x14-0x17. |
| TrainerCard8.TrainerCard8Poke.FormArgument | PKHeX.Core/Saves/Substructures/Gen8/SWSH/TrainerCard8.cs:328 | The form argument's two's-complement pattern is the little-endian value of bytes 0x18-0x1B. |
| TrainerCard8.TrainerCard8Poke.SetSpecies | PKHeX.Core/Saves/Substructures/Gen8/SWSH/TrainerCard8.cs:290-294 | Writes the species as 4 little-endian bytes. The 2-byte getter reads it back, and bytes 2-3 are zero. |
| TrainerCard8.TrainerCard8Poke.SetForm | PKHeX.Core/Saves/Substructures/Gen8/SWSH/TrainerCard8.cs:296-300 | Writes the form as 4 bytes at 0x04. The 1-byte getter reads it back, and bytes 5-7 are zero. |
| TrainerCard8.TrainerCard8Poke.SetGender | PKHeX.Core/Saves/Substructures/Gen8/SWSH/TrainerCard8.cs:302-306 | Writes the int's bit pattern at 0x08, and the getter reads back the same int. |
| TrainerCard8.TrainerCard8Poke.SetIsShiny | PKHeX.Core/Saves/Substructures/Gen8/SWSH/TrainerCard8.cs:308-312 | Writes 1 or 0 at 0x0C, and the getter (non-zero) reads the flag back. |
| TrainerCard8.TrainerCard8Poke.SetEncryptionConstant | PKHeX.Core/Saves/Substructures/Gen8/SWSH/TrainerCard8.cs:314-318 | Writes 4 bytes at 0x10, and the getter reads them back. |
| TrainerCard8.TrainerCard8Poke.SetUnknown | PKHeX.Core/Saves/Substructures/Gen8/SWSH/TrainerCard8.cs:320-324 | Writes 4 bytes at 0x14, and the getter reads them back. |
| TrainerCard8.TrainerCard8Poke.SetFormArgument | PKHeX.Core/Saves/Substructures/Gen8/SWSH/TrainerCard8.cs:326-330 | Writes the int's bit pattern at 0x18, and the getter reads back the same int. |
| TrainerCard8.TrainerCard8Poke.Clear | PKHeX.Core/Saves/Substructures/Gen8/SWSH/TrainerCard8.cs:332 | Zeroes the slot's 0x1C bytes and no other byte. |
| TrainerCard8.TrainerCard8Poke.LoadFrom | PKHeX.Core/Saves/Substructures/Gen8/SWSH/TrainerCard8.cs:334-342 | The buffer becomes the six writes in source order. Every getter then reads the member's values, with the form argument only for Alcremie and -1 otherwise. |
| TrainerCard8.TrainerCard8Poke.LoadFromTitleScreen | PKHeX.Core/Saves/Substructures/Gen8/SWSH/TrainerCard8.cs:344-352 | The same six writes, taking the form argument as given. Every getter then reads the title-screen creature's values. |
| TrainerCard8.TrainerCard8.constructor | PKHeX.Core/Saves/Substructures/Gen8/SWSH/TrainerCard8.cs:10 | The card works over the block's array at the given Offset. |
| TrainerCard8.TrainerCard8.GetUnsigned | PKHeX.Core/Saves/Substructures/Gen8/SWSH/TrainerCard8.cs:32-36 | An unsigned field reads as a value that fits its width. |
| TrainerCard8.TrainerCard8.SetUnsigned | PKHeX.Core/Saves/Substructures/Gen8/SWSH/TrainerCard8.cs:125-219 | Writes a byte, ushort, uint or ulong field little-endian, and the getter reads the value back. |
| TrainerCard8.TrainerCard8.GetInt32 | PKHeX.Core/Saves/Substructures/Gen8/SWSH/TrainerCard8.cs:28 | An int field's two's-complement pattern is the little-endian value of its four bytes at their raw position. |
| TrainerCard8.TrainerCard8.SetInt32 | PKHeX.Core/Saves/Substructures/Gen8/SWSH/TrainerCard8.cs:26-30 | Writes an int field as its bit pattern, and the getter reads back the same int. |
| TrainerCard8.TrainerCard8.SetRotoRallyScore | PKHeX.Core/Saves/Substructures/Gen8/SWSH/TrainerCard8.cs:64-75 | Stores the score clamped to 99999 at 0x28, and the getter reads the clamped value. |
| TrainerCard8.TrainerCard8.SetCaughtPokemon | PKHeX.Core/Saves/Substructures/Gen8/SWSH/TrainerCard8.cs:79-88 | Stores the count clamped to 99999 at 0x2C, and the getter reads the clamped value. |
| TrainerCard8.TrainerCard8.GetFlag | PKHeX.Core/Saves/Substructures/Gen8/SWSH/TrainerCard8.cs:92 | A flag reads true exactly when its byte is 1. |
| TrainerCard8.TrainerCard8.SetFlag | PKHeX.Core/Saves/Substructures/Gen8/SWSH/TrainerCard8.cs:90-106 | Writes 1 or 0, and the "== 1" getter reads the flag back. |
| TrainerCard8.TrainerCard8.GetGender | PKHeX.Core/Saves/Substructures/Gen8/SWSH/TrainerCard8.cs:110 | The gender is the byte at raw position 0x38. |
| TrainerCard8.TrainerCard8.SetGender | PKHeX.Core/Saves/Substructures/Gen8/SWSH/TrainerCard8.cs:108-112 | Stores the low byte of the int at raw position 0x38, and the getter reads that byte. |
| TrainerCard8.TrainerCard8.GetNumber | PKHeX.Core/Saves/Substructures/Gen8/SWSH/TrainerCard8.cs:116 | The three bytes at raw position 0x39. |
| TrainerCard8.TrainerCard8.SetNumber | PKHeX.Core/Saves/Substructures/Gen8/SWSH/TrainerCard8.cs:114-123 | The loop writes the low byte of each of the first three UTF-16 code units at 0x39 (zero where the string is shorter), and nothing else. |
| TrainerCard8.TrainerCard8.ViewPoke | PKHeX.Core/Saves/Substructures/Gen8/SWSH/TrainerCard8.cs:232-237 | Yields a view exactly for 0 <= index < 6 (the unsigned check rejects negatives). The view shares the card's array at Offset + 0xC8 + index * 0x1C. |
| TrainerCard8.TrainerCard8.LoadInto | PKHeX.Core/Saves/Substructures/Gen8/SWSH/TrainerCard8.cs:247 | LoadFrom through a view that shares the card's buffer changes the buffer as LoadFromImage says. |
| TrainerCard8.TrainerCard8.LoadMembers | PKHeX.Core/Saves/Substructures/Gen8/SWSH/TrainerCard8.cs:246-247 | The first loop loads every member when there are at most six. Otherwise it loads six and fails where ViewPoke(6) throws. |
| TrainerCard8.TrainerCard8.ClearFrom | PKHeX.Core/Saves/Substructures/Gen8/SWSH/TrainerCard8.cs:248-249 | The second loop clears the remaining slots up to the sixth. |
| TrainerCard8.TrainerCard8.LoadTeamData | PKHeX.Core/Saves/Substructures/Gen8/SWSH/TrainerCard8.cs:244-250 | Succeeds exactly when the party has at most six members, and the buffer is then TeamImage (see TeamImageEffect). A larger party fills all six slots and then fails where the source throws. |

## Left out

- The OT name (`OT_Trash`, lines 12-18): string encoding belongs to the save file, which is not part of this model.
- TrainerCard8.TrainerCard8.GetNumber: gives the three raw bytes. Encoding.ASCII decoding of them is not modelled.
- TrainerCard8.TrainerCard8.SetNumber: takes the string as its sequence of UTF-16 code units, which is what C# indexes. Decoding a text into code units is left to the caller.
- TrainerCard8.TrainerCard8.SetNumber: the `State.Edited` flag on the save file is not modelled.
- TrainerCard8.TrainerCard8.SetRotoRallyScore: the mirror write `SAV.SetValue(KRotoRally, …)` into another save block is not modelled.
- `SetPartyData` (line 242): it only passes the save file's party to LoadTeamData, and the save file is not part of this model.
- TrainerCard8.TrainerCard8.LoadTeamData: takes a PKM as only the six fields a slot copies (PartyMember). Whether a format has a form argument is an Option.
- TrainerCard8.TrainerCard8.constructor: the SCBlock and the save file are replaced by the block's array and an Offset. Every accessor requires the array to reach Offset + 0x1B6; the source throws on a shorter span instead.
- EncounterTrade4.ApplyDetails: what the base EncounterTrade.ApplyDetails does is not modelled. It is recorded as one call in `Calls`, and the modelled fields it leaves are the `afterBase` parameter.
- EncounterTrade4.SetPINGA: for the special gift, the inherited base SetPINGA is not modelled. Its result is the `afterBase` parameter. For the fixed-PID kinds, RefreshAbility and SetIVs are recorded calls, taken to change only ability and IVs, which the model does not hold.
- EncounterTrade4.IsMatch: the base EncounterTrade.IsMatch and the DexLevel chain are a parameter. `IsContestBelow` (an extension method outside this core) is modelled by its meaning: some stat is strictly lower.
- EncounterTrade4.ApplyDetails: `CopyContestStatsTo` is modelled as assigning the six stats.
- EncounterTrade4.NewTradePID: object-initializer assignments that follow the constructor, and init-only properties other than Contest, are not modelled.
- `Generation` (EncounterTrade4.cs line 7) is the constant 4 for all three kinds. Nothing in this core reads it.
- `PK4` holds only the fields this core writes. Its encryption constant, which the game derives from the PID, is a separate field of `Candidate`.
- GameVersion values in `game_ids.dfy` are stand-ins. The model relies only on the named versions being distinct.
- Language.GetLanguage2CharName: `GameLanguage.DefaultLanguage` is a parameter, because it is configuration outside this core.

## Findings

| source | as written | input that shows it | evidently intended | confidence | as-written member | corrected member |
|---|---|---|---|---|---|---|
| PKHeX.Core/PKM/Util/Language.cs:53 | The membership test looks at `(byte)prefer`, but `prefer` itself is returned | generation 7, prefer = 0x101: its byte is 1 (Japanese), so 0x101 is returned although it is no language | a preference outside the permitted table falls back to English | low; not executed (callers may never pass such a value) | Language.SafeLanguageTruncationEscapes | Language.GetSafeLanguageChecked |
