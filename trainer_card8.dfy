/**
 * The Sword/Shield trainer card save block: a byte buffer with
 * little-endian fields at fixed positions, and the six party slots
 * (TrainerCard8Poke) laid out inside it.
 *
 * Some accessors add the block's Offset to their position and some do not;
 * a Field records which. With Offset zero every field has a place of its
 * own (LayoutDisjointAtZero); with another Offset they can collide
 * (MixedOffsetsCollide).
 */
module TrainerCard8 {
  import opened Bytes
  import opened Options
  import opened GameIds

  /** A field: its position, its width in bytes, and whether the accessor adds Offset. */
  datatype Field = Field(pos: nat, width: nat, relative: bool)

  /** The index of a field's first byte in the buffer. */
  function Start(f: Field, offset: nat): nat
  {
    if f.relative then offset + f.pos else f.pos
  }

  predicate Fits(s: seq<byte>, offset: nat, f: Field)
  {
    Start(f, offset) + f.width <= |s|
  }

  /** Little-endian read of a field. */
  function ReadField(s: seq<byte>, offset: nat, f: Field): (v: nat)
    requires Fits(s, offset, f)
    ensures v < Pow256(f.width)
  {
    FromLE(s[Start(f, offset)..Start(f, offset) + f.width])
  }

  /** Little-endian write of a field: its bytes become the encoding of v, no other byte changes. */
  function WriteField(s: seq<byte>, offset: nat, f: Field, v: nat): (r: seq<byte>)
    requires Fits(s, offset, f) && v < Pow256(f.width)
    ensures |r| == |s|
  {
    Splice(s, Start(f, offset), ToLE(v, f.width))
  }

  /** A write puts the encoding in the field's bytes and changes no other byte. */
  lemma WriteFieldFacts(s: seq<byte>, offset: nat, f: Field, v: nat)
    requires Fits(s, offset, f) && v < Pow256(f.width)
    ensures var r := WriteField(s, offset, f, v);
      r[Start(f, offset)..Start(f, offset) + f.width] == ToLE(v, f.width) &&
      (forall i :: Start(f, offset) <= i < Start(f, offset) + f.width ==> r[i] == ToLE(v, f.width)[i - Start(f, offset)]) &&
      (forall i :: 0 <= i < |s| && !(Start(f, offset) <= i < Start(f, offset) + f.width) ==> r[i] == s[i])
  {
    SpliceFacts(s, Start(f, offset), ToLE(v, f.width));
  }

  predicate Disjoint(f: Field, g: Field, offset: nat)
  {
    Start(f, offset) + f.width <= Start(g, offset) || Start(g, offset) + g.width <= Start(f, offset)
  }

  /** Reading a field after writing it gives the value written. */
  lemma ReadWriteSame(s: seq<byte>, offset: nat, f: Field, v: nat)
    requires Fits(s, offset, f) && v < Pow256(f.width)
    ensures ReadField(WriteField(s, offset, f, v), offset, f) == v
  {
    WriteFieldFacts(s, offset, f, v);
    FromToLE(v, f.width);
  }

  /** Writing a field leaves every field that does not overlap it reading as before. */
  lemma ReadWriteOther(s: seq<byte>, offset: nat, f: Field, g: Field, v: nat)
    requires Fits(s, offset, f) && Fits(s, offset, g) && v < Pow256(f.width)
    requires Disjoint(f, g, offset)
    ensures ReadField(WriteField(s, offset, f, v), offset, g) == ReadField(s, offset, g)
  {
    SpliceKeeps(s, Start(f, offset), ToLE(v, f.width), Start(g, offset), Start(g, offset) + g.width);
  }

  /**
   * A field written wider than it is read: the narrow read at the same
   * position gives the value back, and the extra high bytes are zero.
   */
  lemma {:induction false} WideWriteNarrowRead(s: seq<byte>, offset: nat, store: Field, read: Field, v: nat)
    requires store.pos == read.pos && store.relative == read.relative && read.width <= store.width
    requires Fits(s, offset, store) && v < Pow256(read.width)
    ensures Pow256(read.width) <= Pow256(store.width)
    ensures var r := WriteField(s, offset, store, v);
      ReadField(r, offset, read) == v &&
      forall i :: Start(read, offset) + read.width <= i < Start(store, offset) + store.width ==> r[i] == 0
  {
    PowMonotone(read.width, store.width);
    ToLEWidened(v, read.width, store.width);
    FromToLE(v, read.width);
    WriteFieldFacts(s, offset, store, v);
    var r := WriteField(s, offset, store, v);
    var a := Start(store, offset);
    assert r[a..a + read.width] == ToLE(v, store.width)[..read.width];
  }

  lemma {:induction false} PowMonotone(k: nat, n: nat)
    requires k <= n
    ensures Pow256(k) <= Pow256(n)
  {
    if k < n {
      PowMonotone(k, n - 1);
    }
  }

  // ---------------------------------------------------------------------
  // The trainer card's fields
  // ---------------------------------------------------------------------

  const OTTrash := Field(0x00, 0x1A, false)
  const LanguageField := Field(0x1B, 1, false)
  const TrainerID := Field(0x1C, 4, false)
  const PokeDexOwned := Field(0x20, 2, true)
  const ShinyPokemonFound := Field(0x22, 2, true)
  const Game := Field(0x24, 1, false)
  const Starter := Field(0x25, 1, false)
  const CurryTypesOwned := Field(0x26, 2, true)
  const RotoRallyScore := Field(0x28, 4, false)
  const CaughtPokemon := Field(0x2C, 4, false)
  const PokeDexComplete := Field(0x30, 1, true)
  const GenderField := Field(0x38, 1, false)
  const Number := Field(0x39, 3, false)
  const Skin := Field(0x40, 8, false)
  const Hair := Field(0x48, 8, false)
  const Brow := Field(0x50, 8, false)
  const Lashes := Field(0x58, 8, false)
  const Contacts := Field(0x60, 8, false)
  const Lips := Field(0x68, 8, false)
  const Glasses := Field(0x70, 8, false)
  const Hat := Field(0x78, 8, false)
  const Jacket := Field(0x80, 8, false)
  const Top := Field(0x88, 8, false)
  const Bag := Field(0x90, 8, false)
  const Gloves := Field(0x98, 8, false)
  const BottomOrDress := Field(0xA0, 8, false)
  const Sock := Field(0xA8, 8, false)
  const Shoe := Field(0xB0, 8, false)
  const MomSkin := Field(0xC0, 8, false)
  const Party := Field(0xC8, 6 * 0x1C, true)
  const StartedYear := Field(0x170, 2, true)
  const StartedMonth := Field(0x172, 1, true)
  const StartedDay := Field(0x173, 1, true)
  const TimestampPrinted := Field(0x1A8, 4, true)
  const ArmorDexComplete := Field(0x1B4, 1, true)
  const CrownDexComplete := Field(0x1B5, 1, true)

  /** One past the last byte any accessor reaches, counted from Offset. */
  const BlockSize: nat := 0x1B6

  const RotoRallyScoreMax: int32 := 99_999
  const MaxPokemonCaught: int32 := 99_999

  /** Fields read and written as plain unsigned numbers (byte, ushort, uint, ulong). */
  const UnsignedFields: set<Field> := {
    LanguageField, PokeDexOwned, ShinyPokemonFound, Game, Starter, CurryTypesOwned,
    Skin, Hair, Brow, Lashes, Contacts, Lips, Glasses, Hat, Jacket, Top, Bag, Gloves,
    BottomOrDress, Sock, Shoe, MomSkin, StartedYear, StartedMonth, StartedDay, TimestampPrinted}
  /** Fields read and written as C# ints. */
  const Int32Fields: set<Field> := {TrainerID, RotoRallyScore, CaughtPokemon}
  /** Fields stored as 1 or 0 and read as "== 1". */
  const FlagFields: set<Field> := {PokeDexComplete, ArmorDexComplete, CrownDexComplete}

  /** Every field of the block, in buffer order when Offset is zero. */
  const Layout: seq<Field> := [
    OTTrash, LanguageField, TrainerID, PokeDexOwned, ShinyPokemonFound, Game, Starter,
    CurryTypesOwned, RotoRallyScore, CaughtPokemon, PokeDexComplete, GenderField, Number,
    Skin, Hair, Brow, Lashes, Contacts, Lips, Glasses, Hat, Jacket, Top, Bag, Gloves,
    BottomOrDress, Sock, Shoe, MomSkin, Party, StartedYear, StartedMonth, StartedDay,
    TimestampPrinted, ArmorDexComplete, CrownDexComplete]

  /** Each field ends before the next one starts. */
  predicate Ordered(l: seq<Field>, offset: nat)
  {
    forall i :: 0 <= i < |l| - 1 ==> Start(l[i], offset) + l[i].width <= Start(l[i + 1], offset)
  }

  lemma {:induction false} OrderedApart(l: seq<Field>, offset: nat, i: nat, j: nat)
    requires Ordered(l, offset) && i < j < |l|
    ensures Start(l[i], offset) + l[i].width <= Start(l[j], offset)
  {
    if i + 1 < j {
      OrderedApart(l, offset, i, j - 1);
    }
  }

  /** With Offset zero, no two fields of the block share a byte. */
  lemma LayoutDisjointAtZero(i: nat, j: nat)
    requires i < j < |Layout|
    ensures Disjoint(Layout[i], Layout[j], 0)
  {
    assert Ordered(Layout, 0);
    OrderedApart(Layout, 0, i, j);
  }

  /** Every field lies inside the block, whatever the Offset. */
  lemma LayoutInsideBlock(offset: nat, f: Field)
    requires f in Layout
    ensures Start(f, offset) + f.width <= offset + BlockSize
  {
  }

  /**
   * The raw and Offset-relative positions only agree at Offset zero: at
   * Offset 0x10 the PokeDexComplete flag lands on the low byte of Skin.
   */
  lemma MixedOffsetsCollide()
    ensures Start(PokeDexComplete, 0x10) == Start(Skin, 0x10)
    ensures !Disjoint(PokeDexComplete, Skin, 0x10)
  {
  }

  /** A setter's clamp: the value, but never above max. */
  function Clamp(value: int32, max: int32): (r: int32)
    ensures r <= max && r <= value
    ensures r == value || r == max
  {
    if value > max then max else value
  }

  /**
   * Bytes the Number setter writes: the low byte of each of the first three
   * UTF-16 code units (a C# string's chars), then zero padding.
   */
  function NumberBytes(value: seq<uint16>): (b: seq<byte>)
    ensures |b| == 3
  {
    seq(3, i requires 0 <= i < 3 => if i < |value| then value[i] % 256 else 0)
  }

  /** Only the first three code units matter, and a code unit below 256 is stored as itself. */
  lemma NumberBytesMeaning(value: seq<uint16>)
    ensures |value| > 3 ==> NumberBytes(value) == NumberBytes(value[..3])
    ensures forall i :: 0 <= i < 3 && i < |value| && value[i] < 256 ==> NumberBytes(value)[i] == value[i]
    ensures forall i :: |value| <= i < 3 ==> NumberBytes(value)[i] == 0
  {
  }

  // ---------------------------------------------------------------------
  // Party slots (TrainerCard8Poke)
  // ---------------------------------------------------------------------

  const PokeSize: nat := 0x1C
  const SpeciesStore := Field(0x00, 4, true)  // written as a 4-byte int
  const SpeciesRead := Field(0x00, 2, true)   // read as a 2-byte ushort
  const FormStore := Field(0x04, 4, true)     // written as a 4-byte int
  const FormRead := Field(0x04, 1, true)      // read as one byte
  const PokeGender := Field(0x08, 4, true)
  const PokeShiny := Field(0x0C, 1, true)
  const PokeEncryptionConstant := Field(0x10, 4, true)
  const PokeUnknown := Field(0x14, 4, true)
  const PokeFormArgument := Field(0x18, 4, true)

  /** The party creature fields a slot copies; formArgument is None when its format has none. */
  datatype PartyMember = PartyMember(
    species: uint16, form: byte, gender: int32, isShiny: bool,
    encryptionConstant: uint32, formArgument: Option<uint32>)

  /** The title screen creature fields a slot copies. */
  datatype TitleScreenPoke = TitleScreenPoke(
    species: uint16, form: byte, gender: int32, isShiny: bool,
    encryptionConstant: uint32, formArgument: int32)

  /** Form argument a party creature leaves in its slot: its own for Alcremie, -1 otherwise. */
  function CardFormArgument(pk: PartyMember): (r: int32)
    ensures pk.species == Alcremie && pk.formArgument.Some? ==> Int32Bits(r) == pk.formArgument.value
    ensures !(pk.species == Alcremie && pk.formArgument.Some?) ==> r == -1
  {
    if pk.formArgument.Some? && pk.species == Alcremie then Int32FromBits(pk.formArgument.value) else -1
  }

  function ShinyByte(isShiny: bool): byte
  {
    if isShiny then 1 else 0
  }

  /** The slot at start after the six setters of LoadFrom, in their order. */
  function LoadImage(s: seq<byte>, start: nat, species: uint16, form: byte, gender: int32, isShiny: bool,
                     ec: uint32, formArgument: int32): (r: seq<byte>)
    requires start + PokeSize <= |s|
    ensures |r| == |s|
  {
    var s1 := WriteField(s, start, SpeciesStore, species);
    var s2 := WriteField(s1, start, FormStore, form);
    var s3 := WriteField(s2, start, PokeGender, Int32Bits(gender));
    var s4 := WriteField(s3, start, PokeShiny, ShinyByte(isShiny));
    var s5 := WriteField(s4, start, PokeEncryptionConstant, ec);
    WriteField(s5, start, PokeFormArgument, Int32Bits(formArgument))
  }

  function LoadFromImage(s: seq<byte>, start: nat, pk: PartyMember): (r: seq<byte>)
    requires start + PokeSize <= |s|
    ensures |r| == |s|
  {
    LoadImage(s, start, pk.species, pk.form, pk.gender, pk.isShiny, pk.encryptionConstant, CardFormArgument(pk))
  }

  /** What the slot getters read at start. */
  predicate Shows(s: seq<byte>, start: nat, species: uint16, form: byte, gender: int32, isShiny: bool,
                  ec: uint32, formArgument: int32)
    requires start + PokeSize <= |s|
  {
    ReadField(s, start, SpeciesRead) == species &&
    ReadField(s, start, FormRead) == form &&
    Int32FromBits(ReadField(s, start, PokeGender)) == gender &&
    (ReadField(s, start, PokeShiny) != 0) == isShiny &&
    ReadField(s, start, PokeEncryptionConstant) == ec &&
    Int32FromBits(ReadField(s, start, PokeFormArgument)) == formArgument
  }

  predicate ShowsMember(s: seq<byte>, start: nat, pk: PartyMember)
    requires start + PokeSize <= |s|
  {
    Shows(s, start, pk.species, pk.form, pk.gender, pk.isShiny, pk.encryptionConstant, CardFormArgument(pk))
  }

  /** Slot bytes LoadFrom writes; 0x0D-0x0F and Unknown (0x14-0x17) are left alone. */
  predicate LoadWrites(j: int)
  {
    0 <= j < 0x0D || 0x10 <= j < 0x14 || 0x18 <= j < 0x1C
  }

  /** After LoadFrom the getters read back what was loaded. */
  lemma LoadImageShows(s: seq<byte>, start: nat, species: uint16, form: byte, gender: int32, isShiny: bool,
                       ec: uint32, formArgument: int32)
    requires start + PokeSize <= |s|
    ensures Shows(LoadImage(s, start, species, form, gender, isShiny, ec, formArgument),
                  start, species, form, gender, isShiny, ec, formArgument)
  {
    var s1 := WriteField(s, start, SpeciesStore, species);
    var s2 := WriteField(s1, start, FormStore, form);
    var s3 := WriteField(s2, start, PokeGender, Int32Bits(gender));
    var s4 := WriteField(s3, start, PokeShiny, ShinyByte(isShiny));
    var s5 := WriteField(s4, start, PokeEncryptionConstant, ec);
    Pow256Widths();
    WideWriteNarrowRead(s, start, SpeciesStore, SpeciesRead, species);
    ReadWriteOther(s1, start, FormStore, SpeciesRead, form);
    ReadWriteOther(s2, start, PokeGender, SpeciesRead, Int32Bits(gender));
    ReadWriteOther(s3, start, PokeShiny, SpeciesRead, ShinyByte(isShiny));
    ReadWriteOther(s4, start, PokeEncryptionConstant, SpeciesRead, ec);
    ReadWriteOther(s5, start, PokeFormArgument, SpeciesRead, Int32Bits(formArgument));
    WideWriteNarrowRead(s1, start, FormStore, FormRead, form);
    ReadWriteOther(s2, start, PokeGender, FormRead, Int32Bits(gender));
    ReadWriteOther(s3, start, PokeShiny, FormRead, ShinyByte(isShiny));
    ReadWriteOther(s4, start, PokeEncryptionConstant, FormRead, ec);
    ReadWriteOther(s5, start, PokeFormArgument, FormRead, Int32Bits(formArgument));
    ReadWriteSame(s2, start, PokeGender, Int32Bits(gender));
    ReadWriteOther(s3, start, PokeShiny, PokeGender, ShinyByte(isShiny));
    ReadWriteOther(s4, start, PokeEncryptionConstant, PokeGender, ec);
    ReadWriteOther(s5, start, PokeFormArgument, PokeGender, Int32Bits(formArgument));
    ReadWriteSame(s3, start, PokeShiny, ShinyByte(isShiny));
    ReadWriteOther(s4, start, PokeEncryptionConstant, PokeShiny, ec);
    ReadWriteOther(s5, start, PokeFormArgument, PokeShiny, Int32Bits(formArgument));
    ReadWriteSame(s4, start, PokeEncryptionConstant, ec);
    ReadWriteOther(s5, start, PokeFormArgument, PokeEncryptionConstant, Int32Bits(formArgument));
    ReadWriteSame(s5, start, PokeFormArgument, Int32Bits(formArgument));
    Int32BitsRoundTrip(gender, 0);
    Int32BitsRoundTrip(formArgument, 0);
  }

  /**
   * LoadFrom changes only the bytes it writes: Unknown, the three bytes
   * after IsShiny and everything outside the slot stay as they were.
   */
  lemma LoadImageFrame(s: seq<byte>, start: nat, species: uint16, form: byte, gender: int32, isShiny: bool,
                       ec: uint32, formArgument: int32)
    requires start + PokeSize <= |s|
    ensures var r := LoadImage(s, start, species, form, gender, isShiny, ec, formArgument);
      forall i :: 0 <= i < |s| && !LoadWrites(i - start) ==> r[i] == s[i]
  {
    var s1 := WriteField(s, start, SpeciesStore, species);
    var s2 := WriteField(s1, start, FormStore, form);
    var s3 := WriteField(s2, start, PokeGender, Int32Bits(gender));
    var s4 := WriteField(s3, start, PokeShiny, ShinyByte(isShiny));
    var s5 := WriteField(s4, start, PokeEncryptionConstant, ec);
    var s6 := WriteField(s5, start, PokeFormArgument, Int32Bits(formArgument));
    Pow256Widths();
    forall i | 0 <= i < |s| && !LoadWrites(i - start)
      ensures s6[i] == s[i]
    {
      WriteFieldFacts(s, start, SpeciesStore, species);
      WriteFieldFacts(s1, start, FormStore, form);
      WriteFieldFacts(s2, start, PokeGender, Int32Bits(gender));
      WriteFieldFacts(s3, start, PokeShiny, ShinyByte(isShiny));
      WriteFieldFacts(s4, start, PokeEncryptionConstant, ec);
      WriteFieldFacts(s5, start, PokeFormArgument, Int32Bits(formArgument));
    }
  }

  /** The four writes of LoadFrom after Form leave the slot's first eight bytes alone. */
  lemma LaterWritesKeep(s2: seq<byte>, start: nat, gender: int32, isShiny: bool, ec: uint32, formArgument: int32, i: nat)
    requires start + PokeSize <= |s2| && start <= i < start + 8
    ensures var s3 := WriteField(s2, start, PokeGender, Int32Bits(gender));
      var s4 := WriteField(s3, start, PokeShiny, ShinyByte(isShiny));
      var s5 := WriteField(s4, start, PokeEncryptionConstant, ec);
      WriteField(s5, start, PokeFormArgument, Int32Bits(formArgument))[i] == s2[i]
  {
    var s3 := WriteField(s2, start, PokeGender, Int32Bits(gender));
    var s4 := WriteField(s3, start, PokeShiny, ShinyByte(isShiny));
    var s5 := WriteField(s4, start, PokeEncryptionConstant, ec);
    Pow256Widths();
    WriteFieldFacts(s2, start, PokeGender, Int32Bits(gender));
    WriteFieldFacts(s3, start, PokeShiny, ShinyByte(isShiny));
    WriteFieldFacts(s4, start, PokeEncryptionConstant, ec);
    WriteFieldFacts(s5, start, PokeFormArgument, Int32Bits(formArgument));
  }

  /** The high bytes of the widened Species and Form writes are zero after LoadFrom. */
  lemma LoadImageHighBytes(s: seq<byte>, start: nat, species: uint16, form: byte, gender: int32, isShiny: bool,
                           ec: uint32, formArgument: int32)
    requires start + PokeSize <= |s|
    ensures var r := LoadImage(s, start, species, form, gender, isShiny, ec, formArgument);
      r[start + 2] == 0 && r[start + 3] == 0 && r[start + 5] == 0 && r[start + 6] == 0 && r[start + 7] == 0
  {
    var s1 := WriteField(s, start, SpeciesStore, species);
    var s2 := WriteField(s1, start, FormStore, form);
    Pow256Widths();
    WideWriteNarrowRead(s, start, SpeciesStore, SpeciesRead, species);
    WideWriteNarrowRead(s1, start, FormStore, FormRead, form);
    WriteFieldFacts(s1, start, FormStore, form);
    assert s2[start + 2] == 0 && s2[start + 3] == 0;
    LaterWritesKeep(s2, start, gender, isShiny, ec, formArgument, start + 2);
    LaterWritesKeep(s2, start, gender, isShiny, ec, formArgument, start + 3);
    LaterWritesKeep(s2, start, gender, isShiny, ec, formArgument, start + 5);
    LaterWritesKeep(s2, start, gender, isShiny, ec, formArgument, start + 6);
    LaterWritesKeep(s2, start, gender, isShiny, ec, formArgument, start + 7);
  }

  /** Outside its own slot, LoadFrom changes nothing. */
  lemma LoadFromOutside(s: seq<byte>, start: nat, pk: PartyMember)
    requires start + PokeSize <= |s|
    ensures forall i :: 0 <= i < |s| && !(start <= i < start + PokeSize) ==> LoadFromImage(s, start, pk)[i] == s[i]
  {
    LoadImageFrame(s, start, pk.species, pk.form, pk.gender, pk.isShiny, pk.encryptionConstant, CardFormArgument(pk));
  }

  /** The getters of a slot only look at the slot's own bytes. */
  lemma ShowsLocal(s: seq<byte>, t: seq<byte>, start: nat, pk: PartyMember)
    requires start + PokeSize <= |s| == |t|
    requires forall i :: start <= i < start + PokeSize ==> s[i] == t[i]
    ensures ShowsMember(s, start, pk) <==> ShowsMember(t, start, pk)
  {
    assert s[start..start + 2] == t[start..start + 2];
    assert s[start + 4..start + 5] == t[start + 4..start + 5];
    assert s[start + 8..start + 12] == t[start + 8..start + 12];
    assert s[start + 12..start + 13] == t[start + 12..start + 13];
    assert s[start + 16..start + 20] == t[start + 16..start + 20];
    assert s[start + 24..start + 28] == t[start + 24..start + 28];
  }

  /**
   * Where party slot index starts (index 6: where the slots end). The
   * slots lie between 0xC8 and StartedYear.
   */
  function SlotStart(offset: nat, index: nat): (r: nat)
    requires index <= 6
    ensures Start(Party, offset) <= r <= Start(StartedYear, offset)
    ensures index < 6 ==> r + PokeSize <= Start(StartedYear, offset)
  {
    offset + 0xC8 + index * 0x1C
  }

  /** Distinct slots do not overlap. */
  lemma SlotsDisjoint(offset: nat, i: nat, j: nat)
    requires i < j <= 6
    ensures SlotStart(offset, i) + PokeSize <= SlotStart(offset, j)
  {
  }

  /** The buffer after LoadFrom into slots 0..n-1. */
  function LoadSlots(s: seq<byte>, offset: nat, party: seq<PartyMember>, n: nat): (r: seq<byte>)
    requires n <= |party| && n <= 6 && offset + BlockSize <= |s|
    ensures |r| == |s|
  {
    if n == 0 then s
    else LoadFromImage(LoadSlots(s, offset, party, n - 1), SlotStart(offset, n - 1), party[n - 1])
  }

  /** The buffer after Clear of slots from..to-1. */
  function ClearSlots(s: seq<byte>, offset: nat, from: nat, to: nat): (r: seq<byte>)
    requires from <= to <= 6 && offset + BlockSize <= |s|
    ensures |r| == |s|
  {
    if to == from then s
    else Splice(ClearSlots(s, offset, from, to - 1), SlotStart(offset, to - 1), Zeros(PokeSize))
  }

  /** The buffer after LoadTeamData of a party of at most six. */
  function TeamImage(s: seq<byte>, offset: nat, party: seq<PartyMember>): (r: seq<byte>)
    requires |party| <= 6 && offset + BlockSize <= |s|
    ensures |r| == |s|
  {
    ClearSlots(LoadSlots(s, offset, party, |party|), offset, |party|, 6)
  }

  /** Loading slots 0..n-1 changes no byte outside them. */
  lemma {:induction false} LoadSlotsOutside(s: seq<byte>, offset: nat, party: seq<PartyMember>, n: nat)
    requires n <= |party| && n <= 6 && offset + BlockSize <= |s|
    ensures forall i :: 0 <= i < |s| && !(SlotStart(offset, 0) <= i < SlotStart(offset, n)) ==>
      LoadSlots(s, offset, party, n)[i] == s[i]
  {
    if n > 0 {
      LoadSlotsOutside(s, offset, party, n - 1);
      LoadFromOutside(LoadSlots(s, offset, party, n - 1), SlotStart(offset, n - 1), party[n - 1]);
    }
  }

  /** Loading slots 0..n-1 makes slot k show party[k], for every k below n. */
  lemma {:induction false} LoadSlotsShow(s: seq<byte>, offset: nat, party: seq<PartyMember>, n: nat, k: nat)
    requires n <= |party| && n <= 6 && offset + BlockSize <= |s| && k < n
    ensures ShowsMember(LoadSlots(s, offset, party, n), SlotStart(offset, k), party[k])
  {
    var prev := LoadSlots(s, offset, party, n - 1);
    var pk := party[n - 1];
    if k == n - 1 {
      LoadImageShows(prev, SlotStart(offset, k), pk.species, pk.form, pk.gender, pk.isShiny,
                     pk.encryptionConstant, CardFormArgument(pk));
    } else {
      LoadSlotsShow(s, offset, party, n - 1, k);
      SlotsDisjoint(offset, k, n - 1);
      LoadFromOutside(prev, SlotStart(offset, n - 1), pk);
      ShowsLocal(prev, LoadSlots(s, offset, party, n), SlotStart(offset, k), party[k]);
    }
  }

  /** Clearing slots from..to-1 zeroes them and changes no other byte. */
  lemma {:induction false} ClearSlotsEffect(s: seq<byte>, offset: nat, from: nat, to: nat)
    requires from <= to <= 6 && offset + BlockSize <= |s|
    ensures forall i :: SlotStart(offset, from) <= i < SlotStart(offset, to) ==> ClearSlots(s, offset, from, to)[i] == 0
    ensures forall i :: 0 <= i < |s| && !(SlotStart(offset, from) <= i < SlotStart(offset, to)) ==>
      ClearSlots(s, offset, from, to)[i] == s[i]
  {
    if from < to {
      ClearSlotsEffect(s, offset, from, to - 1);
      SpliceFacts(ClearSlots(s, offset, from, to - 1), SlotStart(offset, to - 1), Zeros(PokeSize));
    }
  }

  /**
   * LoadTeamData's outcome: slot k shows party[k] for every k below the
   * party size, the remaining slots are zero, and no byte outside the six
   * slots changes.
   */
  lemma TeamImageEffect(s: seq<byte>, offset: nat, party: seq<PartyMember>)
    requires |party| <= 6 && offset + BlockSize <= |s|
    ensures forall k :: 0 <= k < |party| ==> ShowsMember(TeamImage(s, offset, party), SlotStart(offset, k), party[k])
    ensures forall i :: SlotStart(offset, |party|) <= i < SlotStart(offset, 6) ==> TeamImage(s, offset, party)[i] == 0
    ensures forall i :: 0 <= i < |s| && !(SlotStart(offset, 0) <= i < SlotStart(offset, 6)) ==> TeamImage(s, offset, party)[i] == s[i]
  {
    var loaded := LoadSlots(s, offset, party, |party|);
    LoadSlotsOutside(s, offset, party, |party|);
    ClearSlotsEffect(loaded, offset, |party|, 6);
    forall k | 0 <= k < |party|
      ensures ShowsMember(TeamImage(s, offset, party), SlotStart(offset, k), party[k])
    {
      LoadSlotsShow(s, offset, party, |party|, k);
      SlotsDisjoint(offset, k, |party|);
      ShowsLocal(loaded, TeamImage(s, offset, party), SlotStart(offset, k), party[k]);
    }
  }

  /** One party slot: a view over the card's buffer at a slot's position. */
  class TrainerCard8Poke {
    const Data: array<byte>
    const Offset: nat

    ghost predicate Valid()
    {
      Offset + PokeSize <= Data.Length
    }

    constructor (data: array<byte>, offset: nat)
      requires offset + PokeSize <= data.Length
      ensures Data == data && Offset == offset && Valid()
    {
      Data, Offset := data, offset;
    }

    /** The low two bytes of the slot, little-endian. */
    function Species(): (v: uint16)
      reads Data
      requires Valid()
      ensures v == Data[Offset] as int + 0x100 * Data[Offset + 1] as int
    {
      FromLE2(Data[Offset..Offset + 2]);
      ReadField(Data[..], Offset, SpeciesRead)
    }

    /** Writes the species as a 4-byte int; the getter reads its low two bytes. */
    method SetSpecies(value: uint16)
      requires Valid()
      modifies Data
      ensures Data[..] == WriteField(old(Data[..]), Offset, SpeciesStore, value)
      ensures Species() == value && Data[Offset + 2] == 0 && Data[Offset + 3] == 0
    {
      Pow256Widths();
      WriteBytes(Data, Offset, ToLE(value, 4));
      WideWriteNarrowRead(old(Data[..]), Offset, SpeciesStore, SpeciesRead, value);
    }

    /** The low byte of the 4-byte form field. */
    function Form(): (v: byte)
      reads Data
      requires Valid()
      ensures v == ReadField(Data[..], Offset, FormRead)
    {
      assert Data[..][Offset + 4..Offset + 5] == [Data[Offset + 4]];
      Data[Offset + 0x04]
    }

    /** Writes the form as a 4-byte int; the getter reads its low byte. */
    method SetForm(value: byte)
      requires Valid()
      modifies Data
      ensures Data[..] == WriteField(old(Data[..]), Offset, FormStore, value)
      ensures Form() == value && Data[Offset + 5] == 0 && Data[Offset + 6] == 0 && Data[Offset + 7] == 0
    {
      Pow256Widths();
      WriteBytes(Data, Offset + 0x04, ToLE(value, 4));
      WideWriteNarrowRead(old(Data[..]), Offset, FormStore, FormRead, value);
      assert Data[..][Offset + 4..Offset + 5] == [Data[Offset + 4]];
    }

    /** The C# int at 0x08, little-endian two's complement. */
    function Gender(): (v: int32)
      reads Data
      requires Valid()
      ensures Int32Bits(v) == Data[Offset + 0x08] as int + 0x100 * Data[Offset + 0x08 + 1] as int + 0x1_0000 * Data[Offset + 0x08 + 2] as int + 0x100_0000 * Data[Offset + 0x08 + 3] as int
    {
      FromLE4(Data[Offset + 0x08..Offset + 0x0C]);
      Int32BitsRoundTrip(0, ReadField(Data[..], Offset, PokeGender));
      Int32FromBits(ReadField(Data[..], Offset, PokeGender))
    }

    method SetGender(value: int32)
      requires Valid()
      modifies Data
      ensures Data[..] == WriteField(old(Data[..]), Offset, PokeGender, Int32Bits(value))
      ensures Gender() == value
    {
      Pow256Widths();
      var bits := Int32Bits(value);
      WriteBytes(Data, Offset + 0x08, ToLE(bits, 4));
      assert Data[..] == WriteField(old(Data[..]), Offset, PokeGender, bits);
      ReadWriteSame(old(Data[..]), Offset, PokeGender, bits);
      assert ReadField(Data[..], Offset, PokeGender) == bits;
      Int32BitsRoundTrip(value, 0);
    }

    /** Any non-zero byte at 0x0C reads as shiny. */
    function IsShiny(): (v: bool)
      reads Data
      requires Valid()
      ensures v <==> ReadField(Data[..], Offset, PokeShiny) != 0
    {
      assert Data[..][Offset + 0x0C..Offset + 0x0D] == [Data[Offset + 0x0C]];
      Data[Offset + 0x0C] != 0
    }

    method SetIsShiny(value: bool)
      requires Valid()
      modifies Data
      ensures Data[..] == WriteField(old(Data[..]), Offset, PokeShiny, ShinyByte(value))
      ensures IsShiny() == value
    {
      Pow256Widths();
      WriteBytes(Data, Offset + 0x0C, ToLE(ShinyByte(value), 1));
    }

    /** The uint at 0x10, little-endian. */
    function EncryptionConstant(): (v: uint32)
      reads Data
      requires Valid()
      ensures v == Data[Offset + 0x10] as int + 0x100 * Data[Offset + 0x10 + 1] as int + 0x1_0000 * Data[Offset + 0x10 + 2] as int + 0x100_0000 * Data[Offset + 0x10 + 3] as int
    {
      FromLE4(Data[Offset + 0x10..Offset + 0x14]);
      ReadField(Data[..], Offset, PokeEncryptionConstant)
    }

    method SetEncryptionConstant(value: uint32)
      requires Valid()
      modifies Data
      ensures Data[..] == WriteField(old(Data[..]), Offset, PokeEncryptionConstant, value)
      ensures EncryptionConstant() == value
    {
      Pow256Widths();
      WriteBytes(Data, Offset + 0x10, ToLE(value, 4));
      ReadWriteSame(old(Data[..]), Offset, PokeEncryptionConstant, value);
    }

    /** The uint at 0x14, little-endian. */
    function Unknown(): (v: uint32)
      reads Data
      requires Valid()
      ensures v == Data[Offset + 0x14] as int + 0x100 * Data[Offset + 0x14 + 1] as int + 0x1_0000 * Data[Offset + 0x14 + 2] as int + 0x100_0000 * Data[Offset + 0x14 + 3] as int
    {
      FromLE4(Data[Offset + 0x14..Offset + 0x18]);
      ReadField(Data[..], Offset, PokeUnknown)
    }

    method SetUnknown(value: uint32)
      requires Valid()
      modifies Data
      ensures Data[..] == WriteField(old(Data[..]), Offset, PokeUnknown, value)
      ensures Unknown() == value
    {
      Pow256Widths();
      WriteBytes(Data, Offset + 0x14, ToLE(value, 4));
      ReadWriteSame(old(Data[..]), Offset, PokeUnknown, value);
    }

    /** The C# int at 0x18, little-endian two's complement. */
    function FormArgument(): (v: int32)
      reads Data
      requires Valid()
      ensures Int32Bits(v) == Data[Offset + 0x18] as int + 0x100 * Data[Offset + 0x18 + 1] as int + 0x1_0000 * Data[Offset + 0x18 + 2] as int + 0x100_0000 * Data[Offset + 0x18 + 3] as int
    {
      FromLE4(Data[Offset + 0x18..Offset + 0x1C]);
      Int32BitsRoundTrip(0, ReadField(Data[..], Offset, PokeFormArgument));
      Int32FromBits(ReadField(Data[..], Offset, PokeFormArgument))
    }

    method SetFormArgument(value: int32)
      requires Valid()
      modifies Data
      ensures Data[..] == WriteField(old(Data[..]), Offset, PokeFormArgument, Int32Bits(value))
      ensures FormArgument() == value
    {
      Pow256Widths();
      var bits := Int32Bits(value);
      WriteBytes(Data, Offset + 0x18, ToLE(bits, 4));
      assert Data[..] == WriteField(old(Data[..]), Offset, PokeFormArgument, bits);
      ReadWriteSame(old(Data[..]), Offset, PokeFormArgument, bits);
      assert ReadField(Data[..], Offset, PokeFormArgument) == bits;
      Int32BitsRoundTrip(value, 0);
    }

    /** Zeroes the slot's 0x1C bytes and nothing else. */
    method Clear()
      requires Valid()
      modifies Data
      ensures Data[..] == Splice(old(Data[..]), Offset, Zeros(PokeSize))
    {
      Pow256Widths();
      WriteBytes(Data, Offset, Zeros(PokeSize));
    }

    method LoadFrom(pk: PartyMember)
      requires Valid()
      modifies Data
      ensures Data[..] == LoadFromImage(old(Data[..]), Offset, pk)
      ensures Species() == pk.species && Form() == pk.form && Gender() == pk.gender && IsShiny() == pk.isShiny
      ensures EncryptionConstant() == pk.encryptionConstant && FormArgument() == CardFormArgument(pk)
    {
      SetSpecies(pk.species);
      SetForm(pk.form);
      SetGender(pk.gender);
      SetIsShiny(pk.isShiny);
      SetEncryptionConstant(pk.encryptionConstant);
      SetFormArgument(CardFormArgument(pk));
      LoadImageShows(old(Data[..]), Offset, pk.species, pk.form, pk.gender, pk.isShiny,
                     pk.encryptionConstant, CardFormArgument(pk));
    }

    method LoadFromTitleScreen(pk: TitleScreenPoke)
      requires Valid()
      modifies Data
      ensures Data[..] == LoadImage(old(Data[..]), Offset, pk.species, pk.form, pk.gender, pk.isShiny,
                                    pk.encryptionConstant, pk.formArgument)
      ensures Species() == pk.species && Form() == pk.form && Gender() == pk.gender && IsShiny() == pk.isShiny
      ensures EncryptionConstant() == pk.encryptionConstant && FormArgument() == pk.formArgument
    {
      SetSpecies(pk.species);
      SetForm(pk.form);
      SetGender(pk.gender);
      SetIsShiny(pk.isShiny);
      SetEncryptionConstant(pk.encryptionConstant);
      SetFormArgument(pk.formArgument);
      LoadImageShows(old(Data[..]), Offset, pk.species, pk.form, pk.gender, pk.isShiny,
                     pk.encryptionConstant, pk.formArgument);
    }
  }

  /** The trainer card block. */
  class TrainerCard8 {
    const Data: array<byte>
    const Offset: nat

    ghost predicate Valid()
    {
      Offset + BlockSize <= Data.Length
    }

    constructor (data: array<byte>, offset: nat)
      requires offset + BlockSize <= data.Length
      ensures Data == data && Offset == offset && Valid()
    {
      Data, Offset := data, offset;
    }

    /** Byte, ushort, uint and ulong fields. */
    function GetUnsigned(f: Field): (v: nat)
      reads Data
      requires Valid() && f in UnsignedFields
      ensures v < Pow256(f.width)
    {
      ReadField(Data[..], Offset, f)
    }

    method SetUnsigned(f: Field, v: nat)
      requires Valid() && f in UnsignedFields && v < Pow256(f.width)
      modifies Data
      ensures Data[..] == WriteField(old(Data[..]), Offset, f, v)
      ensures GetUnsigned(f) == v
    {
      Pow256Widths();
      WriteBytes(Data, Start(f, Offset), ToLE(v, f.width));
      ReadWriteSame(old(Data[..]), Offset, f, v);
    }

    /** C# int fields, stored in two's complement. */
    function GetInt32(f: Field): (v: int32)
      reads Data
      requires Valid() && f in Int32Fields
      ensures Int32Bits(v) == Data[f.pos] as int + 0x100 * Data[f.pos + 1] as int + 0x1_0000 * Data[f.pos + 2] as int + 0x100_0000 * Data[f.pos + 3] as int
    {
      FromLE4(Data[f.pos..f.pos + 4]);
      Int32BitsRoundTrip(0, ReadField(Data[..], Offset, f));
      Int32FromBits(ReadField(Data[..], Offset, f))
    }

    method SetInt32(f: Field, v: int32)
      requires Valid() && f in Int32Fields
      modifies Data
      ensures Data[..] == WriteField(old(Data[..]), Offset, f, Int32Bits(v))
      ensures GetInt32(f) == v
    {
      Pow256Widths();
      var bits := Int32Bits(v);
      WriteBytes(Data, Start(f, Offset), ToLE(bits, 4));
      assert Data[..] == WriteField(old(Data[..]), Offset, f, bits);
      ReadWriteSame(old(Data[..]), Offset, f, bits);
      assert ReadField(Data[..], Offset, f) == bits;
      Int32BitsRoundTrip(v, 0);
    }

    method SetRotoRallyScore(value: int32)
      requires Valid()
      modifies Data
      ensures Data[..] == WriteField(old(Data[..]), Offset, RotoRallyScore, Int32Bits(Clamp(value, RotoRallyScoreMax)))
      ensures GetInt32(RotoRallyScore) == Clamp(value, RotoRallyScoreMax)
    {
      var v := value;
      if v > RotoRallyScoreMax {
        v := RotoRallyScoreMax;
      }
      SetInt32(RotoRallyScore, v);
    }

    method SetCaughtPokemon(value: int32)
      requires Valid()
      modifies Data
      ensures Data[..] == WriteField(old(Data[..]), Offset, CaughtPokemon, Int32Bits(Clamp(value, MaxPokemonCaught)))
      ensures GetInt32(CaughtPokemon) == Clamp(value, MaxPokemonCaught)
    {
      var v := value;
      if v > MaxPokemonCaught {
        v := MaxPokemonCaught;
      }
      SetInt32(CaughtPokemon, v);
    }

    /** Flags read as "the byte is 1". */
    function GetFlag(f: Field): (v: bool)
      reads Data
      requires Valid() && f in FlagFields
      ensures v <==> ReadField(Data[..], Offset, f) == 1
    {
      assert Data[..][Start(f, Offset)..Start(f, Offset) + 1] == [Data[Start(f, Offset)]];
      Data[Start(f, Offset)] == 1
    }

    method SetFlag(f: Field, value: bool)
      requires Valid() && f in FlagFields
      modifies Data
      ensures Data[..] == WriteField(old(Data[..]), Offset, f, if value then 1 else 0)
      ensures GetFlag(f) == value
    {
      Pow256Widths();
      WriteBytes(Data, Start(f, Offset), ToLE(if value then 1 else 0, 1));
    }

    function GetGender(): (v: byte)
      reads Data
      requires Valid()
      ensures v == ReadField(Data[..], Offset, GenderField)
    {
      assert Data[..][0x38..0x39] == [Data[0x38]];
      Data[0x38]
    }

    /** Stores the low byte of the value (the unchecked byte cast). */
    method SetGender(value: int32)
      requires Valid()
      modifies Data
      ensures Data[..] == WriteField(old(Data[..]), Offset, GenderField, value % 256)
      ensures GetGender() == value % 256
    {
      Pow256Widths();
      WriteBytes(Data, 0x38, ToLE(value % 256, 1));
    }

    /** The three Number bytes (their ASCII decoding is not part of this model). */
    function GetNumber(): (r: seq<byte>)
      reads Data
      requires Valid()
      ensures |r| == Number.width && forall i :: 0 <= i < 3 ==> r[i] == Data[Start(Number, Offset) + i]
    {
      Data[0x39..0x3C]
    }

    method SetNumber(value: seq<uint16>)
      requires Valid()
      modifies Data
      ensures Data[..] == Splice(old(Data[..]), 0x39, NumberBytes(value))
      ensures GetNumber() == NumberBytes(value)
    {
      for i := 0 to 3
        invariant Data[..] == Splice(old(Data[..]), 0x39, NumberBytes(value)[..i])
      {
        Data[0x39 + i] := if |value| > i then value[i] % 256 else 0;
      }
    }

    /** The view of party slot index; None where the source throws (index outside 0..5). */
    method ViewPoke(index: int32) returns (r: Option<TrainerCard8Poke>)
      requires Valid()
      ensures r.Some? <==> 0 <= index < 6
      ensures r.Some? ==> r.value.Data == Data && r.value.Offset == SlotStart(Offset, index) && r.value.Valid()
    {
      if index % 0x1_0000_0000 >= 6 {  // (uint)index >= 6
        return None;
      }
      var view := new TrainerCard8Poke(Data, Offset + 0xC8 + index * PokeSize);
      return Some(view);
    }

    /** LoadFrom through a view of this card's buffer, seen as a change of the whole buffer. */
    method LoadInto(view: TrainerCard8Poke, pk: PartyMember)
      requires Valid() && view.Valid() && view.Data == Data
      modifies Data
      ensures Data[..] == LoadFromImage(old(Data[..]), view.Offset, pk)
    {
      view.LoadFrom(pk);
    }

    /**
     * Loads the party into slots 0..|party|-1 and clears the rest. A party
     * of more than six fills all six slots and then fails where the source
     * throws, on the view of slot 6.
     */
    method LoadTeamData(party: seq<PartyMember>) returns (ok: bool)
      requires Valid()
      modifies Data
      ensures ok <==> |party| <= 6
      ensures ok ==> Data[..] == TeamImage(old(Data[..]), Offset, party)
      ensures !ok ==> Data[..] == LoadSlots(old(Data[..]), Offset, party, 6)
    {
      ok := LoadMembers(party);
      if ok {
        ClearFrom(|party|);
      }
    }

    /** The first loop of LoadTeamData: slot i gets party[i], failing at a seventh member. */
    method LoadMembers(party: seq<PartyMember>) returns (ok: bool)
      requires Valid()
      modifies Data
      ensures ok <==> |party| <= 6
      ensures ok ==> Data[..] == LoadSlots(old(Data[..]), Offset, party, |party|)
      ensures !ok ==> Data[..] == LoadSlots(old(Data[..]), Offset, party, 6)
    {
      var i := 0;
      while i < |party|
        invariant i <= |party| && i <= 6
        invariant Data[..] == LoadSlots(old(Data[..]), Offset, party, i)
      {
        var view := ViewPoke(i);
        if view.None? {
          return false;
        }
        LoadInto(view.value, party[i]);
        i := i + 1;
      }
      return true;
    }

    /** The second loop of LoadTeamData: slots from..5 are cleared. */
    method ClearFrom(from: nat)
      requires Valid() && from <= 6
      modifies Data
      ensures Data[..] == ClearSlots(old(Data[..]), Offset, from, 6)
    {
      var i := from;
      while i < 6
        invariant from <= i <= 6
        invariant Data[..] == ClearSlots(old(Data[..]), Offset, from, i)
      {
        var view := ViewPoke(i);
        ghost var before := Data[..];
        view.value.Clear();
        assert Data[..] == Splice(before, SlotStart(Offset, i), Zeros(PokeSize));
        i := i + 1;
      }
    }
  }
}
