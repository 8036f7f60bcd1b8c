/**
 * Generation 4 in-game trades with fixed values: the three record kinds,
 * whether a stored creature can have come from one, and the fields a
 * freshly generated creature gets from one.
 *
 * The shared trade base (its own matching, detail filling, IV and ability
 * rules) is not part of this model: its verdicts, and the fields it leaves
 * on the target creature, come in as parameters, and its calls are recorded,
 * in order, on the target creature.
 */
module EncounterTrade4 {
  import opened Bytes
  import opened Options
  import opened GameIds

  /** How shininess is decided for an encounter. */
  datatype Shiny = Random | Never | FixedValue

  /** Contest stats: Cool, Beauty, Cute, Smart, Tough, Sheen. */
  datatype ContestStats = ContestStats(cool: int, beauty: int, cute: int, smart: int, tough: int, sheen: int)

  /** The base trade record's fields that this core reads or that a constructor sets. */
  datatype Common = Common(
    species: int, level: int, version: int, gender: int, ability: int,
    ball: int, location: int, otGender: int, shiny: Shiny)

  /** The three generation 4 trade kinds. */
  datatype Encounter =
    | TradePID(common: Common, pid: uint32, contest: ContestStats)  // trade with fixed PID and contest stats
    | RanchGift(common: Common, pid: uint32)                        // My Pokemon Ranch gift, fixed PID
    | RanchSpecial(common: Common)                                  // My Pokemon Ranch special gift
  {
    /** The kinds whose PID is written into the record. */
    predicate HasFixedPID() { TradePID? || RanchGift? }
  }

  const NoContest := ContestStats(0, 0, 0, 0, 0, 0)

  /**
   * Constructor of the fixed-PID trade. `base` is the record as the base
   * class leaves it; the constructor fixes PID, shininess, species and level.
   */
  function NewTradePID(pid: uint32, species: int, level: int, base: Common): (e: Encounter)
    ensures e.TradePID? && e.pid == pid && e.contest == NoContest
    ensures e.common == base.(species := species, level := level, shiny := FixedValue)
  {
    TradePID(base.(species := species, level := level, shiny := FixedValue), pid, NoContest)
  }

  /** Constructor of the ranch gift: as the trade, and the version is Diamond. */
  function NewRanchGift(pid: uint32, species: int, level: int, base: Common): (e: Encounter)
    ensures e.RanchGift? && e.pid == pid && e.common.shiny == FixedValue && e.common.version == D
    ensures e.common == base.(species := species, level := level, shiny := FixedValue, version := D)
  {
    RanchGift(base.(species := species, level := level, shiny := FixedValue, version := D), pid)
  }

  /**
   * Constructor of the ranch special gift: whatever the base left, the ball
   * is 0x10, the version Diamond, the trainer female and the location 3000.
   */
  function NewRanchSpecial(species: int, level: int, base: Common): (e: Encounter)
    ensures e.RanchSpecial? && e.common.species == species && e.common.level == level
    ensures e.common.ball == 0x10 && e.common.version == D && e.common.otGender == 1 && e.common.location == 3000
    ensures e.common.gender == base.gender && e.common.ability == base.ability && e.common.shiny == base.shiny
  {
    RanchSpecial(base.(species := species, level := level, ball := 0x10, version := D, otGender := 1, location := 3000))
  }

  /** The stats in the order the Contest initialiser takes them. */
  function ContestList(c: ContestStats): (l: seq<int>)
    ensures |l| == 6
  {
    [c.cool, c.beauty, c.cute, c.smart, c.tough, c.sheen]
  }

  /**
   * The Contest initialiser: the first six entries, in order. A shorter list
   * makes the source's indexer throw, which is None here.
   */
  function ContestFromList(value: seq<int>): (r: Option<ContestStats>)
    ensures r.Some? <==> |value| >= 6
    ensures r.Some? ==> ContestList(r.value) == value[..6]
  {
    if |value| < 6 then None
    else Some(ContestStats(value[0], value[1], value[2], value[3], value[4], value[5]))
  }

  /** Listing the stats and reading them back gives the same stats. */
  lemma ContestListRoundTrip(c: ContestStats)
    ensures ContestFromList(ContestList(c)) == Some(c)
  {
  }

  /** Setting Contest on a fixed-PID trade: only its contest stats change. */
  function WithContest(e: Encounter, value: seq<int>): (r: Option<Encounter>)
    requires e.TradePID?
    ensures r.Some? <==> |value| >= 6
    ensures r.Some? ==> r.value.TradePID? && r.value.common == e.common && r.value.pid == e.pid
    ensures r.Some? ==> ContestList(r.value.contest) == value[..6]
  {
    match ContestFromList(value)
    case None => None
    case Some(c) => Some(e.(contest := c))
  }

  /** What matching reads from a stored creature: its encryption constant and its contest stats, when its format has them. */
  datatype Candidate = Candidate(encryptionConstant: uint32, contest: Option<ContestStats>)

  /** Some stat of `current` is lower than in `initial`. */
  predicate IsContestBelow(current: ContestStats, initial: ContestStats)
  {
    current.cool < initial.cool || current.beauty < initial.beauty || current.cute < initial.cute ||
    current.smart < initial.smart || current.tough < initial.tough || current.sheen < initial.sheen
  }

  /** "Some stat is lower" is the negation of "every stat, by position, is at least as high". */
  lemma ContestBelowIff(current: ContestStats, initial: ContestStats)
    ensures IsContestBelow(current, initial) <==>
      !(forall k :: 0 <= k < 6 ==> ContestList(current)[k] >= ContestList(initial)[k])
  {
    var a, b := ContestList(current), ContestList(initial);
    if current.cool < initial.cool { assert a[0] < b[0]; }
    else if current.beauty < initial.beauty { assert a[1] < b[1]; }
    else if current.cute < initial.cute { assert a[2] < b[2]; }
    else if current.smart < initial.smart { assert a[3] < b[3]; }
    else if current.tough < initial.tough { assert a[4] < b[4]; }
    else if current.sheen < initial.sheen { assert a[5] < b[5]; }
  }

  /**
   * Matching of a stored creature against a record. `baseIsMatch` is the
   * base trade's verdict; only the fixed-PID trade adds the contest floor:
   * stats can be raised after the trade but never lowered.
   */
  function IsMatch(e: Encounter, pkm: Candidate, baseIsMatch: bool): (r: bool)
    ensures r ==> baseIsMatch
    ensures !e.TradePID? ==> r == baseIsMatch
    ensures e.TradePID? && pkm.contest.None? ==> r == baseIsMatch
    ensures e.TradePID? && pkm.contest.Some? ==>
      (r <==> baseIsMatch && forall k :: 0 <= k < 6 ==> ContestList(pkm.contest.value)[k] >= ContestList(e.contest)[k])
  {
    match e
    case TradePID(_, _, contest) =>
      if !baseIsMatch then false
      else (
        match pkm.contest
        case None => true
        case Some(stats) =>
          ContestBelowIff(stats, contest);
          !IsContestBelow(stats, contest))
    case RanchGift(_, _) => baseIsMatch
    case RanchSpecial(_) => baseIsMatch
  }

  /** A stored creature whose stats sit exactly on the floor passes; one stat lower fails. */
  lemma ContestFloorExample(e: Encounter)
    requires e.TradePID? && e.contest == ContestStats(10, 10, 10, 10, 10, 10)
    ensures IsMatch(e, Candidate(0, Some(ContestStats(10, 10, 10, 10, 10, 10))), true)
    ensures !IsMatch(e, Candidate(0, Some(ContestStats(10, 10, 10, 10, 10, 9))), true)
  {
    assert ContestList(ContestStats(10, 10, 10, 10, 10, 9))[5] < ContestList(e.contest)[5];
  }

  /**
   * The nature/gender/shiny check. For a fixed PID it is PID equality with
   * the creature's encryption constant; the special gift keeps the base
   * check, whose verdict is `baseResult`.
   */
  function IsMatchNatureGenderShiny(e: Encounter, pkm: Candidate, baseResult: bool): (r: bool)
    ensures e.HasFixedPID() ==> (r <==> pkm.encryptionConstant == e.pid)
    ensures e.RanchSpecial? ==> r == baseResult
  {
    match e
    case TradePID(_, pid, _) => pid == pkm.encryptionConstant
    case RanchGift(_, pid) => pid == pkm.encryptionConstant
    case RanchSpecial(_) => baseResult
  }

  /**
   * The language a traded creature ends up with. Diamond/Pearl/Platinum
   * trades are German for everyone except German games, which get English
   * (Magikarp), or stamp English games' creatures Japanese (the others).
   * Every other version is HeartGold/SoulSilver: Pikachu is English except
   * for English games, which get French.
   */
  function TradeLanguage(version: int, species: int, language: int): (r: int)
    ensures version == DPPt && species == Magikarp ==>
      (r == English || r == German) && (r == English <==> language == German)
    ensures version == DPPt && species != Magikarp ==>
      r != English && (language == English ==> r == Japanese) && (language != English ==> r == language)
    ensures version != DPPt && species == Pikachu ==>
      (r == French || r == English) && (r == French <==> language == English)
    ensures version != DPPt && species != Pikachu ==> r == language
  {
    if version == DPPt then
      if species == Magikarp then (if language == German then English else German)
      else if language == English then Japanese
      else language
    else
      if species == Pikachu then (if language == English then French else English)
      else language
  }

  /** Where a language is rewritten one way, doing it again changes nothing. */
  lemma TradeLanguageSettles(version: int, species: int, language: int)
    requires !(version == DPPt && species == Magikarp) && !(version != DPPt && species == Pikachu)
    ensures TradeLanguage(version, species, TradeLanguage(version, species, language)) == TradeLanguage(version, species, language)
  {
  }

  /** Where two languages trade places, doing it twice restores either of them. */
  lemma TradeLanguageSwaps(version: int, species: int, language: int)
    requires (version == DPPt && species == Magikarp && (language == English || language == German))
          || (version != DPPt && species == Pikachu && (language == English || language == French))
    ensures TradeLanguage(version, species, TradeLanguage(version, species, language)) == language
  {
  }

  /** Nature of a generation 4 creature: its PID modulo 25. */
  function NatureOf(pid: uint32): (n: int)
    ensures 0 <= n < 25
    ensures (pid - n) % 25 == 0
  {
    pid % 25
  }

  /** The ability argument handed on: the ability value shifted right by one (arithmetic shift). */
  function AbilitySelector(ability: int): (s: int)
    ensures 2 * s <= ability < 2 * s + 2
  {
    ability / 2
  }

  /** Calls into the base trade code that this core makes, in the order made. */
  datatype BaseCall = BaseApplyDetails | BaseSetPINGA | RefreshAbility(selector: int) | SetIVs

  /**
   * The PK4 fields this core writes, as a value. The base trade code's
   * effect on them is not part of this model, so what a base call leaves
   * them as comes in as one of these.
   */
  datatype PK4Fields = PK4Fields(
    language: int, pid: uint32, nature: int, gender: int, fatefulEncounter: bool, contest: ContestStats)

  /** The generated creature: the fields the trade records write. */
  class PK4 {
    var Language: int
    var PID: uint32
    var Nature: int
    var Gender: int
    var FatefulEncounter: bool
    var Contest: ContestStats
    var Calls: seq<BaseCall>

    constructor (language: int)
      ensures Language == language && PID == 0 && Nature == 0 && Gender == 0
      ensures !FatefulEncounter && Contest == NoContest && Calls == []
    {
      Language, PID, Nature, Gender := language, 0, 0, 0;
      FatefulEncounter, Contest, Calls := false, NoContest, [];
    }

    function Fields(): PK4Fields
      reads this
    {
      PK4Fields(Language, PID, Nature, Gender, FatefulEncounter, Contest)
    }

    /** A base call's effect: the modelled fields become f, and the call is recorded. */
    method BaseEffect(call: BaseCall, f: PK4Fields)
      modifies this
      ensures Fields() == f && Calls == old(Calls) + [call]
    {
      Language, PID, Nature, Gender := f.language, f.pid, f.nature, f.gender;
      FatefulEncounter, Contest := f.fatefulEncounter, f.contest;
      Calls := Calls + [call];
    }
  }

  /**
   * Fills in the record-specific details after the base trade's details,
   * which leave the fields as afterBase: the fixed-PID trade rewrites the
   * language the base left and copies its contest stats, the special gift
   * sets the fateful-encounter flag, the ranch gift adds nothing.
   */
  method ApplyDetails(e: Encounter, pk: PK4, afterBase: PK4Fields)
    modifies pk
    ensures pk.Calls == old(pk.Calls) + [BaseApplyDetails]
    ensures pk.Language ==
      (if e.TradePID? then TradeLanguage(e.common.version, e.common.species, afterBase.language) else afterBase.language)
    ensures pk.Contest == (if e.TradePID? then e.contest else afterBase.contest)
    ensures pk.FatefulEncounter == (e.RanchSpecial? || afterBase.fatefulEncounter)
    ensures pk.PID == afterBase.pid && pk.Nature == afterBase.nature && pk.Gender == afterBase.gender
  {
    pk.BaseEffect(BaseApplyDetails, afterBase);
    match e
    case TradePID(c, _, contest) =>
      if c.version == DPPt {
        if c.species == Magikarp {
          pk.Language := if pk.Language == German then English else German;
        } else if pk.Language == English {
          pk.Language := Japanese;
        }
      } else {
        if c.species == Pikachu {
          pk.Language := if pk.Language == English then French else English;
        }
      }
      pk.Contest := contest;  // CopyContestStatsTo
    case RanchGift(_, _) =>
    case RanchSpecial(_) =>
      pk.FatefulEncounter := true;
  }

  /**
   * PID, nature, gender, ability and IVs. The fixed-PID kinds write their
   * PID and the nature it implies, then hand the ability and IVs to the
   * base; the special gift runs the base SetPINGA, which leaves the fields
   * as afterBase.
   */
  method SetPINGA(e: Encounter, pk: PK4, afterBase: PK4Fields)
    modifies pk
    ensures e.HasFixedPID() ==>
      pk.PID == e.pid && pk.Nature == NatureOf(e.pid) && pk.Gender == e.common.gender &&
      pk.Calls == old(pk.Calls) + [RefreshAbility(AbilitySelector(e.common.ability)), SetIVs] &&
      pk.Language == old(pk.Language) && pk.FatefulEncounter == old(pk.FatefulEncounter) &&
      pk.Contest == old(pk.Contest)
    ensures e.RanchSpecial? ==> pk.Fields() == afterBase && pk.Calls == old(pk.Calls) + [BaseSetPINGA]
  {
    match e
    case TradePID(c, pid, _) =>
      pk.PID := pid;
      pk.Nature := pid % 25;
      pk.Gender := c.gender;
      pk.Calls := pk.Calls + [RefreshAbility(c.ability / 2), SetIVs];
    case RanchGift(c, pid) =>
      pk.PID := pid;
      pk.Nature := pid % 25;
      pk.Gender := c.gender;
      pk.Calls := pk.Calls + [RefreshAbility(c.ability / 2), SetIVs];
    case RanchSpecial(_) =>
      pk.BaseEffect(BaseSetPINGA, afterBase);
  }
}
