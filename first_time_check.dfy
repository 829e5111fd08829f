/** The status bit field returned by the first-run probe: one bit per
    configuration artifact that was found missing (enum ftc_status). */
module FirstTimeCheck {

  /** The probe's result, a C `int` whose used bits all lie below bit 9. */
  type Status = bv32

  /** One member per enumerator of ftc_status. */
  datatype Flag = NoCfg | NoQth | NoMod | NoSat | NoCat | NoCache | NoHwconf | NoTrsp

  const NO_CFG: Status := 1 << 1
  const NO_QTH: Status := 1 << 2
  const NO_MOD: Status := 1 << 3
  const NO_SAT: Status := 1 << 4
  const NO_CAT: Status := 1 << 5
  const NO_CACHE: Status := 1 << 6
  const NO_HWCONF: Status := 1 << 7
  const NO_TRSP: Status := 1 << 8

  /** The union of every defined flag. */
  const ALL_FLAGS: Status :=
    NO_CFG | NO_QTH | NO_MOD | NO_SAT | NO_CAT | NO_CACHE | NO_HWCONF | NO_TRSP

  predicate IsSingleBit(v: Status) {
    v != 0 && v & (v - 1) == 0
  }

  /** The numeric value of an enumerator: a single bit, never bit 0,
      and one of the defined flags. */
  function Value(f: Flag): (v: Status)
    ensures IsSingleBit(v)
    ensures v & 1 == 0
    ensures v & ALL_FLAGS == v
    ensures 2 <= v <= 256
  {
    match f
    case NoCfg => NO_CFG
    case NoQth => NO_QTH
    case NoMod => NO_MOD
    case NoSat => NO_SAT
    case NoCat => NO_CAT
    case NoCache => NO_CACHE
    case NoHwconf => NO_HWCONF
    case NoTrsp => NO_TRSP
  }

  /** Distinct enumerators share no bit, so they are pairwise disjoint. */
  lemma FlagsDisjoint(f: Flag, g: Flag)
    ensures Value(f) & Value(g) == 0 <==> f != g
  {
  }

  /** Bit 0 is not used by any flag, and the union of all flags is 0x1FE. */
  lemma AllFlagsValue()
    ensures ALL_FLAGS == 0x1FE
    ensures ALL_FLAGS & 1 == 0
    ensures ALL_FLAGS < 512
  {
  }

  /** A status below bit 9 with bit 0 clear carries defined flags only. */
  lemma WithinFlags(x: Status)
    requires x < 512 && x & 1 == 0
    ensures x & ALL_FLAGS == x
  {
  }

  /** Every defined bit belongs to some flag. */
  lemma AllFlagsCovered(b: Status)
    requires IsSingleBit(b) && b & ALL_FLAGS == b
    ensures exists f :: Value(f) == b
  {
    if b == NO_CFG { assert Value(NoCfg) == b; }
    else if b == NO_QTH { assert Value(NoQth) == b; }
    else if b == NO_MOD { assert Value(NoMod) == b; }
    else if b == NO_SAT { assert Value(NoSat) == b; }
    else if b == NO_CAT { assert Value(NoCat) == b; }
    else if b == NO_CACHE { assert Value(NoCache) == b; }
    else if b == NO_HWCONF { assert Value(NoHwconf) == b; }
    else { assert Value(NoTrsp) == b; }
  }

  /** The status obtained by OR-ing together the flags of `fs`. */
  function Compose(fs: seq<Flag>): Status
  {
    if fs == [] then 0 else Value(fs[0]) | Compose(fs[1..])
  }

  /** Testing each bit of an OR of flags recovers exactly the flags OR-ed in,
      and such a status carries no bit outside the defined flags. */
  lemma {:induction false} ComposeRecovers(fs: seq<Flag>, f: Flag)
    ensures Compose(fs) & Value(f) != 0 <==> f in fs
    ensures Compose(fs) & ALL_FLAGS == Compose(fs)
  {
    if fs != [] {
      ComposeRecovers(fs[1..], f);
      FlagsDisjoint(fs[0], f);
      assert f in fs <==> f == fs[0] || f in fs[1..];
    }
  }
}
