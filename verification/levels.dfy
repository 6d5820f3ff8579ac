/** The fixed table of importance levels and the loop that checks a level
    against it. */
module Levels {
  import opened Wrappers

  /** The closed set of levels the client accepts. */
  datatype Level = Low | Normal | Critical

  /** The table `__levels`, in its order. */
  const Table: seq<string> := ["low", "normal", "critical"]

  /** The spelling of a level, as it appears in the table and on the wire. */
  function Name(l: Level): string
  {
    match l
    case Low => "low"
    case Normal => "normal"
    case Critical => "critical"
  }

  /** Reads a level by exact, case-sensitive comparison with each spelling. */
  function Parse(s: string): (r: Option<Level>)
    ensures r.Some? <==> s in Table
    ensures r.Some? ==> Name(r.value) == s
  {
    if s == "low" then Some(Low)
    else if s == "normal" then Some(Normal)
    else if s == "critical" then Some(Critical)
    else None
  }

  /** Every level is spelled by exactly one table entry, and every entry spells
      exactly one level. */
  lemma TableSpellsLevels()
    ensures forall l :: Name(l) in Table
    ensures forall l :: Parse(Name(l)) == Some(l)
    ensures forall i, j :: 0 <= i < j < |Table| ==> Table[i] != Table[j]
  {
    forall l ensures Parse(Name(l)) == Some(l) {
      match l
      case Low =>
      case Normal =>
      case Critical =>
    }
  }

  /** Accepted spellings are exactly the three lower-case words; changing case or
      adding blanks is enough to be rejected. */
  lemma ParseIsExact(s: string)
    ensures Parse(s).Some? <==> s == "low" || s == "normal" || s == "critical"
    ensures Parse("Low").None? && Parse("NORMAL").None? && Parse("critical ").None?
  {
  }

  /** The loop of `notifiy`: walk the whole table (it never stops early) and keep
      the entry that compares equal to `s`. */
  method FindLevel(s: string) returns (found: Option<string>)
    ensures found.Some? <==> s in Table
    ensures found.Some? ==> found.value == s && Parse(s).Some?
    ensures found.None? <==> Parse(s).None?
  {
    found := None;
    var i := 0;
    while i < |Table|
      invariant 0 <= i <= |Table|
      invariant found.Some? <==> s in Table[..i]
      invariant found.Some? ==> found.value == s
    {
      if Table[i] == s {
        found := Some(Table[i]);
      }
      i := i + 1;
    }
    assert Table[..i] == Table;
  }
}
