/**
 * Operations on sequences of student / class records that both the sync
 * store and the integration wrappers use: locating a record by id
 * (`findIndex`) and overriding the fields of the first record that matches.
 */
module Records {
  import opened JsValues

  /** `r.id <eq> id` */
  predicate IdMatches(r: Record, id: Value, eq: Equality) {
    Equal(eq, Get(r, "id"), id)
  }

  predicate NoMatch(rs: seq<Record>, id: Value, eq: Equality) {
    forall j :: 0 <= j < |rs| ==> !IdMatches(rs[j], id, eq)
  }

  /** `i` is the index `findIndex` reports: the first record whose id matches. */
  predicate IsFirstMatch(rs: seq<Record>, id: Value, eq: Equality, i: nat) {
    i < |rs| && IdMatches(rs[i], id, eq) && NoMatch(rs[..i], id, eq)
  }

  /** `rs.findIndex(r => r.id <eq> id)`, with None for -1. */
  function FindIndex(rs: seq<Record>, id: Value, eq: Equality): (r: Option<nat>)
    ensures r.Some? ==> IsFirstMatch(rs, id, eq, r.value)
    ensures r.None? <==> NoMatch(rs, id, eq)
  {
    if |rs| == 0 then None
    else if IdMatches(rs[0], id, eq) then Some(0)
    else match FindIndex(rs[1..], id, eq)
      case None => None
      case Some(i) =>
        assert rs[1..][..i] == rs[1..i + 1];
        Some(i + 1)
  }

  /**
   * `rs[i] = {...rs[i], ...updates}` at the first match, on a copy;
   * None when no record matches.
   */
  function UpdateFirst(rs: seq<Record>, id: Value, updates: Record, eq: Equality): (r: Option<seq<Record>>)
    ensures r.None? <==> NoMatch(rs, id, eq)
    ensures r.Some? ==> |r.value| == |rs| && exists i: nat :: (
      && IsFirstMatch(rs, id, eq, i)
      && r.value[i] == Spread(rs[i], updates)
      && forall j :: 0 <= j < |rs| && j != i ==> r.value[j] == rs[j])
  {
    match FindIndex(rs, id, eq)
    case None => None
    case Some(i) => Some(rs[i := Spread(rs[i], updates)])
  }

  /**
   * Appending a record whose id matches, to records none of which does,
   * then updating by that id, changes only the appended record
   * (addStudent followed by updateStudent on the same id).
   */
  lemma {:induction false} UpdateAfterAppend(rs: seq<Record>, x: Record, id: Value, updates: Record, eq: Equality)
    requires NoMatch(rs, id, eq) && IdMatches(x, id, eq)
    ensures UpdateFirst(rs + [x], id, updates, eq) == Some(rs + [Spread(x, updates)])
  {
    FindAfterPrefix(rs, x, id, eq);
    assert (rs + [x])[|rs| := Spread(x, updates)] == rs + [Spread(x, updates)];
  }

  lemma {:induction false} FindAfterPrefix(rs: seq<Record>, x: Record, id: Value, eq: Equality)
    requires NoMatch(rs, id, eq) && IdMatches(x, id, eq)
    ensures FindIndex(rs + [x], id, eq) == Some(|rs|)
  {
    if rs != [] {
      assert !IdMatches(rs[0], id, eq);
      assert (rs + [x])[1..] == rs[1..] + [x];
      FindAfterPrefix(rs[1..], x, id, eq);
    }
  }
}
