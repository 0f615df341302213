/** What every data-set builder does to the identifiers it is given. */
module EvalDatasets {

  /** Non-empty identifiers in order of first appearance. */
  function Dedupe(ids: seq<string>): seq<string>
  {
    if ids == [] then []
    else
      var before, last := Dedupe(ids[..|ids| - 1]), ids[|ids| - 1];
      if last == "" || last in before then before else before + [last]
  }

  lemma {:induction false} DedupeMembers(ids: seq<string>, id: string)
    ensures id in Dedupe(ids) <==> id in ids && id != ""
  {
    if ids != [] {
      DedupeMembers(ids[..|ids| - 1], id);
      assert ids == ids[..|ids| - 1] + [ids[|ids| - 1]];
    }
  }

  lemma {:induction false} DedupeIsDistinct(ids: seq<string>)
    ensures forall i, j :: 0 <= i < j < |Dedupe(ids)| ==> Dedupe(ids)[i] != Dedupe(ids)[j]
  {
    if ids != [] { DedupeIsDistinct(ids[..|ids| - 1]); }
  }
}
