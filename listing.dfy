/**
  Choice of the journal to follow (monitor.py, `start` and `worker`): of the
  names in the journal directory, those that start with `Journal.` and end with
  `.log` are sorted, and the last one is taken; none when there is none.
  The directory listing is an input; joining it to the directory path is not
  part of this model.
 */
module Listing {
  import opened Wrappers
  import opened Text

  const JOURNAL_PREFIX: string := "Journal."
  const JOURNAL_SUFFIX: string := ".log"

  /** `x.startswith('Journal.') and x.endswith('.log')`; the two may overlap. */
  predicate IsJournalName(n: string) {
    && |n| >= |JOURNAL_PREFIX| && n[..|JOURNAL_PREFIX|] == JOURNAL_PREFIX
    && |n| >= |JOURNAL_SUFFIX| && n[|n| - |JOURNAL_SUFFIX|..] == JOURNAL_SUFFIX
  }

  /**
    `sorted(journal names)[-1]`, or None for an empty list: the journal name
    that no other journal name of the listing follows in string order.
   */
  function LatestJournal(names: seq<string>): (r: Option<string>)
    ensures r.None? <==> forall i :: 0 <= i < |names| ==> !IsJournalName(names[i])
    ensures r.Some? ==> r.value in names && IsJournalName(r.value)
    ensures r.Some? ==>
              forall i :: 0 <= i < |names| && IsJournalName(names[i]) ==> LexLe(names[i], r.value)
  {
    if names == [] then None
    else
      var init, last := names[..|names| - 1], names[|names| - 1];
      var best := LatestJournal(init);
      assert forall i :: 0 <= i < |init| ==> names[i] == init[i];
      if !IsJournalName(last) then best
      else if best.None? then
        assert LexLe(last, last) by { LexLeTotal(last, last); }
        Some(last)
      else if LexLe(best.value, last) then
        assert forall i :: 0 <= i < |init| && IsJournalName(init[i]) ==> LexLe(init[i], last) by {
          forall i | 0 <= i < |init| && IsJournalName(init[i]) {
            LexLeTrans(init[i], best.value, last);
          }
        }
        assert LexLe(last, last) by { LexLeTotal(last, last); }
        Some(last)
      else
        assert LexLe(last, best.value) by { LexLeTotal(last, best.value); }
        best
  }

  /** Only journal names are candidates: other directory entries never matter. */
  lemma {:induction false} LatestIgnoresOthers(names: seq<string>, other: string)
    requires !IsJournalName(other)
    ensures LatestJournal(names + [other]) == LatestJournal(names)
  {
    assert (names + [other])[..|names|] == names;
  }

  /** A new journal that no listed journal sorts after becomes the latest. */
  lemma NewerJournalWins(names: seq<string>, n: string)
    requires IsJournalName(n)
    requires forall i :: 0 <= i < |names| && IsJournalName(names[i]) ==> LexLe(names[i], n)
    ensures LatestJournal(names + [n]) == Some(n)
  {
    var r := LatestJournal(names + [n]);
    assert (names + [n])[|names|] == n;
    LexLeTotal(n, n);
    assert LexLe(r.value, n);
    LexLeAntisymmetric(n, r.value);
  }
}
