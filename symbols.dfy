/**
  Normalisation of commodity symbols (`tagsymbol` in monitor.py): a localisation
  template `$Xyz_name;` becomes `xyz`, anything else is only lower-cased.
  The template is recognised by the regular expression `\$(.+)_name;`, matched
  case-insensitively at the start of the tag; `.` matches any character but a
  newline and `+` is greedy, so the group ends at the LAST `_name;` it can reach.
 */
module Symbols {
  import opened Wrappers
  import opened Text

  const NAME_SUFFIX: string := "_name;"

  /**
    The regular expression matches `tag` with its group `tag[1..j]`:
    a leading `$`, a non-empty group without newlines, then `_name;` in any case.
   */
  predicate GroupEndsAt(tag: string, j: int) {
    && |tag| > 0 && tag[0] == '$'
    && 2 <= j && j + 6 <= |tag|
    && '\n' !in tag[1..j]
    && Lower(tag[j..j + 6]) == NAME_SUFFIX
  }

  /** The greedy choice: the largest group end not beyond `j`, if any. */
  function LastGroupEnd(tag: string, j: int): (r: Option<nat>)
    ensures r.Some? ==> GroupEndsAt(tag, r.value) && r.value <= j
    ensures r.Some? ==> forall k :: r.value < k <= j ==> !GroupEndsAt(tag, k)
    ensures r.None? ==> forall k :: k <= j ==> !GroupEndsAt(tag, k)
    decreases j
  {
    if j < 2 then None
    else if GroupEndsAt(tag, j) then Some(j)
    else LastGroupEnd(tag, j - 1)
  }

  /** `tagsymbol(tag)` */
  function TagSymbol(tag: string): (r: string)
    ensures IsLower(r)
    ensures (forall j :: !GroupEndsAt(tag, j)) ==> r == Lower(tag)
    ensures (exists j :: GroupEndsAt(tag, j)) ==>
              exists j :: && GroupEndsAt(tag, j)
                          && (forall k :: GroupEndsAt(tag, k) ==> k <= j)
                          && r == Lower(tag[1..j])
  {
    match LastGroupEnd(tag, |tag| - 6)
    case Some(j) => LowerIsLower(tag[1..j]); Lower(tag[1..j])
    case None => LowerIsLower(tag); Lower(tag)
  }

  /** A template `$` + s + `_name;` (suffix in any case) yields `s` lower-cased. */
  lemma TemplateSymbol(s: string, suffix: string)
    requires |s| > 0 && '\n' !in s
    requires Lower(suffix) == NAME_SUFFIX
    ensures TagSymbol("$" + s + suffix) == Lower(s)
  {
    var tag := "$" + s + suffix;
    var j := |s| + 1;
    assert tag[1..j] == s;
    assert tag[j..j + 6] == suffix;
    assert GroupEndsAt(tag, j);
    var r := TagSymbol(tag);
    var j' :| GroupEndsAt(tag, j') && (forall k :: GroupEndsAt(tag, k) ==> k <= j') && r == Lower(tag[1..j']);
    assert j' == j;
  }

  /** A tag not starting with `$` is only lower-cased. */
  lemma PlainSymbol(tag: string)
    requires |tag| == 0 || tag[0] != '$'
    ensures TagSymbol(tag) == Lower(tag)
  {
  }

  /** Normalising an already normalised plain symbol changes nothing. */
  lemma PlainSymbolStable(tag: string)
    requires |tag| == 0 || tag[0] != '$'
    ensures TagSymbol(TagSymbol(tag)) == TagSymbol(tag)
  {
    PlainSymbol(tag);
    LowerIsLower(tag);
    LowerIdempotent(tag);
    assert |Lower(tag)| == 0 || Lower(tag)[0] == LowerChar(tag[0]);
    PlainSymbol(Lower(tag));
  }
}
