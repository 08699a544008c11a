/** `buildOptions(fallback, fetched)`, the dropdown-list merge that the task
    form, the task list and the analytics page each define identically: the
    built-in defaults followed by the values fetched from the server, without
    repeats and without falsy entries, or the defaults unchanged when that
    merge comes out empty. */
module Options {
  import opened Js
  import opened Seqs

  /** The values the merge draws from: `[...fallback, ...(fetched ?? [])]`,
      where a missing `fetched` (null, or undefined and so defaulted to `[]`)
      contributes nothing. */
  function Candidates(fallback: seq<JsValue>, fetched: Option<seq<JsValue>>): seq<JsValue> {
    fallback + fetched.GetOr([])
  }

  /** `[...new Set(candidates)].filter(Boolean)`. */
  function Merged(fallback: seq<JsValue>, fetched: Option<seq<JsValue>>): seq<JsValue> {
    Filter(Unique(Candidates(fallback, fetched)), Truthy)
  }

  function BuildOptions(fallback: seq<JsValue>, fetched: Option<seq<JsValue>>): (r: seq<JsValue>)
    // Some candidate is truthy: the result is every truthy candidate once, in
    // the order the candidates first mention them.
    ensures var all := Candidates(fallback, fetched);
      (exists x :: x in all && Truthy(x)) ==>
        && Distinct(r)
        && (forall x :: x in r <==> x in all && Truthy(x))
        && InFirstOccurrenceOrder(r, all)
    // No candidate is truthy: the defaults come back verbatim.
    ensures var all := Candidates(fallback, fetched);
      (forall x :: x in all ==> !Truthy(x)) ==> r == fallback
  {
    var all := Candidates(fallback, fetched);
    var merged := Merged(fallback, fetched);
    FilterKeepsOrder(Unique(all), all, Truthy);
    OrderedIsDistinct(merged, all);
    if |merged| > 0 then merged else fallback
  }

  /** In a merged list every default precedes every value that only the
      server supplied. */
  lemma FallbackFirst(fallback: seq<JsValue>, fetched: Option<seq<JsValue>>)
    ensures var r := BuildOptions(fallback, fetched);
      forall i, j :: 0 <= i < j < |r| && r[j] in fallback ==> r[i] in fallback
  {
    var all := Candidates(fallback, fetched);
    var r := BuildOptions(fallback, fetched);
    if exists x :: x in all && Truthy(x) {
      assert all[..|fallback|] == fallback;
      forall i, j | 0 <= i < j < |r| && r[j] in fallback
        ensures r[i] in fallback
      {
        PrefixComesFirst(r, all, |fallback|, i, j);
      }
    }
  }

  /** Whatever the server sends, every truthy default is offered. */
  lemma DefaultsAlwaysOffered(fallback: seq<JsValue>, fetched: Option<seq<JsValue>>, x: JsValue)
    requires x in fallback && Truthy(x)
    ensures x in BuildOptions(fallback, fetched)
  {
    var all := Candidates(fallback, fetched);
    assert x in all;
  }

  /** Merging an already built list again, with nothing fetched, changes
      nothing: the result is a fixed point of the merge. */
  lemma BuildOptionsIdempotent(fallback: seq<JsValue>, fetched: Option<seq<JsValue>>)
    ensures var r := BuildOptions(fallback, fetched); BuildOptions(r, None) == r
  {
    var all := Candidates(fallback, fetched);
    var r := BuildOptions(fallback, fetched);
    if exists x :: x in all && Truthy(x) {
      var x :| x in all && Truthy(x);
      assert x in r;
      forall i | 0 <= i < |r| ensures Truthy(r[i]) {
        assert r[i] in r;
      }
      RebuildTruthy(r);
    } else {
      RebuildFalsy(r);
    }
  }

  /** A non-empty list of distinct truthy values merges to itself. */
  lemma RebuildTruthy(r: seq<JsValue>)
    requires Distinct(r) && |r| > 0 && forall i :: 0 <= i < |r| ==> Truthy(r[i])
    ensures BuildOptions(r, None) == r
  {
    assert Candidates(r, None) == r;
    UniqueOfDistinct(r);
    FilterKeepsAll(r, Truthy);
  }

  /** A list of falsy values is its own fallback. */
  lemma RebuildFalsy(r: seq<JsValue>)
    requires forall i :: 0 <= i < |r| ==> !Truthy(r[i])
    ensures BuildOptions(r, None) == r
  {
    assert Candidates(r, None) == r;
  }
}
