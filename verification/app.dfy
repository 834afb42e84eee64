/**
 * The application state kept by the top-level component: the research
 * history (newest first, one entry per business and city, at most 20), the
 * profile on screen, the error banner and the active view, with the
 * operations that change them and the labels of the citation panel.
 */
module App {
  import opened Base
  import opened Text
  import opened Seqs
  import opened Schema
  import GeminiService

  const HistoryCap: nat := 20
  const RecentCount: nat := 8
  const SearchFallback: string := "Error en la investigación OSINT."

  /** The test the history filter applies for a new profile `p`. */
  function DifferentFrom(p: BusinessProfile): BusinessProfile -> bool {
    q => !SameTarget(q, p)
  }

  /** The entries about another business or city, in history order. */
  function Others(h: seq<BusinessProfile>, p: BusinessProfile): (r: seq<BusinessProfile>)
    ensures |r| <= |h|
    ensures forall k :: 0 <= k < |r| ==> !SameTarget(r[k], p)
  {
    Filter(h, DifferentFrom(p))
  }

  /** The history after a successful search for `p`: earlier entries for the
      same business and city are dropped, `p` goes first, and only the
      newest `HistoryCap` entries are kept. */
  function Upsert(h: seq<BusinessProfile>, p: BusinessProfile): (r: seq<BusinessProfile>)
    ensures 1 <= |r| <= HistoryCap && r[0] == p
    ensures forall k :: 1 <= k < |r| ==> !SameTarget(r[k], p)
    ensures |r| == Min(HistoryCap, |Others(h, p)| + 1)
    ensures r[1..] == Others(h, p)[..|r| - 1]
  {
    var kept := [p] + Others(h, p);
    assert kept[1..] == Others(h, p);
    kept[..Min(HistoryCap, |kept|)]
  }

  /** The surviving older entries keep their relative order. */
  lemma UpsertKeepsOrder(h: seq<BusinessProfile>, p: BusinessProfile)
    ensures IsSubsequence(Upsert(h, p)[1..], h)
  {
    var r := Upsert(h, p);
    FilterSubsequence(h, DifferentFrom(p));
    PrefixOfSubsequence(Others(h, p), h, |r| - 1);
  }

  /** While the cap is not reached, every entry about another target
      survives. */
  lemma UpsertKeepsOthers(h: seq<BusinessProfile>, p: BusinessProfile, q: BusinessProfile)
    requires |Others(h, p)| < HistoryCap
    requires q in h && !SameTarget(q, p)
    ensures q in Upsert(h, p)
  {
    FilterMembers(h, DifferentFrom(p), q);
    var r := Upsert(h, p);
    var k :| 0 <= k < |Others(h, p)| && Others(h, p)[k] == q;
    assert r[k + 1] == q;
  }

  /** Repeating a search changes nothing more. */
  lemma {:induction false} UpsertIdempotent(h: seq<BusinessProfile>, p: BusinessProfile)
    ensures Upsert(Upsert(h, p), p) == Upsert(h, p)
  {
    var r := Upsert(h, p);
    var tail := r[1..];
    FilterKeepsAll(tail, DifferentFrom(p));
    assert r == [p] + tail;
    assert Others(r, p) == Others(tail, p);
    assert [p] + Others(r, p) == r;
  }

  /** No two entries are about the same business and city. */
  predicate UniqueTargets(h: seq<BusinessProfile>) {
    forall i, j :: 0 <= i < j < |h| ==> !SameTarget(h[i], h[j])
  }

  /** Dropping entries keeps the targets unique. */
  lemma {:induction false} FilterUnique(h: seq<BusinessProfile>, f: BusinessProfile -> bool)
    requires UniqueTargets(h)
    ensures UniqueTargets(Filter(h, f))
    decreases |h|
  {
    if |h| > 0 {
      var rest := Filter(h[1..], f);
      FilterUnique(h[1..], f);
      if f(h[0]) {
        forall j | 0 <= j < |rest|
          ensures !SameTarget(h[0], rest[j])
        {
          FilterMembers(h[1..], f, rest[j]);
          var k :| 0 <= k < |h[1..]| && h[1..][k] == rest[j];
          assert h[k + 1] == rest[j];
        }
        var r := [h[0]] + rest;
        forall i, j | 0 <= i < j < |r|
          ensures !SameTarget(r[i], r[j])
        {
          if i > 0 {
            assert r[i] == rest[i - 1] && r[j] == rest[j - 1];
          }
        }
      }
    }
  }

  /** A search keeps the targets of the history unique. */
  lemma UpsertUnique(h: seq<BusinessProfile>, p: BusinessProfile)
    requires UniqueTargets(h)
    ensures UniqueTargets(Upsert(h, p))
  {
    var r := Upsert(h, p);
    FilterUnique(h, DifferentFrom(p));
    var o := Others(h, p);
    forall i, j | 0 <= i < j < |r|
      ensures !SameTarget(r[i], r[j])
    {
      if i > 0 {
        assert r[i] == o[i - 1] && r[j] == o[j - 1];
      }
    }
  }

  /** `filter((_, idx) => idx !== i)`: the entry at index `i` removed, or
      the history unchanged when there is no such index. */
  function Delete(h: seq<BusinessProfile>, i: int): (r: seq<BusinessProfile>)
    ensures 0 <= i < |h| ==> |r| == |h| - 1
    ensures 0 <= i < |h| ==> forall k :: 0 <= k < i ==> r[k] == h[k]
    ensures 0 <= i < |h| ==> forall k :: i <= k < |r| ==> r[k] == h[k + 1]
    ensures !(0 <= i < |h|) ==> r == h
  {
    if 0 <= i < |h| then h[..i] + h[i + 1..] else h
  }

  /** Deleting removes exactly one occurrence of the chosen entry. */
  lemma DeleteRemovesOne(h: seq<BusinessProfile>, i: int)
    requires 0 <= i < |h|
    ensures multiset(Delete(h, i)) + multiset{h[i]} == multiset(h)
  {
    assert h == h[..i] + [h[i]] + h[i + 1..];
  }

  /** Deleting keeps the targets unique. */
  lemma DeleteUnique(h: seq<BusinessProfile>, i: int)
    requires UniqueTargets(h)
    ensures UniqueTargets(Delete(h, i))
  {
    var r := Delete(h, i);
    if 0 <= i < |h| {
      forall a, b | 0 <= a < b < |r|
        ensures !SameTarget(r[a], r[b])
      {
        var a' := if a < i then a else a + 1;
        var b' := if b < i then b else b + 1;
        assert r[a] == h[a'] && r[b] == h[b'];
      }
    }
  }

  /** `history.slice(0, 8)`: the newest entries listed in the sidebar. */
  function Recent(h: seq<BusinessProfile>): (r: seq<BusinessProfile>)
    ensures r <= h
    ensures |r| == Min(RecentCount, |h|)
  {
    h[..Min(RecentCount, |h|)]
  }

  /** The screens the application switches between. */
  datatype View = FormView | ResultsView | HistoryView

  datatype AppState = AppState(
    history: seq<BusinessProfile>,
    current: Option<BusinessProfile>,
    error: Option<string>,
    view: View)

  /** The invariant the history keeps: bounded and one entry per target. */
  predicate Valid(s: AppState) {
    |s.history| <= HistoryCap && UniqueTargets(s.history)
  }

  /** The state after a search ends with the service's result: on success
      the profile is shown and recorded; on failure only the error banner
      (the exception's message, or a fixed text when that is empty) and the
      form view change. */
  function HandleSearch(s: AppState, result: Result<BusinessProfile, string>): (r: AppState)
    ensures result.Success? ==>
      r.history == Upsert(s.history, result.value) && r.current == Some(result.value)
      && r.error.None? && r.view == ResultsView
    ensures result.Failure? ==>
      r.history == s.history && r.current == s.current && r.view == FormView
      && r.error == Some(if result.error != "" then result.error else SearchFallback)
  {
    match result
    case Success(p) => AppState(Upsert(s.history, p), Some(p), None, ResultsView)
    case Failure(m) => AppState(s.history, s.current, Some(if m != "" then m else SearchFallback), FormView)
  }

  /** Searches keep the history invariant, and a failure shows a non-empty
      message. */
  lemma SearchKeepsValid(s: AppState, result: Result<BusinessProfile, string>)
    requires Valid(s)
    ensures Valid(HandleSearch(s, result))
    ensures HandleSearch(s, result).error.Some? ==> HandleSearch(s, result).error.value != ""
  {
    if result.Success? {
      UpsertUnique(s.history, result.value);
    }
  }

  /** Every failure of the research service reaches the banner as the
      service's fixed message. */
  lemma ServiceFailureShown(s: AppState, failed: Result<BusinessProfile, string>)
    requires failed.Failure? && failed.error == GeminiService.ResearchFailed
    ensures HandleSearch(s, failed).error == Some(GeminiService.ResearchFailed)
    ensures HandleSearch(s, failed).history == s.history
  {
  }

  /** The state after the delete button of entry `i` in the history view. */
  function HandleDelete(s: AppState, i: int): (r: AppState)
    ensures r.history == Delete(s.history, i)
    ensures r.current == s.current && r.error == s.error && r.view == s.view
  {
    s.(history := Delete(s.history, i))
  }

  /** Deleting keeps the history invariant. */
  lemma DeleteKeepsValid(s: AppState, i: int)
    requires Valid(s)
    ensures Valid(HandleDelete(s, i))
  {
    DeleteUnique(s.history, i);
  }

  /** The tag of the `i`-th citation (counting from 0): `Ref_` and the
      number `i + 1` in decimal, padded with zeros to two digits. */
  function SourceLabel(i: nat): string {
    "Ref_" + PadStart(Decimal(i + 1), 2, '0')
  }

  /** The tag reads back as its number: after `Ref_` come at least two
      decimal digits denoting `i + 1`, with a leading zero exactly for the
      first nine. */
  lemma SourceLabelValue(i: nat)
    ensures var tag := SourceLabel(i);
      && |tag| >= 6 && tag[..4] == "Ref_"
      && AllDigits(tag[4..]) && DigitsValue(tag[4..]) == i + 1
      && (tag[4] == '0' <==> i < 9)
  {
    var d := Decimal(i + 1);
    var z := Max(2, |d|) - |d|;
    var padded := PadStart(d, 2, '0');
    assert padded == Repeat('0', z) + d;
    LeadingZeros(z, d);
    var tag := SourceLabel(i);
    assert tag[4..] == padded;
  }
}
