/**
 * The local gates of the cat's chat (src/components/CatGame.jsx, sendMessage):
 * the blank-input check done with String.prototype.trim, and the rolling window
 * that lets at most three messages through in any 60 000 ms.
 */
module ChatWindow {
  import opened Wrappers

  const WindowMs := 60000
  const MaxPerWindow := 3

  // ---------------------------------------------------------------------------
  // trim
  // ---------------------------------------------------------------------------

  /** The characters JavaScript's trim removes: WhiteSpace and LineTerminator of ECMAScript. */
  predicate IsSpace(c: char) {
    || '\t' <= c <= '\r'                // tab, line feed, vertical tab, form feed, carriage return
    || c == ' ' || c == '\U{00A0}' || c == '\U{1680}'
    || '\U{2000}' <= c <= '\U{200A}'    // the typographic spaces
    || c == '\U{2028}' || c == '\U{2029}' // line and paragraph separators
    || c == '\U{202F}' || c == '\U{205F}' || c == '\U{3000}' || c == '\U{FEFF}'
  }

  predicate Blank(s: string) {
    forall i :: 0 <= i < |s| ==> IsSpace(s[i])
  }

  /** `s` without its leading white space. */
  function TrimStart(s: string): (r: string)
    ensures |r| <= |s| && r == s[|s| - |r|..]
    ensures forall i :: 0 <= i < |s| - |r| ==> IsSpace(s[i])
    ensures r == [] || !IsSpace(r[0])
    decreases |s|
  {
    if s != [] && IsSpace(s[0]) then TrimStart(s[1..]) else s
  }

  /** `s` without its trailing white space. */
  function TrimEnd(s: string): (r: string)
    ensures |r| <= |s| && r == s[..|r|]
    ensures forall i :: |r| <= i < |s| ==> IsSpace(s[i])
    ensures r == [] || !IsSpace(r[|r| - 1])
    decreases |s|
  {
    if s != [] && IsSpace(s[|s| - 1]) then TrimEnd(s[..|s| - 1]) else s
  }

  /** String.prototype.trim: `s` without its leading and trailing white space. */
  function Trim(s: string): (r: string)
    ensures |r| <= |s|
    ensures r == [] || (!IsSpace(r[0]) && !IsSpace(r[|r| - 1]))
  {
    TrimEnd(TrimStart(s))
  }

  /** `r` is the slice `s[k..k + |r|]`, and everything before and after that slice is white space. */
  predicate TrimmedSlice(s: string, r: string, k: int) {
    0 <= k && k + |r| <= |s| && r == s[k..k + |r|] && Blank(s[..k]) && Blank(s[k + |r|..])
  }

  /** trim removes only white space, and only from the two ends: what is left is one slice of `s`. */
  lemma TrimDropsOnlyWhiteSpace(s: string)
    ensures TrimmedSlice(s, Trim(s), |s| - |TrimStart(s)|)
  {
    var t := TrimStart(s);
    SliceOfSuffix(s, t, TrimEnd(t));
  }

  /** Cutting white space off the end of a suffix that follows white space leaves a trimmed slice. */
  lemma SliceOfSuffix(s: string, t: string, r: string)
    requires |t| <= |s| && t == s[|s| - |t|..] && |r| <= |t| && r == t[..|r|]
    requires forall i :: 0 <= i < |s| - |t| ==> IsSpace(s[i])
    requires forall i :: |r| <= i < |t| ==> IsSpace(t[i])
    ensures TrimmedSlice(s, r, |s| - |t|)
  {
    var k := |s| - |t|;
    var head, tail := s[..k], s[k + |r|..];
    assert forall i :: 0 <= i < |head| ==> head[i] == s[i];
    assert forall i :: 0 <= i < |tail| ==> tail[i] == t[|r| + i];
  }

  /** `!text.trim()` holds exactly for the strings made of white space only (the empty one included). */
  lemma TrimEmptyIffBlank(s: string)
    ensures Trim(s) == [] <==> Blank(s)
  {
    var t := TrimStart(s);
    if Trim(s) == [] {
      // TrimEnd left nothing of t, so t is white space only, and t does not start with white space
      assert Blank(t);
    } else {
      var r := Trim(s);
      assert r[0] == t[0] == s[|s| - |t|];
      assert !IsSpace(s[|s| - |t|]);
    }
  }

  // ---------------------------------------------------------------------------
  // The rolling window
  // ---------------------------------------------------------------------------

  /** messageTimestamps.filter(t => now - t < 60000): the timestamps still inside the window, in order. */
  function Recent(ts: seq<int>, now: int): (r: seq<int>)
    ensures |r| <= |ts|
    ensures forall i :: 0 <= i < |r| ==> now - r[i] < WindowMs
    decreases |ts|
  {
    if ts == [] then []
    else if now - ts[0] < WindowMs then [ts[0]] + Recent(ts[1..], now)
    else Recent(ts[1..], now)
  }

  /** The window keeps exactly the timestamps younger than 60 000 ms, each as often as it was there. */
  lemma {:induction false} RecentKeepsTheFresh(ts: seq<int>, now: int)
    ensures forall t :: t in multiset(Recent(ts, now)) ==> now - t < WindowMs
    ensures forall t :: now - t < WindowMs ==> multiset(Recent(ts, now))[t] == multiset(ts)[t]
    decreases |ts|
  {
    if ts != [] {
      RecentKeepsTheFresh(ts[1..], now);
      assert ts == [ts[0]] + ts[1..];
    }
  }

  predicate Nondecreasing(s: seq<int>) {
    forall i, j :: 0 <= i <= j < |s| ==> s[i] <= s[j]
  }

  /** On timestamps kept in order, the window drops a prefix: the `j` oldest, all stale. */
  lemma {:induction false} RecentOfSorted(ts: seq<int>, now: int) returns (j: nat)
    requires Nondecreasing(ts)
    ensures j <= |ts| && Recent(ts, now) == ts[j..]
    ensures forall i :: 0 <= i < j ==> now - ts[i] >= WindowMs
    decreases |ts|
  {
    if ts == [] {
      j := 0;
    } else if now - ts[0] < WindowMs {
      j := 0;
      AllRecent(ts, now);
    } else {
      var j' := RecentOfSorted(ts[1..], now);
      j := j' + 1;
      assert ts[1..][j'..] == ts[j..];
    }
  }

  /** When the oldest timestamp of an ordered list is in the window, they all are. */
  lemma {:induction false} AllRecent(ts: seq<int>, now: int)
    requires Nondecreasing(ts)
    requires ts != [] && now - ts[0] < WindowMs
    ensures Recent(ts, now) == ts
    decreases |ts|
  {
    if |ts| > 1 {
      AllRecent(ts[1..], now);
      assert [ts[0]] + ts[1..] == ts;
    }
  }

  /**
   * The window gate: reject when three or more timestamps are younger than 60 000 ms,
   * otherwise keep those and add `now`.
   */
  function Admit(ts: seq<int>, now: int): (r: Option<seq<int>>)
    ensures r.None? <==> |Recent(ts, now)| >= MaxPerWindow
    ensures r.Some? ==> 0 < |r.value| <= MaxPerWindow && r.value[|r.value| - 1] == now
    ensures r.Some? ==> forall i :: 0 <= i < |r.value| ==> now - r.value[i] < WindowMs
    ensures r.Some? ==> r.value[..|r.value| - 1] == Recent(ts, now)
  {
    var recent := Recent(ts, now);
    if |recent| >= MaxPerWindow then None
    else
      assert forall i :: 0 <= i < |recent| ==> (recent + [now])[i] == recent[i];
      assert (recent + [now])[..|recent|] == recent;
      Some(recent + [now])
  }

  /** The times admitted out of `requests`, handled in order starting from the window `ts`. */
  function Admitted(ts: seq<int>, requests: seq<int>): seq<int>
    decreases |requests|
  {
    if requests == [] then []
    else match Admit(ts, requests[0])
      case None => Admitted(ts, requests[1..])
      case Some(ts') => [requests[0]] + Admitted(ts', requests[1..])
  }

  /** Of any four admitted messages in a row, the last comes at least 60 000 ms after the first. */
  predicate Spread(admitted: seq<int>) {
    forall i :: 0 <= i && i + MaxPerWindow < |admitted| ==> admitted[i + MaxPerWindow] - admitted[i] >= WindowMs
  }

  /**
   * The invariant behind the rolling window. `prev` are the times admitted so far,
   * the window holds `prev[k..]`, `clock` is the latest time seen, and whatever left the
   * window is at least 60 000 ms older than `clock`.
   */
  lemma {:induction false} AdmittedSpread(prev: seq<int>, k: nat, clock: int, requests: seq<int>)
    requires k <= |prev| && Nondecreasing(prev) && Spread(prev)
    requires forall i :: 0 <= i < |prev| ==> prev[i] <= clock
    requires forall i :: 0 <= i < k ==> clock - prev[i] >= WindowMs
    requires Nondecreasing(requests) && (requests != [] ==> clock <= requests[0])
    ensures Spread(prev + Admitted(prev[k..], requests))
    decreases |requests|, 1
  {
    if requests == [] {
      assert prev + [] == prev;
    } else {
      var k' := WindowAfter(prev, k, clock, requests[0]);
      TailNondecreasing(requests);
      if |prev[k'..]| >= MaxPerWindow {
        assert Admitted(prev[k..], requests) == Admitted(prev[k..], requests[1..]);
        AdmittedSpread(prev, k, clock, requests[1..]);
      } else {
        AdmittedSpreadOnAccept(prev, k, k', requests);
      }
    }
  }

  /** The step of AdmittedSpread where the first request is let through. */
  lemma {:induction false} AdmittedSpreadOnAccept(prev: seq<int>, k: nat, k': nat, requests: seq<int>)
    requires requests != [] && k <= k' <= |prev| && Nondecreasing(prev) && Spread(prev)
    requires Recent(prev[k..], requests[0]) == prev[k'..] && |prev| - k' < MaxPerWindow
    requires forall i :: 0 <= i < |prev| ==> prev[i] <= requests[0]
    requires forall i :: 0 <= i < k' ==> requests[0] - prev[i] >= WindowMs
    requires Nondecreasing(requests[1..]) && (|requests| > 1 ==> requests[0] <= requests[1])
    ensures Spread(prev + Admitted(prev[k..], requests))
    decreases |requests|, 0
  {
    var now, rest := requests[0], requests[1..];
    var prev' := prev + [now];
    var ts' := prev'[k'..];
    assert ts' == prev[k'..] + [now];
    AdmittedStep(prev[k..], requests, ts');
    assert Spread(prev' + Admitted(ts', rest)) by {
      AdmitKeepsInvariant(prev, k', now);
      AdmittedSpread(prev', k', now, rest);
    }
    AppendAssoc(prev, now, Admitted(ts', rest));
  }

  /** Unfolds Admitted once on a request that is let through. */
  lemma AdmittedStep(ts: seq<int>, requests: seq<int>, ts': seq<int>)
    requires requests != [] && ts' == Recent(ts, requests[0]) + [requests[0]] && |ts'| <= MaxPerWindow
    ensures Admitted(ts, requests) == [requests[0]] + Admitted(ts', requests[1..])
  {
  }

  lemma AppendAssoc(a: seq<int>, x: int, b: seq<int>)
    ensures a + ([x] + b) == (a + [x]) + b
  {
  }

  lemma TailNondecreasing(s: seq<int>)
    requires s != [] && Nondecreasing(s)
    ensures Nondecreasing(s[1..]) && (|s| > 1 ==> s[0] <= s[1])
  {
    var t := s[1..];
    forall i, j | 0 <= i <= j < |t| ensures t[i] <= t[j] {
      assert t[i] == s[i + 1] && t[j] == s[j + 1];
    }
  }

  /** Checking the window at `now` keeps `prev[k'..]`, and everything before `k'` is stale at `now`. */
  lemma WindowAfter(prev: seq<int>, k: nat, clock: int, now: int) returns (k': nat)
    requires k <= |prev| && Nondecreasing(prev)
    requires forall i :: 0 <= i < k ==> clock - prev[i] >= WindowMs
    requires clock <= now
    ensures k <= k' <= |prev| && Recent(prev[k..], now) == prev[k'..]
    ensures forall i :: 0 <= i < k' ==> now - prev[i] >= WindowMs
  {
    var ts := prev[k..];
    assert Nondecreasing(ts) by {
      forall i, j | 0 <= i <= j < |ts| ensures ts[i] <= ts[j] {
        assert ts[i] == prev[k + i] && ts[j] == prev[k + j];
      }
    }
    var j := RecentOfSorted(ts, now);
    k' := k + j;
    assert ts[j..] == prev[k'..];
    forall i | k <= i < k' ensures now - prev[i] >= WindowMs {
      assert prev[i] == ts[i - k];
    }
  }

  /** Admitting `now` into a window of fewer than three keeps the invariant of AdmittedSpread. */
  lemma AdmitKeepsInvariant(prev: seq<int>, k': nat, now: int)
    requires k' <= |prev| && Nondecreasing(prev) && Spread(prev)
    requires forall i :: 0 <= i < |prev| ==> prev[i] <= now
    requires forall i :: 0 <= i < k' ==> now - prev[i] >= WindowMs
    requires |prev| - k' < MaxPerWindow
    ensures Nondecreasing(prev + [now]) && Spread(prev + [now])
    ensures forall i :: 0 <= i < |prev + [now]| ==> (prev + [now])[i] <= now
    ensures forall i :: 0 <= i < k' ==> now - (prev + [now])[i] >= WindowMs
  {
    var prev' := prev + [now];
    forall i | 0 <= i && i + MaxPerWindow < |prev'|
      ensures prev'[i + MaxPerWindow] - prev'[i] >= WindowMs
    {
      if i + MaxPerWindow == |prev| {
        assert i < k';
      }
    }
  }

  /**
   * Requests arriving in time order, starting from an empty window: never more than three
   * admitted messages within 60 000 ms.
   */
  lemma AtMostThreePerWindow(requests: seq<int>)
    requires Nondecreasing(requests)
    ensures Spread(Admitted([], requests))
  {
    if requests != [] {
      var none: seq<int> := [];
      AdmittedSpread(none, 0, requests[0], requests);
      assert none[0..] == none && none + Admitted(none, requests) == Admitted(none, requests);
    }
  }

  /** Messages at 0, 5 and 10 ms are all admitted: the third message within a minute passes. */
  lemma ThirdWithinAMinuteAdmitted()
    ensures Admit([], 0) == Some([0])
    ensures Admit([0], 5) == Some([0, 5])
    ensures Admit([0, 5], 10) == Some([0, 5, 10])
  {
    var none: seq<int> := [];
    assert Recent(none, 0) == none && none + [0] == [0];
    assert [0][1..] == none && Recent([0], 5) == [0] && [0] + [5] == [0, 5];
    assert [0, 5][1..] == [5] && Recent([5], 10) == [5] && Recent([0, 5], 10) == [0, 5];
    assert [0, 5] + [10] == [0, 5, 10];
  }

  /**
   * After those three, a fourth at 20 ms or at 59 999 ms is refused; one at 60 000 ms is
   * admitted, because the message at 0 ms has just left the window.
   */
  lemma FourthWithinAMinuteRefused()
    ensures Admit([0, 5, 10], 20) == None
    ensures Admit([0, 5, 10], 59999) == None
    ensures Admit([0, 5, 10], 60000) == Some([5, 10, 60000])
  {
    var ts: seq<int> := [0, 5, 10];
    assert ts[1..] == [5, 10] && ts[1..][1..] == [10] && ts[1..][1..][1..] == [];
    assert Recent(ts, 20) == ts;
    assert Recent(ts, 59999) == ts;
    assert Recent(ts, 60000) == [5, 10];
    assert [5, 10] + [60000] == [5, 10, 60000];
  }
}
