/** Session segmentation of one client's timestamps (parse_deviation.py, lines 54-66).
    The script appends its one buffer object to the client's list at every break and then
    clears that same object, so every entry of the list is the same list. The method
    SegmentClient reproduces this with a heap-allocated Buffer; the function Sessions
    states the resulting value in closed form. */
module Segmentation {

  /** A gap of this many seconds or more between two requests is a session break. */
  const Threshold: int := 1800

  /** The gaps between neighbouring timestamps: [10, 16, 20, 25] gives [6, 4, 5]. */
  function Gaps(ts: seq<int>): (g: seq<int>)
    ensures |g| == if |ts| == 0 then 0 else |ts| - 1
    ensures forall i :: 0 <= i < |g| ==> g[i] == ts[i + 1] - ts[i]
  {
    if |ts| <= 1 then [] else [ts[1] - ts[0]] + Gaps(ts[1..])
  }

  /** Number of gaps that are breaks. */
  function Breaks(g: seq<int>): nat
  {
    if g == [] then 0
    else Breaks(g[..|g| - 1]) + (if g[|g| - 1] >= Threshold then 1 else 0)
  }

  /** The gaps below the threshold that follow the last break (all of them if there is none). */
  function TrailingRun(g: seq<int>): seq<int>
  {
    if g == [] then []
    else if g[|g| - 1] >= Threshold then []
    else TrailingRun(g[..|g| - 1]) + [g[|g| - 1]]
  }

  /** n copies of the same interval list. */
  function Repeat(s: seq<int>, n: nat): (r: seq<seq<int>>)
    ensures |r| == n
    ensures forall j :: 0 <= j < n ==> r[j] == s
  {
    seq(n, _ => s)
  }

  /** The value of a client's session list once the script has finished with it: one entry per
      break, plus one if the trailing run is non-empty, and every entry is the trailing run. */
  function Sessions(ts: seq<int>): (r: seq<seq<int>>)
    ensures |r| <= |Gaps(ts)|
    ensures forall j :: 0 <= j < |r| ==> |r[j]| <= |Gaps(ts)| && r[j] == Gaps(ts)[|Gaps(ts)| - |r[j]|..]
    ensures forall j, i :: 0 <= j < |r| && 0 <= i < |r[j]| ==> r[j][i] < Threshold
  {
    var g := Gaps(ts);
    var run := TrailingRun(g);
    TrailingRunIsLastBreakFreeSuffix(g);
    SessionCount(g);
    Repeat(run, Breaks(g) + (if |run| > 0 then 1 else 0))
  }

  /** The mutable list `session_req` of the script. */
  class Buffer {
    var items: seq<int>

    constructor ()
      ensures items == []
    {
      items := [];
    }

    method Append(x: int)
      modifies this
      ensures items == old(items) + [x]
    {
      items := items + [x];
    }

    method Clear()
      modifies this
      ensures items == []
    {
      items := [];
    }
  }

  /** What a list of buffer references holds right now, entry by entry. */
  function Contents(entries: seq<Buffer>): (r: seq<seq<int>>)
    reads entries
    ensures |r| == |entries|
    ensures forall j :: 0 <= j < |entries| ==> r[j] == entries[j].items
  {
    if entries == [] then [] else [entries[0].items] + Contents(entries[1..])
  }

  /** The segmentation loop for one client. Every entry it returns is one and the same buffer,
      and what the entries hold is exactly Sessions(ts). */
  method SegmentClient(ts: seq<int>) returns (entries: seq<Buffer>)
    ensures forall j :: 0 <= j < |entries| ==> entries[j] == entries[0]
    ensures Contents(entries) == Sessions(ts)
  {
    ghost var g := Gaps(ts);
    var sessionReq := new Buffer();
    entries := [];
    var i := 0;
    while i < |ts| - 1
      invariant 0 <= i <= |g|
      invariant forall j :: 0 <= j < |entries| ==> entries[j] == sessionReq
      invariant |entries| == Breaks(g[..i])
      invariant sessionReq.items == TrailingRun(g[..i])
    {
      var diff := ts[i + 1] - ts[i];
      PrefixStep(g, i);
      if diff < Threshold {
        sessionReq.Append(diff);
      } else {
        entries := entries + [sessionReq];
        sessionReq.Clear();
      }
      i := i + 1;
    }
    assert g[..i] == g;
    if |sessionReq.items| > 0 {
      entries := entries + [sessionReq];
    }
    AliasedContents(entries, sessionReq);
  }

  /** Extending the gaps seen by one more gap. */
  lemma PrefixStep(g: seq<int>, i: nat)
    requires i < |g|
    ensures Breaks(g[..i + 1]) == Breaks(g[..i]) + (if g[i] >= Threshold then 1 else 0)
    ensures TrailingRun(g[..i + 1]) == if g[i] >= Threshold then [] else TrailingRun(g[..i]) + [g[i]]
  {
    assert g[..i + 1][..i] == g[..i];
  }

  /** A list whose entries are all one buffer holds copies of that buffer's contents. */
  lemma AliasedContents(entries: seq<Buffer>, b: Buffer)
    requires forall j :: 0 <= j < |entries| ==> entries[j] == b
    ensures Contents(entries) == Repeat(b.items, |entries|)
  {
  }

  /** The trailing run is the longest suffix of the gaps that holds no break. */
  /** There are at most as many sessions as gaps: every session ends with a gap. */
  lemma {:induction false} SessionCount(g: seq<int>)
    ensures Breaks(g) + (if |TrailingRun(g)| > 0 then 1 else 0) <= |g|
  {
    if g != [] {
      SessionCount(g[..|g| - 1]);
    }
  }

  lemma {:induction false} TrailingRunIsLastBreakFreeSuffix(g: seq<int>)
    ensures |TrailingRun(g)| <= |g|
    ensures TrailingRun(g) == g[|g| - |TrailingRun(g)|..]
    ensures forall i :: |g| - |TrailingRun(g)| <= i < |g| ==> g[i] < Threshold
    ensures |TrailingRun(g)| < |g| ==> g[|g| - |TrailingRun(g)| - 1] >= Threshold
  {
    if g != [] && g[|g| - 1] < Threshold {
      var p := g[..|g| - 1];
      TrailingRunIsLastBreakFreeSuffix(p);
      assert g == p + [g[|g| - 1]];
    }
  }

  /** There is no break exactly when every gap is below the threshold. */
  lemma {:induction false} NoBreaksIffAllBelow(g: seq<int>)
    ensures Breaks(g) == 0 <==> forall i :: 0 <= i < |g| ==> g[i] < Threshold
  {
    if g != [] {
      var p := g[..|g| - 1];
      NoBreaksIffAllBelow(p);
      assert forall i :: 0 <= i < |p| ==> p[i] == g[i];
    }
  }

  /** Without a break, the trailing run is the whole gap list. */
  lemma {:induction false} TrailingRunWithoutBreaks(g: seq<int>)
    requires forall i :: 0 <= i < |g| ==> g[i] < Threshold
    ensures TrailingRun(g) == g
  {
    if g != [] {
      var p := g[..|g| - 1];
      TrailingRunWithoutBreaks(p);
      assert g == p + [g[|g| - 1]];
    }
  }

  /** A client whose gaps are all below the threshold has exactly one session holding
      all its gaps in order. */
  lemma OneSessionWithoutBreaks(ts: seq<int>)
    requires |ts| >= 2
    requires forall i :: 0 <= i < |Gaps(ts)| ==> Gaps(ts)[i] < Threshold
    ensures Sessions(ts) == [Gaps(ts)]
  {
    var g := Gaps(ts);
    NoBreaksIffAllBelow(g);
    TrailingRunWithoutBreaks(g);
    assert Sessions(ts) == Repeat(g, 1);
  }

  /** A client has no session entry at all exactly when it made at most one request. */
  lemma NoSessionsIffSingleRequest(ts: seq<int>)
    ensures Sessions(ts) == [] <==> |ts| <= 1
  {
    var g := Gaps(ts);
    if |ts| >= 2 && Breaks(g) == 0 {
      NoBreaksIffAllBelow(g);
      TrailingRunWithoutBreaks(g);
    }
  }

  /** Every entry of a client's session list is the same interval list. */
  lemma EntriesAllEqual(ts: seq<int>, j: nat, k: nat)
    requires j < |Sessions(ts)| && k < |Sessions(ts)|
    ensures Sessions(ts)[j] == Sessions(ts)[k] == TrailingRun(Gaps(ts))
  {
  }

  /** The worked example of the script's comment: [10, 16, 20, 25] gives one session [6, 4, 5]. */
  lemma CommentExample()
    ensures Sessions([10, 16, 20, 25]) == [[6, 4, 5]]
  {
    var ts := [10, 16, 20, 25];
    assert Gaps(ts) == [6, 4, 5] by {
      assert Gaps(ts[1..][1..][1..]) == [];
    }
    OneSessionWithoutBreaks(ts);
  }

  /** Two sessions separated by a break come out as two copies of the later one:
      [0, 10, 3000, 3005] gives [[5], [5]], not [[10], [5]]. */
  lemma AliasingExample()
    ensures Sessions([0, 10, 3000, 3005]) == [[5], [5]]
  {
    var ts := [0, 10, 3000, 3005];
    var g := Gaps(ts);
    assert g == [10, 2990, 5];
    assert g[..2] == [10, 2990];
    assert g[..2][..1] == [10];
    assert [10][..0] == [];
    assert TrailingRun(g) == [5];
    assert Breaks(g[..2]) == 1;
    assert Breaks(g) == 1;
  }

  /** A gap of exactly 1800 is a break: the one entry is the buffer appended at that
      break, which is empty. */
  lemma GapAtThresholdBreaks()
    ensures Sessions([0, 1800]) == [[]]
  {
    var g := [1800];
    assert Gaps([0, 1800]) == g;
    assert g[..0] == [];
    assert TrailingRun(g) == [] && Breaks(g) == 1;
  }

  /** A gap of 1799 stays inside the session. */
  lemma GapBelowThresholdContinues()
    ensures Sessions([0, 1799]) == [[1799]]
  {
    assert Gaps([0, 1799]) == [1799];
    OneSessionWithoutBreaks([0, 1799]);
  }
}
