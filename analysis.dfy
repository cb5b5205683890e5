/** The whole computation of `parse_deviation` (parse_deviation.py, lines 10-102) without its
    file input and output: read and group the lines, split each client's timestamps into
    sessions, then compute the mean and the deviation of every session. The three results
    are the dictionaries the script writes to its three JSON files. */
module Analysis {
  import opened Wrappers
  import opened LogReader
  import opened Segmentation
  import opened Statistics

  /** An insertion-ordered dictionary keyed by client, as a Python dict and its JSON dump. */
  datatype Dict<V> = Dict(keys: seq<string>, entries: map<string, V>)

  /** The three dictionaries: `clients_diff`, `clients_mean` and `clients_deviation`. */
  datatype Report = Report(
    diff: Dict<seq<seq<int>>>,
    mean: Dict<seq<Option<real>>>,
    deviation: Dict<seq<Deviation>>)

  /** The report for a grouped log. */
  function Analyse(log: ClientLog): (r: Report)
    ensures r.diff.keys == r.mean.keys == r.deviation.keys == log.order
    ensures r.diff.entries.Keys == r.mean.entries.Keys == r.deviation.entries.Keys == log.reqs.Keys
    ensures forall client :: client in log.reqs ==>
              |r.mean.entries[client]| == |r.deviation.entries[client]| == |r.diff.entries[client]|
  {
    var diff := DiffMap(log.reqs);
    Report(Dict(log.order, diff), Dict(log.order, MeanMap(diff)), Dict(log.order, DeviationMap(diff)))
  }

  function DiffMap(reqs: map<string, seq<int>>): map<string, seq<seq<int>>>
  {
    map client | client in reqs :: Sessions(reqs[client])
  }

  function MeanMap(diff: map<string, seq<seq<int>>>): map<string, seq<Option<real>>>
  {
    map client | client in diff :: MeansOf(diff[client])
  }

  function DeviationMap(diff: map<string, seq<seq<int>>>): map<string, seq<Deviation>>
  {
    map client | client in diff :: DeviationsOf(diff[client])
  }

  /** The outcome of a run: the first malformed line's error, or the report. */
  function ParseDeviationSpec(lines: seq<string>, limit: int, stamp: string -> Option<int>): Result<Report, Error>
  {
    match ReadSpec(lines, limit, stamp)
    case Err(e) => Err(e)
    case Ok(log) => Ok(Analyse(log))
  }

  lemma ReadSpecWellFormed(lines: seq<string>, limit: int, stamp: string -> Option<int>)
    requires ReadSpec(lines, limit, stamp).Ok?
    ensures WellFormed(ReadSpec(lines, limit, stamp).value)
  {
    GroupKeys(ParseAll(lines[..Taken(limit, |lines|)], stamp).value);
  }

  /** The keys of a dictionary are listed once each, and exactly its keys are listed. */
  ghost predicate Consistent<V>(d: Dict<V>)
  {
    (forall i, j :: 0 <= i < j < |d.keys| ==> d.keys[i] != d.keys[j]) &&
    (forall client :: client in d.entries <==> client in d.keys)
  }

  /** The segmentation loop over all clients (lines 54-66). */
  method SegmentAll(log: ClientLog) returns (clientsDiff: Dict<seq<seq<int>>>)
    requires WellFormed(log)
    ensures clientsDiff == Analyse(log).diff
    ensures Consistent(clientsDiff)
  {
    clientsDiff := Dict([], map[]);
    for n := 0 to |log.order|
      invariant clientsDiff.keys == log.order[..n]
      invariant forall client :: client in clientsDiff.entries <==> client in log.order[..n]
      invariant forall client :: client in clientsDiff.entries ==> clientsDiff.entries[client] == Sessions(log.reqs[client])
    {
      var key := log.order[n];
      var entries := SegmentClient(log.reqs[key]);
      var sessions := Contents(entries);
      assert log.order[..n + 1] == log.order[..n] + [key];
      clientsDiff := Dict(clientsDiff.keys + [key], clientsDiff.entries[key := sessions]);
    }
    assert log.order[..|log.order|] == log.order;
    assert clientsDiff.entries == DiffMap(log.reqs);
  }

  /** The mean loop over all clients (lines 72-76). */
  method MeanAll(clientsDiff: Dict<seq<seq<int>>>) returns (clientsMean: Dict<seq<Option<real>>>)
    requires forall client :: client in clientsDiff.keys ==> client in clientsDiff.entries
    ensures clientsMean.keys == clientsDiff.keys
    ensures forall client :: client in clientsMean.entries <==> client in clientsDiff.keys
    ensures forall client :: client in clientsMean.entries ==>
              clientsMean.entries[client] == MeansOf(clientsDiff.entries[client])
  {
    var order := clientsDiff.keys;
    clientsMean := Dict([], map[]);
    for n := 0 to |order|
      invariant clientsMean.keys == order[..n]
      invariant forall client :: client in clientsMean.entries <==> client in order[..n]
      invariant forall client :: client in clientsMean.entries ==>
                  clientsMean.entries[client] == MeansOf(clientsDiff.entries[client])
    {
      var key := order[n];
      var means := ClientMeans(clientsDiff.entries[key]);
      assert means == MeansOf(clientsDiff.entries[key]);
      assert order[..n + 1] == order[..n] + [key];
      clientsMean := Dict(clientsMean.keys + [key], clientsMean.entries[key := means]);
    }
    assert order[..|order|] == order;
  }

  /** The deviation loops over all clients (lines 85-97). */
  method DeviationAll(clientsDiff: Dict<seq<seq<int>>>, clientsMean: Dict<seq<Option<real>>>)
      returns (clientsDeviation: Dict<seq<Deviation>>)
    requires forall client :: client in clientsDiff.keys ==> client in clientsDiff.entries
    requires forall client :: client in clientsDiff.keys ==>
               client in clientsMean.entries && clientsMean.entries[client] == MeansOf(clientsDiff.entries[client])
    ensures clientsDeviation.keys == clientsDiff.keys
    ensures forall client :: client in clientsDeviation.entries <==> client in clientsDiff.keys
    ensures forall client :: client in clientsDeviation.entries ==>
              clientsDeviation.entries[client] == DeviationsOf(clientsDiff.entries[client])
  {
    var order := clientsDiff.keys;
    clientsDeviation := Dict([], map[]);
    for n := 0 to |order|
      invariant clientsDeviation.keys == order[..n]
      invariant forall client :: client in clientsDeviation.entries <==> client in order[..n]
      invariant forall client :: client in clientsDeviation.entries ==>
                  clientsDeviation.entries[client] == DeviationsOf(clientsDiff.entries[client])
    {
      var key := order[n];
      var sessions := clientsDiff.entries[key];
      var devs := ClientDeviations(sessions, clientsMean.entries[key]);
      assert devs == DeviationsOf(sessions);
      assert order[..n + 1] == order[..n] + [key];
      clientsDeviation := Dict(clientsDeviation.keys + [key], clientsDeviation.entries[key := devs]);
    }
    assert order[..|order|] == order;
  }

  /** `parse_deviation` minus its I/O: the reading loop, then one loop per dictionary, each
      over the clients in the order of the previous dictionary. */
  method ParseDeviation(lines: seq<string>, limit: int, stamp: string -> Option<int>) returns (r: Result<Report, Error>)
    ensures r == ParseDeviationSpec(lines, limit, stamp)
  {
    var read := ReadLog(lines, limit, stamp);
    if read.Err? {
      return Err(read.error);
    }
    var clientsReqs := read.value;
    ReadSpecWellFormed(lines, limit, stamp);
    var clientsDiff := SegmentAll(clientsReqs);
    var clientsMean := MeanAll(clientsDiff);
    var clientsDeviation := DeviationAll(clientsDiff, clientsMean);
    ghost var expected := Analyse(clientsReqs);
    assert clientsMean == expected.mean;
    assert clientsDeviation == expected.deviation;
    return Ok(Report(clientsDiff, clientsMean, clientsDeviation));
  }

  /** The three dictionaries list the same clients in the same order, and for every client
      they hold parallel lists: one mean and one deviation per session, the mean `None`
      exactly for an empty session. */
  lemma ParallelViews(log: ClientLog, client: string, j: nat)
    requires client in log.reqs
    ensures var rep := Analyse(log);
            rep.diff.keys == rep.mean.keys == rep.deviation.keys == log.order &&
            client in rep.diff.entries && client in rep.mean.entries && client in rep.deviation.entries &&
            |rep.mean.entries[client]| == |rep.diff.entries[client]| == |rep.deviation.entries[client]| &&
            (j < |rep.diff.entries[client]| ==>
               (rep.mean.entries[client][j].None? <==> rep.diff.entries[client][j] == []) &&
               rep.deviation.entries[client][j] == SampleDeviation(rep.diff.entries[client][j]))
  {
    var sessions := Analyse(log).diff.entries[client];
    if j < |sessions| {
      DeviationMatchesSampleDeviation(sessions[j]);
    }
  }

  /** Because every session entry of a client is the same list, all of a client's means are
      equal and all of its deviations are equal. */
  lemma SameStatisticsWithinClient(log: ClientLog, client: string, j: nat, k: nat)
    requires client in log.reqs
    requires j < |Sessions(log.reqs[client])| && k < |Sessions(log.reqs[client])|
    ensures Analyse(log).mean.entries[client][j] == Analyse(log).mean.entries[client][k]
    ensures Analyse(log).deviation.entries[client][j] == Analyse(log).deviation.entries[client][k]
  {
    EntriesAllEqual(log.reqs[client], j, k);
  }

  lemma TwoClientSessions()
    ensures Sessions([0, 10, 20]) == [[10, 10]]
    ensures Sessions([0, 2000]) == [[]]
  {
    var a, b := [0, 10, 20], [0, 2000];
    assert Gaps(a) == [10, 10] by {
      assert a[1..][1..][1..] == [];
    }
    OneSessionWithoutBreaks(a);
    var g := [2000];
    assert Gaps(b) == g;
    assert g[..0] == [];
    assert TrailingRun(g) == [] && Breaks(g) == 1;
  }

  /** The log of the two-client example below. */
  function TwoClientLog(): ClientLog
  {
    ClientLog(["a", "b"], map["a" := [0, 10, 20], "b" := [0, 2000]])
  }

  lemma TwoClientDiff()
    ensures DiffMap(TwoClientLog().reqs) == map["a" := [[10, 10]], "b" := [[]]]
  {
    TwoClientSessions();
  }

  lemma TwoClientStatistics()
    ensures MeansOf([[10, 10]]) == [Some(10.0)] && MeansOf([[]]) == [None]
    ensures DeviationsOf([[10, 10]]) == [Root(0.0)] && DeviationsOf([[]]) == [Zero]
  {
    var session := [10, 10];
    ConstantSessionHasNoDeviation(session, 10);
    ConstantSquares(session, 10);
    assert DeviationWith(session, Some(10.0)) == Root(0.0);
  }

  lemma TwoClientMaps()
    ensures MeanMap(map["a" := [[10, 10]], "b" := [[]]]) == map["a" := [Some(10.0)], "b" := [None]]
    ensures DeviationMap(map["a" := [[10, 10]], "b" := [[]]]) == map["a" := [Root(0.0)], "b" := [Zero]]
  {
    TwoClientStatistics();
  }

  /** Two clients: one with requests 10 seconds apart, one with a single gap of 2000 seconds.
      The first has one session [10, 10] with mean 10 and deviation sqrt(0); the second has
      one entry, the empty buffer appended at its break, with mean `None` and deviation 0. */
  lemma TwoClientExample()
    ensures Analyse(TwoClientLog()).diff.entries == map["a" := [[10, 10]], "b" := [[]]]
    ensures Analyse(TwoClientLog()).mean.entries == map["a" := [Some(10.0)], "b" := [None]]
    ensures Analyse(TwoClientLog()).deviation.entries == map["a" := [Root(0.0)], "b" := [Zero]]
  {
    TwoClientDiff();
    TwoClientMaps();
  }
}
