/** Reading the access log (parse_deviation.py, lines 26-47): the line limit, the client key
    built from each line, and the grouping of timestamps per client in an insertion-ordered
    dictionary. Extracting a timestamp from a line (a regular expression, strptime and mktime
    in the local time zone) is a parameter `stamp` of this model: it yields the epoch seconds
    of the line, or None when the line has no usable bracketed timestamp. */
module LogReader {
  import opened Wrappers

  /** The two ways a line can abort the run. */
  datatype Error =
    | MissingUserAgent   // fewer than five '"' characters: `split('"')[5]` raises
    | MissingTimestamp   // no bracketed timestamp, or one strptime rejects

  /** Python's `str.find` for one character: the first index of c in s, or -1. */
  function Find(s: string, c: char): (k: int)
    ensures -1 <= k < |s|
    ensures k == -1 <==> c !in s
    ensures 0 <= k ==> s[k] == c && c !in s[..k]
  {
    if s == [] then -1
    else if s[0] == c then 0
    else
      var k := Find(s[1..], c);
      assert s[1..][..k + 1] == s[1..k + 2] || k == -1;
      if k == -1 then -1 else k + 1
  }

  /** Python's slice `s[:stop]`: a negative stop counts from the end; both ends are clamped. */
  function PrefixTo(s: string, stop: int): string
  {
    if stop >= 0 then s[..if stop <= |s| then stop else |s|]
    else s[..if |s| + stop >= 0 then |s| + stop else 0]
  }

  /** The address of a line (line 35): `line[:line.find("-") - 1]`, that is everything before
      the character that precedes the first '-'. A line starting with '-' loses its last
      character, and a line without '-' its last two. */
  function Address(line: string): (ip: string)
    ensures ip <= line
    ensures '-' !in line ==> |ip| == if |line| >= 2 then |line| - 2 else 0
    ensures |line| > 0 && line[0] == '-' ==> |ip| == |line| - 1
    ensures '-' in line && line[0] != '-' ==>
              |ip| + 1 < |line| && line[|ip| + 1] == '-' && '-' !in line[..|ip| + 1]
  {
    var k := Find(line, '-');
    assert k > 0 ==> line[..k - 1 + 1] == line[..k];
    PrefixTo(line, k - 1)
  }

  /** Python's `s.split(sep)`: the pieces between the separators, one more than there are
      separators. */
  function Split(s: string, sep: char): (fields: seq<string>)
    ensures |fields| == multiset(s)[sep] + 1
    ensures forall i :: 0 <= i < |fields| ==> sep !in fields[i]
  {
    if s == [] then [""]
    else
      assert s == [s[0]] + s[1..];
      var rest := Split(s[1..], sep);
      if s[0] == sep then [""] + rest
      else [[s[0]] + rest[0]] + rest[1..]
  }

  /** The inverse of Split: the pieces glued back together with the separator. */
  function Join(fields: seq<string>, sep: char): string
  {
    if |fields| <= 1 then (if fields == [] then "" else fields[0])
    else fields[0] + [sep] + Join(fields[1..], sep)
  }

  /** Splitting a line and joining the pieces gives the line back. */
  lemma {:induction false} JoinSplit(s: string, sep: char)
    ensures Join(Split(s, sep), sep) == s
  {
    if s != [] {
      var rest := Split(s[1..], sep);
      JoinSplit(s[1..], sep);
      if s[0] != sep {
        var fields := Split(s, sep);
        assert fields[1..] == rest[1..];
        if |rest| > 1 {
          assert rest == [rest[0]] + rest[1..];
          assert Join(rest, sep) == rest[0] + [sep] + Join(rest[1..], sep);
        }
      }
    }
  }

  /** The user agent of a line (line 36): the sixth '"'-separated piece. A line with fewer
      than five '"' characters has no sixth piece and aborts the run. */
  function UserAgent(line: string): (r: Result<string, Error>)
    ensures r.Ok? <==> multiset(line)['"'] >= 5
    ensures r.Ok? ==> r.value == Split(line, '"')[5] && '"' !in r.value
    ensures r.Err? ==> r.error == MissingUserAgent
  {
    var fields := Split(line, '"');
    if |fields| > 5 then Ok(fields[5]) else Err(MissingUserAgent)
  }

  /** What one line contributes (lines 35-44): the client key "address:user-agent" and the
      timestamp. A missing user agent is reported before a missing timestamp, in the order
      the script evaluates them. */
  function ParseLine(line: string, stamp: string -> Option<int>): (r: Result<(string, int), Error>)
    ensures r == Err(MissingUserAgent) <==> multiset(line)['"'] < 5
    ensures r == Err(MissingTimestamp) <==> multiset(line)['"'] >= 5 && stamp(line).None?
    ensures r.Ok? ==> r.value.1 == stamp(line).value
    ensures r.Ok? ==> r.value.0 == Address(line) + ":" + Split(line, '"')[5]
    ensures r.Ok? ==> Address(line) + ":" <= r.value.0 && '"' !in r.value.0[|Address(line)| + 1..]
  {
    match UserAgent(line)
    case Err(e) => Err(e)
    case Ok(ua) =>
      match stamp(line)
      case None => Err(MissingTimestamp)
      case Some(ts) =>
        var client := Address(line) + ":" + ua;
        assert client[|Address(line)| + 1..] == ua;
        Ok((client, ts))
  }

  /** Parsing the lines in order: the result of the first malformed line, or every line's
      key and timestamp. Defined from the end, as the reading loop extends it. */
  function ParseAll(lines: seq<string>, stamp: string -> Option<int>): (r: Result<seq<(string, int)>, Error>)
    ensures r.Ok? <==> forall j :: 0 <= j < |lines| ==> ParseLine(lines[j], stamp).Ok?
    ensures r.Ok? ==> |r.value| == |lines|
    ensures r.Ok? ==> forall j :: 0 <= j < |lines| ==> r.value[j] == ParseLine(lines[j], stamp).value
    ensures r.Err? ==> exists j :: 0 <= j < |lines| && ParseLine(lines[j], stamp) == Err(r.error) &&
                                   forall i :: 0 <= i < j ==> ParseLine(lines[i], stamp).Ok?
  {
    if lines == [] then Ok([])
    else
      var init := lines[..|lines| - 1];
      assert forall j :: 0 <= j < |init| ==> init[j] == lines[j];
      match ParseAll(init, stamp)
      case Err(e) => Err(e)
      case Ok(pairs) =>
        match ParseLine(lines[|lines| - 1], stamp)
        case Err(e) => Err(e)
        case Ok(p) => Ok(pairs + [p])
  }

  /** Whether the line counted as number i (from 1) is still read: the loop breaks at the
      first i with `limit != 0 and i >= limit` (lines 31-33). */
  predicate Admitted(limit: int, i: nat)
  {
    limit == 0 || i < limit
  }

  /** How many of n lines the loop reads: every line before the first one not admitted. */
  function Taken(limit: int, n: nat): (k: nat)
    ensures k <= n
    ensures forall j :: 1 <= j <= k ==> Admitted(limit, j)
    ensures k < n ==> !Admitted(limit, k + 1)
  {
    if limit == 0 || limit > n then n
    else if limit <= 1 then 0
    else limit - 1
  }

  /** A positive limit L reads min(L - 1, n) lines, so a limit of 1 reads none; a limit of 0
      reads every line. */
  lemma TakenCount(limit: int, n: nat)
    ensures limit == 0 ==> Taken(limit, n) == n
    ensures limit > 0 ==> Taken(limit, n) == if limit - 1 < n then limit - 1 else n
    ensures limit == 1 ==> Taken(limit, n) == 0
  {
    if limit > 0 {
      if limit - 1 < n {
        assert !Admitted(limit, limit);
      } else {
        assert Admitted(limit, n);
      }
    }
  }

  /** An insertion-ordered dictionary from client key to that client's timestamps. */
  datatype ClientLog = ClientLog(order: seq<string>, reqs: map<string, seq<int>>)

  /** The keys are listed once each, and exactly the keys of the map are listed. */
  ghost predicate WellFormed(log: ClientLog)
  {
    (forall i, j :: 0 <= i < j < |log.order| ==> log.order[i] != log.order[j]) &&
    (forall key :: key in log.reqs <==> key in log.order)
  }

  /** Lines 45-47: a new key gets an empty list at the end of the order, then the timestamp is
      appended to the key's list. */
  function Add(log: ClientLog, client: string, ts: int): (r: ClientLog)
    ensures WellFormed(log) ==> WellFormed(r)
    ensures client in r.reqs && r.reqs[client] == (if client in log.reqs then log.reqs[client] else []) + [ts]
    ensures forall key :: key != client ==> (key in r.reqs <==> key in log.reqs)
    ensures forall key :: key in log.reqs && key != client ==> r.reqs[key] == log.reqs[key]
  {
    if client in log.reqs then ClientLog(log.order, log.reqs[client := log.reqs[client] + [ts]])
    else ClientLog(log.order + [client], log.reqs[client := [ts]])
  }

  /** The dictionary after adding every pair in order. */
  function Group(pairs: seq<(string, int)>): (r: ClientLog)
    ensures WellFormed(r)
    ensures |r.order| <= |pairs|
  {
    if pairs == [] then ClientLog([], map[])
    else
      var last := pairs[|pairs| - 1];
      Add(Group(pairs[..|pairs| - 1]), last.0, last.1)
  }

  /** The timestamps of one client, in file order. */
  function TimestampsOf(pairs: seq<(string, int)>, client: string): seq<int>
  {
    if pairs == [] then []
    else
      var last := pairs[|pairs| - 1];
      TimestampsOf(pairs[..|pairs| - 1], client) + (if last.0 == client then [last.1] else [])
  }

  /** The position of the first pair of a client, or the length if it has none. */
  function FirstIndex(pairs: seq<(string, int)>, client: string): (i: nat)
    ensures i <= |pairs|
    ensures i < |pairs| ==> pairs[i].0 == client
    ensures forall j :: 0 <= j < i ==> pairs[j].0 != client
  {
    if pairs == [] then 0
    else if pairs[0].0 == client then 0
    else 1 + FirstIndex(pairs[1..], client)
  }

  /** A client that does not occur has no timestamps. */
  lemma {:induction false} TimestampsOfAbsent(pairs: seq<(string, int)>, client: string)
    requires forall j :: 0 <= j < |pairs| ==> pairs[j].0 != client
    ensures TimestampsOf(pairs, client) == []
  {
    if pairs != [] {
      TimestampsOfAbsent(pairs[..|pairs| - 1], client);
    }
  }

  /** Every client of the dictionary occurs in the pairs and every client that occurs is in
      the dictionary; each client is listed once, and exactly the keys are listed. */
  lemma {:induction false} GroupKeys(pairs: seq<(string, int)>)
    ensures WellFormed(Group(pairs))
    ensures forall client :: client in Group(pairs).reqs <==> FirstIndex(pairs, client) < |pairs|
  {
    if pairs != [] {
      var init := pairs[..|pairs| - 1];
      var last := pairs[|pairs| - 1];
      GroupKeys(init);
      assert pairs == init + [last];
      var before := Group(init);
      assert Group(pairs) == Add(before, last.0, last.1);
      forall client
        ensures client in Group(pairs).reqs <==> FirstIndex(pairs, client) < |pairs|
      {
        FirstIndexSnoc(init, last, client);
      }
    }
  }

  /** Each client's list holds its timestamps in file order, one per line of that client. */
  lemma {:induction false} GroupTimestamps(pairs: seq<(string, int)>)
    ensures forall client :: client in Group(pairs).reqs ==>
              Group(pairs).reqs[client] == TimestampsOf(pairs, client)
  {
    if pairs != [] {
      var init := pairs[..|pairs| - 1];
      var last := pairs[|pairs| - 1];
      GroupTimestamps(init);
      if last.0 !in Group(init).reqs {
        GroupKeys(init);
        FirstIndexSnoc(init, last, last.0);
        assert forall j :: 0 <= j < |init| ==> init[j].0 != last.0;
        TimestampsOfAbsent(init, last.0);
      }
    }
  }

  /** The clients are ordered by their first appearance in the file. */
  lemma {:induction false} GroupOrder(pairs: seq<(string, int)>)
    ensures forall i, j :: 0 <= i < j < |Group(pairs).order| ==>
              FirstIndex(pairs, Group(pairs).order[i]) < FirstIndex(pairs, Group(pairs).order[j])
  {
    if pairs != [] {
      var init := pairs[..|pairs| - 1];
      var last := pairs[|pairs| - 1];
      GroupOrder(init);
      GroupKeys(init);
      assert pairs == init + [last];
      var before := Group(init);
      var order := Group(pairs).order;
      forall i, j | 0 <= i < j < |order|
        ensures FirstIndex(pairs, order[i]) < FirstIndex(pairs, order[j])
      {
        FirstIndexSnoc(init, last, order[i]);
        FirstIndexSnoc(init, last, order[j]);
        if j == |before.order| {
          assert last.0 !in before.reqs && order[j] == last.0;
          assert order[i] == before.order[i];
        } else {
          assert order[i] == before.order[i] && order[j] == before.order[j];
        }
      }
    }
  }

  /** The first position of a client after one more pair: unchanged if it already occurred,
      the new last position if it is that pair's client, and absent otherwise. */
  lemma {:induction false} FirstIndexSnoc(init: seq<(string, int)>, last: (string, int), client: string)
    ensures var pairs := init + [last];
            var i := FirstIndex(init, client);
            var k := FirstIndex(pairs, client);
            (i < |init| ==> k == i) &&
            (i == |init| && client == last.0 ==> k == |init|) &&
            (i == |init| && client != last.0 ==> k == |pairs|)
  {
    var pairs := init + [last];
    var i := FirstIndex(init, client);
    var k := FirstIndex(pairs, client);
    if i < |init| {
      assert pairs[i].0 == client;
      assert k <= i;
      assert init[k].0 == client;
    } else if client == last.0 {
      assert pairs[|init|].0 == client;
    }
  }

  /** The dictionary `clients_reqs` of the script, grown in place. */
  class ClientRequests {
    var order: seq<string>
    var reqs: map<string, seq<int>>

    constructor ()
      ensures order == [] && reqs == map[]
    {
      order := [];
      reqs := map[];
    }

    function Snapshot(): ClientLog
      reads this
    {
      ClientLog(order, reqs)
    }

    /** Lines 45-47 for one line. */
    method Append(client: string, ts: int)
      modifies this
      ensures Snapshot() == Add(old(Snapshot()), client, ts)
    {
      if client !in reqs {
        order := order + [client];
        reqs := reqs[client := []];
        assert reqs[client] + [ts] == [ts];
      }
      reqs := reqs[client := reqs[client] + [ts]];
    }
  }

  /** Reading one more well-formed line extends the parsed pairs by that line's pair. */
  lemma ParseAllExtend(lines: seq<string>, i: nat, stamp: string -> Option<int>)
    requires i < |lines|
    requires ParseAll(lines[..i], stamp).Ok? && ParseLine(lines[i], stamp).Ok?
    ensures ParseAll(lines[..i + 1], stamp)
         == Ok(ParseAll(lines[..i], stamp).value + [ParseLine(lines[i], stamp).value])
  {
    assert lines[..i + 1][..i] == lines[..i];
  }

  /** Once line i is malformed and all lines before it are not, every longer prefix fails
      with line i's error. */
  lemma ParseAllFirstError(lines: seq<string>, i: nat, k: nat, stamp: string -> Option<int>)
    requires i < k <= |lines|
    requires ParseAll(lines[..i], stamp).Ok? && ParseLine(lines[i], stamp).Err?
    ensures ParseAll(lines[..k], stamp) == Err(ParseLine(lines[i], stamp).error)
  {
    var prefix := lines[..k];
    assert forall j :: 0 <= j < i ==> prefix[j] == lines[..i][j];
    assert prefix[i] == lines[i];
  }

  /** Grouping one more pair is Add. */
  lemma GroupExtend(pairs: seq<(string, int)>, p: (string, int))
    ensures Group(pairs + [p]) == Add(Group(pairs), p.0, p.1)
  {
    assert (pairs + [p])[..|pairs|] == pairs;
  }

  /** What reading the file yields: the first error among the lines read, or the grouping of
      their keys and timestamps. */
  function ReadSpec(lines: seq<string>, limit: int, stamp: string -> Option<int>): Result<ClientLog, Error>
  {
    match ParseAll(lines[..Taken(limit, |lines|)], stamp)
    case Err(e) => Err(e)
    case Ok(pairs) => Ok(Group(pairs))
  }

  /** The reading loop (lines 28-47): a counter with a break, the key and timestamp of each
      line, and the dictionary grown in place. */
  method ReadLog(lines: seq<string>, limit: int, stamp: string -> Option<int>) returns (r: Result<ClientLog, Error>)
    ensures r == ReadSpec(lines, limit, stamp)
  {
    var taken := Taken(limit, |lines|);
    var clientsReqs := new ClientRequests();
    var i := 0;
    while i < |lines|
      invariant i <= taken
      invariant ParseAll(lines[..i], stamp).Ok?
      invariant clientsReqs.Snapshot() == Group(ParseAll(lines[..i], stamp).value)
    {
      if limit != 0 && i + 1 >= limit {
        break;
      }
      var line := lines[i];
      var ip := Address(line);
      var ua := UserAgent(line);
      if ua.Err? {
        ParseAllFirstError(lines, i, taken, stamp);
        return Err(ua.error);
      }
      var ts := stamp(line);
      if ts.None? {
        ParseAllFirstError(lines, i, taken, stamp);
        return Err(MissingTimestamp);
      }
      var client := ip + ":" + ua.value;
      ghost var before := ParseAll(lines[..i], stamp).value;
      assert ParseLine(line, stamp) == Ok((client, ts.value));
      ParseAllExtend(lines, i, stamp);
      GroupExtend(before, (client, ts.value));
      clientsReqs.Append(client, ts.value);
      i := i + 1;
    }
    assert i == taken;
    return Ok(clientsReqs.Snapshot());
  }
}
