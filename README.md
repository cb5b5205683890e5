# parse_deviation in Dafny

A model of `parse_deviation` from the clustering repository. The function reads a web server access log and groups each line's timestamp by client, where a client is the address plus the user agent. It splits each client's timestamps into sessions at gaps of 1800 seconds or more. For every session it computes the mean interval between requests and the sample standard deviation of those intervals.

The model follows the script step by step, as imperative Dafny:

- `LogReader.ReadLog` is the reading loop. It has the line counter and its `break`, it builds the key `address:user-agent`, and it grows the insertion-ordered dictionary `clients_reqs` in place. That dictionary is the class `LogReader.ClientRequests`.
- `Segmentation.SegmentClient` is the segmentation loop. The list `session_req` is a heap object (`Segmentation.Buffer`). The loop appends that one object to the client's session list at every break and then clears it. So every entry of the list is the same object, as in the script.
- `Statistics.ClientMeans` is the mean loop. `Statistics.ClientDeviations` is the deviation loops: the first pass stores each session's list of squared deviations in an array, and `Statistics.FinalizeInPlace` then overwrites each entry with the deviation.
- `Analysis.ParseDeviation` runs all of these in the script's order and returns the three dictionaries the script writes to disk.

Every method is proved against a pure specification function (`ReadSpec`, `Sessions`, `MeanOf`, `DeviationWith`, `Analyse`). The lemmas state what those functions mean.

Because the session list aliases one buffer, the result is not what the comment at parse_deviation.py:50 suggests. A client gets one entry per gap of 1800 seconds or more. It gets one more entry if gaps follow its last break. Every entry holds the gaps after the client's last break (`Segmentation.AliasingExample`: timestamps `[0, 10, 3000, 3005]` give `[[5], [5]]`). The model reproduces this behaviour.

Three consequences of the script's code that a reader might not expect, all kept by the model:

- A client with two requests 2000 seconds apart gets one empty session `[[]]`. The break at parse_deviation.py:62-64 appends the still-empty buffer. That session's mean is `None` (line 76) and its deviation is 0 (line 97), as `Analysis.TwoClientExample` shows.
- A client's sessions are not independent lists. Lines 61-64 append and clear one list object, so every session of the client is that same list, as explained above.
- A negative limit reads no line. At lines 31-33 the first line already has `i = 1 >= limit`, so the loop breaks before parsing anything.

Timestamps are whole seconds (`int`). Means and variances are `real`. The square root is symbolic: a deviation is either the script's integer `0` (`Zero`) or `Root(v)`, the square root of the sample variance `v`.

## Model

| member | source | states |
|---|---|---|
| `LogReader.Find` | parse_deviation.py:35 | `str.find` of one character: the first index of `-`, or -1 exactly when there is none |
| `LogReader.Address` | parse_deviation.py:35 | The address is a prefix of the line. It ends just before the character that precedes the first `-`. With `-` first it drops only the last character, and with no `-` it drops the last two (Python slice semantics for stops 0 and -1). |
| `LogReader.Split` | parse_deviation.py:36 | `split('"')` returns one more piece than there are quote characters, and no piece contains a quote |
| `LogReader.JoinSplit` | parse_deviation.py:36 | Joining the pieces of `split` with the separator gives the line back |
| `LogReader.UserAgent` | parse_deviation.py:36 | The sixth piece exists exactly when the line has at least five quote characters. It is then the result: `Split(line, '"')[5]`, a text with no quote. Otherwise the line aborts with `MissingUserAgent`. |
| `LogReader.ParseLine` | parse_deviation.py:35-44 | A line fails with `MissingUserAgent` exactly when it has fewer than five quotes. It fails with `MissingTimestamp` exactly when it has the quotes but no timestamp. Otherwise its key is `Address(line) + ":" + Split(line, '"')[5]`, the address and the sixth quote-separated piece, and its timestamp is the line's. |
| `LogReader.ParseAll` | parse_deviation.py:30-44 | The lines parse exactly when each line does, and then each line gives its own key and timestamp in order. Otherwise the error is that of the first malformed line, and every earlier line is well formed. |
| `LogReader.Taken` | parse_deviation.py:29-33 | The number of lines read is the count before the first line whose counter `i` (from 1) meets `limit != 0 and i >= limit`. Every earlier counter passes. |
| `LogReader.TakenCount` | parse_deviation.py:29-33 | A limit of 0 reads every line. A positive limit L reads min(L - 1, n) lines, so a limit of 1 reads none. |
| `LogReader.Add` | parse_deviation.py:45-47 | Reference definition of one insertion into `clients_reqs`. It keeps the dictionary well formed: each key is listed once, and exactly the keys are listed. The client ends up with its old list (empty if new) plus the timestamp, and every other client's list is unchanged. |
| `LogReader.Group` | parse_deviation.py:30-47 | Reference definition of the dictionary after all lines read: `Add` of every pair in order. It is well formed and lists at most one client per line. `GroupKeys`, `GroupTimestamps` and `GroupOrder` characterise it completely. |
| `LogReader.GroupKeys` | parse_deviation.py:45-47 | The dictionary lists each client once and lists exactly its keys. Its keys are exactly the clients that occur in the lines read. |
| `LogReader.GroupTimestamps` | parse_deviation.py:45-47 | Each client's list holds the timestamps of exactly that client's lines, in file order |
| `LogReader.GroupOrder` | parse_deviation.py:45-47 | Clients are ordered by the position of their first line |
| `LogReader.ClientRequests.Append` | parse_deviation.py:45-47 | A new client is added at the end of the order with an empty list, and then the timestamp is appended to the client's list |
| `LogReader.ReadLog` | parse_deviation.py:26-47 | The reading loop returns the first error among the lines read, or the grouping of all lines read |
| `Segmentation.Gaps` | parse_deviation.py:58-59 | One gap per neighbouring pair: `ts[i + 1] - ts[i]`, and no gap for zero or one timestamp |
| `Segmentation.Sessions` | parse_deviation.py:54-66 | Reference definition, in closed form, of a client's session list once the loop ends. There are at most as many entries as gaps, and each entry is a suffix of the gaps in which no gap reaches 1800. `SegmentClient` is proved equal to it. `TrailingRunIsLastBreakFreeSuffix`, `NoSessionsIffSingleRequest`, `OneSessionWithoutBreaks` and `EntriesAllEqual` characterise it. |
| `Segmentation.Buffer.Append` | parse_deviation.py:61 | `session_req.append(diff)` adds the gap at the end of the shared buffer |
| `Segmentation.Buffer.Clear` | parse_deviation.py:64 | `session_req.clear()` empties the shared buffer in place |
| `Segmentation.SegmentClient` | parse_deviation.py:55-66 | Every entry of the client's list is the same buffer object. What the entries hold is one copy of the trailing run per break, plus one if the trailing run is non-empty. |
| `Segmentation.TrailingRunIsLastBreakFreeSuffix` | parse_deviation.py:56-66 | The buffer's final contents are the longest suffix of the gaps with no gap of 1800 or more. The gap just before that suffix is a break. |
| `Segmentation.NoBreaksIffAllBelow` | parse_deviation.py:60-63 | No entry is appended at a break exactly when every gap is below 1800 |
| `Segmentation.OneSessionWithoutBreaks` | parse_deviation.py:58-66 | With two or more timestamps and every gap below 1800, there is exactly one session, holding all gaps in order |
| `Segmentation.NoSessionsIffSingleRequest` | parse_deviation.py:58-66 | A client has no session entry exactly when it has at most one timestamp |
| `Segmentation.EntriesAllEqual` | parse_deviation.py:63-64 | All session entries of a client are equal to the gaps after its last break |
| `Segmentation.CommentExample` | parse_deviation.py:49-50 | Timestamps [10, 16, 20, 25] give exactly one session [6, 4, 5] |
| `Segmentation.AliasingExample` | parse_deviation.py:60-66 | Timestamps [0, 10, 3000, 3005] give [[5], [5]]: the session before the break is lost |
| `Segmentation.GapAtThresholdBreaks` | parse_deviation.py:60-64 | A gap of exactly 1800 is a break, and it leaves one empty entry |
| `Segmentation.GapBelowThresholdContinues` | parse_deviation.py:60-61 | A gap of 1799 stays in the session |
| `Statistics.MeanOf` | parse_deviation.py:76 | The mean is `None` exactly for an empty session. Otherwise, multiplied by the number of intervals, it gives the session's sum. |
| `Statistics.ClientMeans` | parse_deviation.py:72-76 | One mean per session, in session order, `None` exactly for the empty sessions |
| `Statistics.SquaredDeviations` | parse_deviation.py:89-91 | Reference definition of the list built for one session: one term per interval, in order, each the square of the interval minus the mean. `SquaresExpand` and `SquaresNonNegative` characterise its sum. |
| `Statistics.Finalize` | parse_deviation.py:96-97 | Reference definition of the overwrite of one list. The result is the fallback 0 exactly when the list has at most one term. When every term is non-negative, the value under the square root is non-negative. |
| `Statistics.FinalizeInPlace` | parse_deviation.py:94-97 | Each list of squared deviations is overwritten in place. With n terms, it becomes the square root of their sum over n - 1 (`Root(sum / (n - 1))`) when n - 1 > 0, and 0 (`Zero`) otherwise. |
| `Statistics.ClientDeviations` | parse_deviation.py:85-97 | One deviation per session, in session order, computed from the mean it is handed. The squares are built only for non-empty sessions, so a `None` mean never enters arithmetic. |
| `Statistics.SquaresExpand` | parse_deviation.py:90-91 | The sum of (x - m)^2 over a session is sum(x^2) - 2 m sum(x) + n m^2 |
| `Statistics.DeviationMatchesSampleDeviation` | parse_deviation.py:88-97 | Given the session's own mean, the script's two passes give the sample standard deviation of the shortcut formula (sum of squares - sum^2 / n) / (n - 1) |
| `Statistics.VarianceNonNegative` | parse_deviation.py:96 | The value under every square root is non-negative |
| `Statistics.ZeroIffAtMostOneInterval` | parse_deviation.py:96-97 | The deviation is the fallback 0 exactly when the session has at most one interval |
| `Statistics.ConstantSessionHasNoDeviation` | parse_deviation.py:72-97 | A session whose intervals are all c has mean c and a deviation of 0 or sqrt(0) |
| `Statistics.ThreeIntervalExample` | parse_deviation.py:72-97 | Intervals [6, 4, 5] have mean 5.0 and deviation sqrt(1.0) |
| `Statistics.ShortSessionExamples` | parse_deviation.py:72-97 | [6] has mean 6.0 and deviation 0. [] has mean `None` and deviation 0. |
| `Analysis.Analyse` | parse_deviation.py:54-97 | Reference definition of the three dictionaries computed from a grouped log. All three list the clients in reading order and have exactly the grouped clients as keys. Per client, the three lists have the same length. `ParallelViews` adds what their entries are. |
| `Analysis.SegmentAll` | parse_deviation.py:54-66 | `clients_diff` lists the clients in reading order, and each client maps to the value of its session list |
| `Analysis.MeanAll` | parse_deviation.py:72-76 | `clients_mean` has the keys and order of `clients_diff` and the means of each client's sessions |
| `Analysis.DeviationAll` | parse_deviation.py:85-97 | `clients_deviation` has the keys and order of `clients_diff` and the deviations of each client's sessions |
| `Analysis.ParseDeviation` | parse_deviation.py:10-102 | The whole computation returns the first line error, or the three dictionaries built from the grouping of the lines read |
| `Analysis.ParallelViews` | parse_deviation.py:72-97 | The three dictionaries list the same clients in the same order. Per client, the lists have equal length. A mean is `None` exactly for an empty session, and each deviation is the sample standard deviation of its session. |
| `Analysis.SameStatisticsWithinClient` | parse_deviation.py:63-97 | Because the entries alias one list, all means of a client are equal, and so are all its deviations |
| `Analysis.TwoClientExample` | parse_deviation.py:54-97 | Client a at [0, 10, 20] gets sessions [[10, 10]], means [10.0] and deviations [sqrt(0)]. Client b at [0, 2000] gets [[]], [None] and [0]. |

## Left out

- File input and output are not modelled: opening the log, and the three `json.dump` calls into `dumps/`, whose names use `limit // 1000`. The missing-directory failure goes with them. The log is a sequence of lines, each with its terminator as `for line in log_file` yields it, so the trailing `\n` is part of the line that `Address` slices. The result is the three dictionaries.
- Timestamp extraction is a parameter `stamp: string -> Option<int>`. That covers the bracketed-timestamp regular expression, `strptime` with `%z`, and `mktime`, which uses the process's local time zone. A line without a usable timestamp gives `None`, and the run aborts with `MissingTimestamp`.
- `math.sqrt` and floating-point rounding are not modelled. Means and variances are exact `real` values. The square root stays symbolic (`Root(v)`). Interval values are whole seconds, whereas the script holds them as floats from `mktime`.
- The command-line interface (`argparse`, the default log path and the default limit of 100000) is not modelled. Neither is the unused `numpy` import.
- Statistics.ClientDeviations: runs both deviation passes for one client before moving to the next. The script runs the first pass for every client, then the second. Each client's list is separate, so the values are the same.
- Analysis.SegmentAll: stores the value of each client's aliased list as soon as that client's loop ends. Nothing touches that buffer afterwards, so this is the value the script later reads and dumps.
