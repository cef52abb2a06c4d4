/** The persisted settings and the run history (main.js:105-109, 196-204):
    each successful run puts its entry first and the list is cut back to
    twenty entries. */
module History {
  import opened Wrappers

  /** One finished run, as stored under `generationHistory`. */
  datatype HistoryEntry = HistoryEntry(title: string, projectName: string, path: string, timestamp: string)

  /** `if (history.length > 20) history.splice(20)`. */
  const MaxHistory := 20

  /** The first `n` elements, or all of them when there are fewer. */
  function Take<T>(s: seq<T>, n: nat): (t: seq<T>)
    ensures |t| == if |s| < n then |s| else n
    ensures forall k :: 0 <= k < |t| ==> t[k] == s[k]
  {
    if |s| <= n then s else s[..n]
  }

  function Reverse<T>(s: seq<T>): (r: seq<T>)
    ensures |r| == |s|
    ensures forall k :: 0 <= k < |s| ==> r[k] == s[|s| - 1 - k]
  {
    if s == [] then [] else [s[|s| - 1]] + Reverse(s[..|s| - 1])
  }

  /** `history.unshift(entry)` followed by the cut to twenty. */
  function PushCapped(history: seq<HistoryEntry>, entry: HistoryEntry): (r: seq<HistoryEntry>)
    ensures |r| == if |history| < MaxHistory then |history| + 1 else MaxHistory
    ensures r[0] == entry
    ensures forall k :: 1 <= k < |r| ==> r[k] == history[k - 1]
  {
    var h := [entry] + history;
    if |h| > MaxHistory then h[..MaxHistory] else h
  }

  /** A list of at most twenty entries stays within twenty, and the oldest
      entry drops out exactly when the list was full. */
  lemma PushCappedKeepsBound(history: seq<HistoryEntry>, entry: HistoryEntry)
    requires |history| <= MaxHistory
    ensures |PushCapped(history, entry)| <= MaxHistory
    ensures PushCapped(history, entry)[1..] == if |history| == MaxHistory then history[..MaxHistory - 1] else history
  {
  }

  /** The history after several successful runs, oldest run first. */
  function PushAll(history: seq<HistoryEntry>, runs: seq<HistoryEntry>): seq<HistoryEntry>
  {
    if runs == [] then history
    else PushCapped(PushAll(history, runs[..|runs| - 1]), runs[|runs| - 1])
  }

  lemma TakeAfterCons<T>(e: T, s: seq<T>, n: nat)
    requires n >= 1
    ensures Take([e] + Take(s, n), n) == Take([e] + s, n)
  {
  }

  /** After any sequence of runs the history is the newest twenty entries,
      newest first, of the runs followed by the earlier history. */
  lemma {:induction false} PushAllNewestFirst(history: seq<HistoryEntry>, runs: seq<HistoryEntry>)
    requires |history| <= MaxHistory
    ensures PushAll(history, runs) == Take(Reverse(runs) + history, MaxHistory)
  {
    if runs == [] {
      assert Reverse(runs) + history == history;
    } else {
      var init := runs[..|runs| - 1];
      var last := runs[|runs| - 1];
      PushAllNewestFirst(history, init);
      assert Reverse(runs) == [last] + Reverse(init);
      TakeAfterCons(last, Reverse(init) + history, MaxHistory);
      assert [last] + (Reverse(init) + history) == Reverse(runs) + history;
    }
  }

  /** The settings store of the main process. */
  class Store {
    var apiKey: Option<string>
    var edgeTtsPath: Option<string>
    var history: seq<HistoryEntry>

    constructor (apiKey: Option<string>, edgeTtsPath: Option<string>, history: seq<HistoryEntry>)
      ensures this.apiKey == apiKey && this.edgeTtsPath == edgeTtsPath && this.history == history
    {
      this.apiKey := apiKey;
      this.edgeTtsPath := edgeTtsPath;
      this.history := history;
    }

    /** main.js:196-204: read the list, put the entry first, cut it to
        twenty and store it back. */
    method RecordRun(entry: HistoryEntry)
      modifies this`history
      ensures history == PushCapped(old(history), entry)
    {
      var h := history;
      h := [entry] + h;
      if |h| > MaxHistory {
        h := h[..MaxHistory];
      }
      history := h;
    }
  }
}
