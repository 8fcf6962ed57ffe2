/** The bounded recent exchanges and the persistent summary of a conversation. */
module ConversationMemory {
  import opened Prelude

  const MAX_SUMMARY_CHARS := 4096

  datatype Exchange = Exchange(user: string, assistant: string)

  datatype Notice = LoadFailed | SummaryFailed | SaveFailed | ClearSaveFailed

  datatype Limits = Limits(recentTurns: nat, summaryTrigger: nat)

  predicate ValidLimits(l: Limits) {
    1 <= l.summaryTrigger <= l.recentTurns <= 32
  }

  datatype Memory = Memory(recent: seq<Exchange>, summary: string, notice: Option<Notice>)

  /** The memory file as found at start; `Stored` is what a save leaves behind. */
  datatype File = Missing | Unreadable | Stored(version: int, summary: string)

  function Loaded(file: File): (m: Memory)
    ensures |m.summary| <= MAX_SUMMARY_CHARS && m.recent == []
    ensures m.notice == (if file.Unreadable? || (file.Stored? && (file.version != 1 || |file.summary| > 4096))
                         then Some(LoadFailed) else None)
  {
    match file
    case Missing => Memory([], "", None)
    case Unreadable => Memory([], "", Some(LoadFailed))
    case Stored(version, summary) =>
      if version != 1 || |summary| > MAX_SUMMARY_CHARS then Memory([], "", Some(LoadFailed))
      else Memory([], summary, None)
  }

  function Saved(m: Memory): File {
    Stored(1, m.summary)
  }

  /** What the model answered when asked to merge the summary with the recent exchanges. */
  datatype Attempt = Failure | Text(text: string)

  predicate Usable(a: Attempt) {
    a.Text? && !Blank(a.text) && |a.text| <= MAX_SUMMARY_CHARS
  }

  function LastOnes<T>(s: seq<T>, n: nat): seq<T> {
    if |s| <= n then s else s[|s| - n..]
  }

  function Notices(m: Memory): seq<Notice> {
    if m.notice.Some? then [m.notice.value] else []
  }

  /** The exchange joins the list at once, before any summary is asked for. */
  function Appended(l: Limits, m: Memory, e: Exchange): Memory {
    Memory(LastOnes(m.recent + [e], l.recentTurns), m.summary, None)
  }

  function Summarised(l: Limits, m: Memory, attempt: Attempt, saves: bool): (Memory, seq<Notice>) {
    if |m.recent| < l.summaryTrigger then (m, [])
    else if !Usable(attempt) then (m, [SummaryFailed])
    else (m.(recent := [], summary := attempt.text), if saves then [] else [SaveFailed])
  }

  function AfterRecord(l: Limits, m: Memory, e: Exchange, attempt: Attempt, saves: bool): (Memory, seq<Notice>) {
    var (after, notices) := Summarised(l, Appended(l, m, e), attempt, saves);
    (after, Notices(m) + notices)
  }

  function AfterClear(m: Memory, saves: bool): (Memory, seq<Notice>) {
    (Memory([], "", None), if saves then [] else [ClearSaveFailed])
  }

  class Conversation {
    const limits: Limits
    var recent: seq<Exchange>
    var summary: string
    var notice: Option<Notice>

    function State(): Memory
      reads this
    {
      Memory(recent, summary, notice)
    }

    constructor (limits: Limits, file: File)
      requires ValidLimits(limits)
      ensures this.limits == limits && State() == Loaded(file)
    {
      this.limits := limits;
      recent, summary, notice := [], "", None;
      new;
      match file {
        case Missing =>
        case Unreadable => notice := Some(LoadFailed);
        case Stored(version, text) =>
          if version != 1 || |text| > MAX_SUMMARY_CHARS {
            notice := Some(LoadFailed);
          } else {
            summary := text;
          }
      }
    }

    method TakeNotices() returns (notices: seq<Notice>)
      modifies this`notice
      ensures notices == Notices(old(State())) && notice == None
    {
      notices := if notice.Some? then [notice.value] else [];
      notice := None;
    }

    method Append(text: string, reply: string) returns (notices: seq<Notice>)
      modifies this`recent, this`notice
      ensures State() == Appended(limits, old(State()), Exchange(text, reply)) && notices == Notices(old(State()))
    {
      notices := TakeNotices();
      recent := recent + [Exchange(text, reply)];
      recent := LastOnes(recent, limits.recentTurns);
    }

    method Summarise(attempt: Attempt, saves: bool) returns (notices: seq<Notice>)
      modifies this`recent, this`summary
      ensures (State(), notices) == Summarised(limits, old(State()), attempt, saves)
    {
      if |recent| < limits.summaryTrigger {
        return [];
      }
      if !Usable(attempt) {
        return [SummaryFailed];
      }
      summary := attempt.text;
      recent := [];
      return if saves then [] else [SaveFailed];
    }

    method Record(text: string, reply: string, attempt: Attempt, saves: bool) returns (notices: seq<Notice>)
      modifies this
      ensures (State(), notices) == AfterRecord(limits, old(State()), Exchange(text, reply), attempt, saves)
    {
      notices := Append(text, reply);
      var more := Summarise(attempt, saves);
      notices := notices + more;
    }

    method Clear(saves: bool) returns (notices: seq<Notice>)
      modifies this
      ensures (State(), notices) == AfterClear(old(State()), saves)
    {
      recent, summary, notice := [], "", None;
      notices := if saves then [] else [ClearSaveFailed];
    }
  }

  // ---------------------------------------------------------------- runs

  datatype Op = Record(e: Exchange, attempt: Attempt, saves: bool) | Clear(saves: bool)

  /** One failed summary: the exchanges it was shown, as an interval of those recorded since the last reset. */
  datatype FailedTry = FailedTry(from: nat, to: nat, shown: seq<Exchange>)

  /** The memory together with what was recorded, and tried in vain, since the last summary or clear. */
  datatype History = History(memory: Memory, since: seq<Exchange>, tries: seq<FailedTry>)

  ghost function AfterOp(l: Limits, h: History, op: Op): History
    requires ValidLimits(l)
  {
    match op
    case Clear(saves) => History(AfterClear(h.memory, saves).0, [], [])
    case Record(e, attempt, saves) =>
      var m := AfterRecord(l, h.memory, e, attempt, saves).0;
      var shown := LastOnes(h.memory.recent + [e], l.recentTurns);
      var since := h.since + [e];
      if |shown| < l.summaryTrigger then History(m, since, h.tries)
      else if Usable(attempt) then History(m, [], [])
      else History(m, since, h.tries + [FailedTry(Most(0, |since| - |shown|), |since|, shown)])
  }

  ghost function AfterOps(l: Limits, start: Memory, ops: seq<Op>): History
    requires ValidLimits(l)
  {
    if ops == [] then History(start, [], [])
    else AfterOp(l, AfterOps(l, start, ops[..|ops| - 1]), ops[|ops| - 1])
  }

  function Least(a: int, b: int): int {
    if a < b then a else b
  }

  function Most(a: int, b: int): int {
    if a < b then b else a
  }

  ghost function Covering(tries: seq<FailedTry>, k: nat): nat {
    if tries == [] then 0
    else
      var t := tries[|tries| - 1];
      Covering(tries[..|tries| - 1], k) + if t.from <= k < t.to then 1 else 0
  }

  /** Among the first `n` exchanges, each from the trigger on brings one try, showing the last few. */
  ghost predicate TriesSoFar(l: Limits, h: History) {
    && h.memory.recent == LastOnes(h.since, l.recentTurns)
    && |h.tries| == Most(0, |h.since| - l.summaryTrigger + 1)
    && TriesFit(l, h.since, h.tries)
  }

  lemma {:induction false} RunShape(l: Limits, start: Memory, ops: seq<Op>)
    requires ValidLimits(l) && start.recent == []
    ensures TriesSoFar(l, AfterOps(l, start, ops))
  {
    if ops != [] {
      var before := AfterOps(l, start, ops[..|ops| - 1]);
      RunShape(l, start, ops[..|ops| - 1]);
      StepShape(l, before, ops[|ops| - 1]);
    }
  }

  /** The list stays the newest part, unless this very record brings a usable summary. */
  lemma RecordKeepsNewest(l: Limits, h: History, e: Exchange, attempt: Attempt, saves: bool)
    requires ValidLimits(l) && h.memory.recent == LastOnes(h.since, l.recentTurns)
    ensures var shown := LastOnes(h.since + [e], l.recentTurns);
            && LastOnes(h.memory.recent + [e], l.recentTurns) == shown
            && AfterRecord(l, h.memory, e, attempt, saves).0.recent
               == if |shown| >= l.summaryTrigger && Usable(attempt) then [] else shown
  {
    LastOfLonger(h.since, e, l.recentTurns);
  }

  lemma LastOnesAreASlice(s: seq<Exchange>, n: nat)
    ensures var from := |s| - Least(|s|, n);
            |LastOnes(s, n)| == Least(|s|, n) && LastOnes(s, n) == s[from..|s|]
  {
  }

  lemma OneMoreTry(l: Limits, since: seq<Exchange>, tries: seq<FailedTry>, newest: FailedTry)
    requires TriesFit(l, since, tries) && TryFits(l, since, newest, |tries|)
    ensures TriesFit(l, since, tries + [newest])
  {
    assert (tries + [newest])[..|tries|] == tries;
  }

  lemma NewestTryFits(l: Limits, since: seq<Exchange>, tries: seq<FailedTry>)
    requires ValidLimits(l) && TriesFit(l, since, tries) && |since| == l.summaryTrigger + |tries|
    ensures var shown := LastOnes(since, l.recentTurns);
            && |shown| == Least(|since|, l.recentTurns)
            && TriesFit(l, since, tries + [FailedTry(Most(0, |since| - |shown|), |since|, shown)])
  {
    var shown := LastOnes(since, l.recentTurns);
    LastOnesAreASlice(since, l.recentTurns);
    OneMoreTry(l, since, tries, FailedTry(Most(0, |since| - |shown|), |since|, shown));
  }

  /** A usable summary empties the history; otherwise the exchange joins it, with a failed try from the trigger on. */
  lemma RecordCases(l: Limits, h: History, e: Exchange, attempt: Attempt, saves: bool)
    requires ValidLimits(l) && h.memory.recent == LastOnes(h.since, l.recentTurns)
    ensures var h' := AfterOp(l, h, Record(e, attempt, saves));
            var since := h.since + [e];
            var shown := LastOnes(since, l.recentTurns);
            if |since| >= l.summaryTrigger && Usable(attempt)
            then h'.memory.recent == [] && h'.since == [] && h'.tries == []
            else
              && h'.memory.recent == shown && h'.since == since
              && h'.tries == h.tries + if |since| < l.summaryTrigger then []
                                       else [FailedTry(Most(0, |since| - |shown|), |since|, shown)]
  {
    RecordKeepsNewest(l, h, e, attempt, saves);
  }

  lemma TriesGrow(l: Limits, since: seq<Exchange>, e: Exchange, tries: seq<FailedTry>)
    requires ValidLimits(l) && |tries| == Most(0, |since| - l.summaryTrigger + 1) && TriesFit(l, since, tries)
    ensures var longer := since + [e];
            var shown := LastOnes(longer, l.recentTurns);
            if |longer| < l.summaryTrigger then TriesFit(l, longer, tries)
            else TriesFit(l, longer, tries + [FailedTry(Most(0, |longer| - |shown|), |longer|, shown)])
  {
    EarlierTries(l, since, tries, e);
    if |since| + 1 >= l.summaryTrigger {
      NewestTryFits(l, since + [e], tries);
    }
  }

  lemma RecordShape(l: Limits, h: History, e: Exchange, attempt: Attempt, saves: bool)
    requires ValidLimits(l) && TriesSoFar(l, h)
    ensures TriesSoFar(l, AfterOp(l, h, Record(e, attempt, saves)))
  {
    RecordCases(l, h, e, attempt, saves);
    TriesGrow(l, h.since, e, h.tries);
  }

  lemma StepShape(l: Limits, h: History, op: Op)
    requires ValidLimits(l) && TriesSoFar(l, h)
    ensures TriesSoFar(l, AfterOp(l, h, op))
  {
    match op
    case Record(e, attempt, saves) => RecordShape(l, h, e, attempt, saves);
    case Clear(_) =>
  }

  /** Try number `n` came with exchange number trigger + n, and showed the newest ones up to it. */
  ghost predicate TryFits(l: Limits, since: seq<Exchange>, t: FailedTry, n: nat) {
    && t.to == l.summaryTrigger + n <= |since|
    && t.from == t.to - Least(t.to, l.recentTurns)
    && t.shown == since[t.from..t.to]
  }

  ghost predicate TriesFit(l: Limits, since: seq<Exchange>, tries: seq<FailedTry>) {
    tries == []
    || (TryFits(l, since, tries[|tries| - 1], |tries| - 1) && TriesFit(l, since, tries[..|tries| - 1]))
  }

  lemma {:induction false} TryAt(l: Limits, since: seq<Exchange>, tries: seq<FailedTry>, j: nat)
    requires TriesFit(l, since, tries) && j < |tries|
    ensures TryFits(l, since, tries[j], j)
  {
    if j < |tries| - 1 {
      TryAt(l, since, tries[..|tries| - 1], j);
    }
  }

  /** What was shown earlier is still where it was. */
  lemma {:induction false} EarlierTries(l: Limits, since: seq<Exchange>, tries: seq<FailedTry>, e: Exchange)
    requires TriesFit(l, since, tries)
    ensures TriesFit(l, since + [e], tries)
  {
    if tries != [] {
      var t := tries[|tries| - 1];
      assert (since + [e])[t.from..t.to] == since[t.from..t.to];
      EarlierTries(l, since, tries[..|tries| - 1], e);
    }
  }

  /** Cutting before or after appending makes no difference. */
  lemma LastOfLonger(s: seq<Exchange>, e: Exchange, n: nat)
    requires n > 0
    ensures LastOnes(LastOnes(s, n) + [e], n) == LastOnes(s + [e], n)
  {
    if |s| > n {
      var r := s[|s| - n..];
      assert (r + [e])[1..] == r[1..] + [e];
      assert (s + [e])[|s| + 1 - n..] == s[|s| + 1 - n..] + [e];
      assert r[1..] == s[|s| + 1 - n..];
    }
  }

  /** The recent list is the newest part of what was recorded since the last successful summary or clear. */
  lemma RecentIsSuffix(l: Limits, start: Memory, ops: seq<Op>)
    requires ValidLimits(l) && start.recent == []
    ensures var h := AfterOps(l, start, ops);
            && |h.memory.recent| == Least(|h.since|, l.recentTurns)
            && h.memory.recent == h.since[|h.since| - |h.memory.recent|..]
  {
    RunShape(l, start, ops);
  }

  lemma {:induction false} CoveringCount(l: Limits, since: seq<Exchange>, tries: seq<FailedTry>, k: nat)
    requires ValidLimits(l) && TriesFit(l, since, tries)
    ensures Covering(tries, k)
         == Most(0, Least(l.summaryTrigger + |tries| - 1, k + l.recentTurns) - Most(k + 1, l.summaryTrigger) + 1)
  {
    if tries != [] {
      CoveringCount(l, since, tries[..|tries| - 1], k);
    }
  }

  /**
   An exchange the length limit has pushed out was shown to exactly min(recent, k + recent - trigger + 1) failed
   summaries, k being its position since the last reset; that is never fewer than recent - trigger + 1.
   */
  lemma PushedOutWasOffered(l: Limits, start: Memory, ops: seq<Op>, k: nat)
    requires ValidLimits(l) && start.recent == []
    requires var h := AfterOps(l, start, ops); k < |h.since| - |h.memory.recent|
    ensures var h := AfterOps(l, start, ops);
            && Covering(h.tries, k) == Least(l.recentTurns, k + l.recentTurns - l.summaryTrigger + 1)
            && Covering(h.tries, k) >= l.recentTurns - l.summaryTrigger + 1
            && (forall j :: 0 <= j < |h.tries| && h.tries[j].from <= k < h.tries[j].to ==>
                  h.since[k] in h.tries[j].shown)
  {
    RunShape(l, start, ops);
    var h := AfterOps(l, start, ops);
    CoveringCount(l, h.since, h.tries, k);
    forall j | 0 <= j < |h.tries| && h.tries[j].from <= k < h.tries[j].to
      ensures h.since[k] in h.tries[j].shown
    {
      TryAt(l, h.since, h.tries, j);
      CoveredIsShown(l, h.since, h.tries[j], j, k);
    }
  }

  lemma CoveredIsShown(l: Limits, since: seq<Exchange>, t: FailedTry, n: nat, k: nat)
    requires TryFits(l, since, t, n) && t.from <= k < t.to
    ensures since[k] in t.shown
  {
    assert t.shown[k - t.from] == since[k];
  }

  /** The summary never outgrows its limit, so a restart after a save finds it again. */
  lemma {:induction false} SummarySurvivesRestart(l: Limits, file: File, ops: seq<Op>)
    requires ValidLimits(l)
    ensures var m := AfterOps(l, Loaded(file), ops).memory;
            |m.summary| <= MAX_SUMMARY_CHARS && Loaded(Saved(m)) == Memory([], m.summary, None)
  {
    if ops != [] {
      SummarySurvivesRestart(l, file, ops[..|ops| - 1]);
    }
  }

  // ---------------------------------------------------------------- what is in the memory, from the operations alone

  /** A text that may become the summary: some character that is not blank, and at most 4096 characters. */
  ghost predicate IsSummary(a: Attempt) {
    a.Text? && |a.text| <= 4096 && exists k :: 0 <= k < |a.text| && !IsStripped(a.text[k])
  }

  /** The exchanges recorded since the memory was last cleared or last summarised with success. */
  ghost function SinceReset(l: Limits, ops: seq<Op>): seq<Exchange> {
    if ops == [] || ops[|ops| - 1].Clear? then []
    else
      var last, since := ops[|ops| - 1], SinceReset(l, ops[..|ops| - 1]) + [ops[|ops| - 1].e];
      if |since| >= l.summaryTrigger && IsSummary(last.attempt) then [] else since
  }

  /** The text of the latest summary that came when enough exchanges had been recorded, unless it was cleared. */
  ghost function LatestSummary(l: Limits, start: string, ops: seq<Op>): string {
    if ops == [] then start
    else
      var before, last := ops[..|ops| - 1], ops[|ops| - 1];
      if last.Clear? then ""
      else if |SinceReset(l, before)| + 1 >= l.summaryTrigger && IsSummary(last.attempt) then last.attempt.text
      else LatestSummary(l, start, before)
  }

  lemma UsableIsSummary(a: Attempt)
    ensures Usable(a) <==> IsSummary(a)
  {
  }

  lemma SummaryStep(l: Limits, h: History, e: Exchange, attempt: Attempt, saves: bool)
    requires ValidLimits(l) && h.memory.recent == LastOnes(h.since, l.recentTurns)
    ensures var m := AfterOp(l, h, Record(e, attempt, saves)).memory;
            m.summary == if |h.since| + 1 >= l.summaryTrigger && Usable(attempt) then attempt.text else h.memory.summary
  {
    LastOfLonger(h.since, e, l.recentTurns);
  }

  /** Over every run the memory holds the latest summary and the newest exchanges since the last reset. */
  lemma {:induction false} MemoryIsUpToDate(l: Limits, start: Memory, ops: seq<Op>)
    requires ValidLimits(l) && start.recent == []
    ensures var h := AfterOps(l, start, ops);
            && h.memory.summary == LatestSummary(l, start.summary, ops)
            && h.since == SinceReset(l, ops)
            && h.memory.recent == LastOnes(SinceReset(l, ops), l.recentTurns)
  {
    RunShape(l, start, ops);
    if ops != [] {
      var before, last := AfterOps(l, start, ops[..|ops| - 1]), ops[|ops| - 1];
      MemoryIsUpToDate(l, start, ops[..|ops| - 1]);
      if last.Record? {
        UsableIsSummary(last.attempt);
        RecordCases(l, before, last.e, last.attempt, last.saves);
        SummaryStep(l, before, last.e, last.attempt, last.saves);
      }
    }
  }

  /** A notice from the start is handed out once; a failed summary or a failed save is told with its own record. */
  lemma NoticesAreTold(l: Limits, m: Memory, e: Exchange, attempt: Attempt, saves: bool)
    requires ValidLimits(l) && |m.recent| <= l.recentTurns
    ensures var (after, notices) := AfterRecord(l, m, e, attempt, saves);
            var due := |m.recent| + 1 >= l.summaryTrigger;
            && after.notice == None && |notices| <= 2
            && (m.notice.Some? ==> notices != [] && notices[0] == m.notice.value)
            && (m.notice.None? || m.notice.value == LoadFailed ==>
                  && (SummaryFailed in notices <==> due && !IsSummary(attempt))
                  && (SaveFailed in notices <==> due && IsSummary(attempt) && !saves))
  {
    UsableIsSummary(attempt);
  }
}
