/** The unbounded history the program only ever keeps a summary of.

    A log entry is the record the program appended for one decision together with the context
    (key status, mask, limits) in force when it was taken. `WindowAfter` replays a log; `Genuine`
    says that every record is the verdict of the documented admission rules on that replay. */
module AuditLog {
  import opened Base
  import opened Permissions
  import opened Accounts
  import opened Engine

  datatype LogEntry = LogEntry(record: AuditRecord, context: Context)
  type Log = seq<LogEntry>

  datatype Window = Window(startedAt: i64, used: u64)

  // ---------------------------------------------------------------- admission rules

  predicate Positive(limits: Limits) {
    limits.maxRequests > 0 && limits.windowSeconds > 0
  }

  predicate Authorized(context: Context, action: u8) {
    && context.active
    && ParseAction(action).Some?
    && RoleAllows(context.mask, ParseAction(action).value)
  }

  predicate Expired(w: Window, limits: Limits, now: i64) {
    now >= w.startedAt + limits.windowSeconds
  }

  /** The usage the quota check sees: zero once the window has run out. */
  function Rolled(w: Window, limits: Limits, now: i64): Window {
    if Expired(w, limits, now) then Window(now, 0) else w
  }

  function Verdict(c: Context, w: Window, action: u8, now: i64): DecisionReason {
    if !c.active then DecisionReason.KeyRevoked
    else if ParseAction(action).None? then InvalidAction
    else if !Authorized(c, action) then Unauthorized
    else if Rolled(w, c.limits, now).used >= c.limits.maxRequests then QuotaExceeded
    else Allowed
  }

  /** Only an admitted request moves the window. */
  function NextWindow(c: Context, w: Window, action: u8, now: i64): Window {
    if Verdict(c, w, action, now) == Allowed then
      var rolled := Rolled(w, c.limits, now);
      rolled.(used := rolled.used + 1)
    else w
  }

  // ---------------------------------------------------------------- replay

  function WindowAfter(t0: i64, log: Log): Window {
    if log == [] then Window(t0, 0)
    else
      var e := Last(log);
      NextWindow(e.context, WindowAfter(t0, Init(log)), e.record.action, e.record.timestamp)
  }

  ghost predicate GenuineEntry(position: nat, e: LogEntry, w: Window) {
    var r := e.record;
    var verdict := Verdict(e.context, w, r.action, r.timestamp);
    && Positive(e.context.limits)
    && ValidMask(e.context.mask)
    && r.sequence == position
    && r.allowed == (verdict == Allowed)
    && r.reason == verdict.Code()
    && r.quotaUsedAfter == NextWindow(e.context, w, r.action, r.timestamp).used
  }

  ghost predicate Genuine(t0: i64, log: Log) {
    log == [] ||
    (Genuine(t0, Init(log)) && GenuineEntry(|log|, Last(log), WindowAfter(t0, Init(log))))
  }

  /** Timestamps never go back, and none precedes initialization. */
  ghost predicate Monotone(t0: i64, log: Log) {
    && (forall i :: 0 <= i < |log| ==> t0 <= log[i].record.timestamp)
    && (forall i, j :: 0 <= i <= j < |log| ==> log[i].record.timestamp <= log[j].record.timestamp)
  }

  function CountAllowed(log: Log): nat {
    if log == [] then 0 else CountAllowed(Init(log)) + if Last(log).record.allowed then 1 else 0
  }

  function CountRejected(log: Log): nat {
    if log == [] then 0 else CountRejected(Init(log)) + if Last(log).record.allowed then 0 else 1
  }

  function Records(log: Log): seq<AuditRecord> {
    seq(|log|, i requires 0 <= i < |log| => log[i].record)
  }

  function LastRecords(log: Log, n: nat): seq<AuditRecord>
    requires n <= |log|
  {
    Records(log[|log| - n..])
  }

  // ---------------------------------------------------------------- what a summary of a log is

  datatype Summary = Summary(
    sequence: int, totalAllowed: int, totalRejected: int, window: Window,
    lastAction: u8, lastReason: u8, lastRequestAt: i64)

  function Summarize(t0: i64, log: Log): Summary {
    if log == [] then Summary(0, 0, 0, Window(t0, 0), 0, 0, 0)
    else
      var r := Last(log).record;
      Summary(|log|, CountAllowed(log), CountRejected(log), WindowAfter(t0, log),
              r.action, r.reason, r.timestamp)
  }

  function RuntimeSummary(rt: RuntimeState): Summary {
    Summary(rt.rollingSequence, rt.totalAllowed, rt.totalRejected,
            Window(rt.currentWindowStartedAt, rt.currentWindowUsed),
            rt.lastAction, rt.lastReason, rt.lastRequestAt)
  }

  function CheckpointSummary(cp: CheckpointState): Summary {
    Summary(cp.settledSequence, cp.totalAllowed, cp.totalRejected,
            Window(cp.currentWindowStartedAt, cp.currentWindowUsed),
            cp.lastAction, cp.lastReason, cp.lastRequestAt)
  }

  function Min(a: int, b: int): int {
    if a < b then a else b
  }

  /** A runtime mirrors a log: its counters summarize it, and its buffer is the unsettled tail,
      cut to the newest eight. */
  ghost predicate Mirrors(rt: RuntimeState, t0: i64, log: Log) {
    && RuntimeSummary(rt) == Summarize(t0, log)
    && rt.lastSettledSequence <= |log|
    && rt.rollingAudit == LastRecords(log, Min(MAX_RUNTIME_AUDIT_ITEMS, |log| - rt.lastSettledSequence))
  }

  ghost predicate Settled(cp: CheckpointState, t0: i64, log: Log) {
    && cp.settledSequence <= |log|
    && CheckpointSummary(cp) == Summarize(t0, log[..cp.settledSequence])
  }

  // ---------------------------------------------------------------- one decision

  lemma AppendInit(log: Log, e: LogEntry)
    ensures Init(log + [e]) == log && Last(log + [e]) == e
  {
  }

  lemma {:induction false} CountsAddUp(log: Log)
    ensures CountAllowed(log) + CountRejected(log) == |log|
  {
    if log == [] {
    } else {
      CountsAddUp(Init(log));
    }
  }

  function EntryOf(rt: RuntimeState, context: Context): LogEntry {
    LogEntry(LastDecision(rt), context)
  }

  lemma TailGrows(log: Log, e: LogEntry, settled: nat, audit: seq<AuditRecord>)
    requires settled <= |log|
    requires audit == LastRecords(log, Min(MAX_RUNTIME_AUDIT_ITEMS, |log| - settled))
    ensures Pushed(audit, e.record)
         == LastRecords(log + [e], Min(MAX_RUNTIME_AUDIT_ITEMS, |log| + 1 - settled))
  {
  }

  function WindowOf(rt: RuntimeState): Window {
    Window(rt.currentWindowStartedAt, rt.currentWindowUsed)
  }

  /** The runtime after recording a verdict with a given window. */
  ghost function Decided(rt: RuntimeState, w: Window, action: u8, reason: DecisionReason, now: i64): RuntimeState
    requires rt.totalAllowed + rt.totalRejected == rt.rollingSequence < MAX_U64
  {
    var allowed := reason == Allowed;
    var record := AuditRecord(rt.rollingSequence + 1, action, allowed, reason.Code(), now, w.used);
    rt.(rollingSequence := rt.rollingSequence + 1,
        totalAllowed := rt.totalAllowed + if allowed then 1 else 0,
        totalRejected := rt.totalRejected + if allowed then 0 else 1,
        currentWindowUsed := w.used, currentWindowStartedAt := w.startedAt,
        lastAction := action, lastReason := reason.Code(), lastRequestAt := now,
        rollingAudit := Pushed(rt.rollingAudit, record))
  }

  function WithWindow(rt: RuntimeState, w: Window): RuntimeState {
    rt.(currentWindowUsed := w.used, currentWindowStartedAt := w.startedAt)
  }

  /** Appending on whatever window the verdict left records that window and nothing else of it. */
  lemma AppendRecords(rt: RuntimeState, w: Window, action: u8, allowed: bool, reason: DecisionReason, now: i64)
    requires rt.totalAllowed + rt.totalRejected == rt.rollingSequence
    requires allowed == (reason == Allowed)
    ensures var r := AppendAudit(WithWindow(rt, w), action, allowed, reason, now);
      if rt.rollingSequence == MAX_U64 then r == Err(MathOverflow)
      else r == Ok(Decided(rt, w, action, reason, now))
  {
  }

  ghost predicate Overflows(rt: RuntimeState, c: Context, action: u8) {
    || rt.rollingSequence == MAX_U64
    || (Authorized(c, action) && rt.currentWindowStartedAt + c.limits.windowSeconds > MAX_I64)
  }

  /** `consume_request` takes the documented verdict and records it; it can fail in exactly two
      ways, a window end past the clock range and an exhausted sequence. Neither running total
      and not the window counter can be the cause. */
  lemma ConsumeTakesVerdict(rt: RuntimeState, c: Context, action: u8, now: i64)
    requires rt.totalAllowed + rt.totalRejected == rt.rollingSequence
    requires Positive(c.limits)
    ensures Overflows(rt, c, action) ==> Consume(rt, c, action, now) == Err(MathOverflow)
    ensures !Overflows(rt, c, action) ==>
      Consume(rt, c, action, now)
      == Ok(Decided(rt, NextWindow(c, WindowOf(rt), action, now), action, Verdict(c, WindowOf(rt), action, now), now))
  {
    hide AppendAudit, Decided, RoleAllows;
    var w := WindowOf(rt);
    var verdict := Verdict(c, w, action, now);
    if !Authorized(c, action) {
      AppendRecords(rt, w, action, false, verdict, now);
    } else {
      var rolled := Rolled(w, c.limits, now);
      if verdict == Allowed {
        AppendRecords(rt, rolled.(used := rolled.used + 1), action, true, Allowed, now);
      } else {
        AppendRecords(rt, rolled, action, false, QuotaExceeded, now);
      }
    }
  }

  lemma SummaryAddsUp(t0: i64, log: Log)
    ensures var s := Summarize(t0, log);
      && s.totalAllowed + s.totalRejected == s.sequence == |log|
      && s.totalAllowed == CountAllowed(log)
      && s.totalRejected == CountRejected(log)
      && s.window == WindowAfter(t0, log)
  {
    CountsAddUp(log);
  }

  lemma {:induction false} UsedIsAllowed(t0: i64, log: Log)
    requires Genuine(t0, log)
    ensures WindowAfter(t0, log).used <= CountAllowed(log)
  {
    if log == [] {
    } else {
      UsedIsAllowed(t0, Init(log));
    }
  }

  /** Appending any record that carries the verdict of the replayed window keeps a log genuine. */
  lemma VerdictKeepsGenuine(t0: i64, log: Log, e: LogEntry)
    requires Genuine(t0, log)
    requires GenuineEntry(|log| + 1, e, WindowAfter(t0, log))
    ensures Genuine(t0, log + [e])
    ensures WindowAfter(t0, log + [e])
         == NextWindow(e.context, WindowAfter(t0, log), e.record.action, e.record.timestamp)
  {
  }

  lemma RecordKeepsMirror(rt: RuntimeState, t0: i64, log: Log, e: LogEntry, w: Window, reason: DecisionReason)
    requires Mirrors(rt, t0, log)
    requires rt.totalAllowed + rt.totalRejected == rt.rollingSequence < MAX_U64
    requires var r := e.record;
      r == AuditRecord(|log| + 1, r.action, reason == Allowed, reason.Code(), r.timestamp, w.used)
    requires w == WindowAfter(t0, log + [e])
    ensures Mirrors(Decided(rt, w, e.record.action, reason, e.record.timestamp), t0, log + [e])
  {
    AppendInit(log, e);
    SummaryAddsUp(t0, log);
    TailGrows(log, e, rt.lastSettledSequence, rt.rollingAudit);
  }

  /** One request against a runtime that mirrors a genuine log: the result mirrors the log extended
      by exactly the decision taken, and that log is genuine again. */
  lemma ConsumeExtendsLog(rt: RuntimeState, rt': RuntimeState, t0: i64, log: Log, c: Context, action: u8, now: i64)
    requires Mirrors(rt, t0, log) && Genuine(t0, log)
    requires Positive(c.limits) && ValidMask(c.mask)
    requires Consume(rt, c, action, now) == Ok(rt')
    ensures var log' := log + [EntryOf(rt', c)];
      Mirrors(rt', t0, log') && Genuine(t0, log')
    ensures var r := LastDecision(rt');
      r.action == action && r.timestamp == now && r.sequence == |log| + 1
  {
    SummaryAddsUp(t0, log);
    ConsumeTakesVerdict(rt, c, action, now);
    var w := WindowOf(rt);
    var e := EntryOf(rt', c);
    VerdictKeepsGenuine(t0, log, e);
    RecordKeepsMirror(rt, t0, log, e, NextWindow(c, w, action, now), Verdict(c, w, action, now));
  }
}
