/** The operator's health summary (`client/gatekeeper.ts`) and reconcile procedure
    (`scripts/reconcile-runtime.ts`), against the protocol they observe and drive. */
module Health {
  import opened Base
  import opened Accounts
  import opened Engine
  import opened AuditLog
  import opened StateMachine
  import opened Invariants
  import opened Guarantees
  import opened Instructions
  import RateLimit
  import Ledger

  // ---------------------------------------------------------------- the summary

  datatype Recommendation = NoAction | CommitNow | UndelegateAndSettle | SettleNow

  datatype Note = IsDelegatedNote | UnsettledNote | AlignedNote | BufferFullNote

  datatype RuntimeHealth = RuntimeHealth(
    delegated: bool, rollingSequence: nat, settledSequence: nat, drift: nat, rollingAuditEntries: nat,
    currentWindowUsed: nat, totalAllowed: nat, totalRejected: nat,
    recommendedAction: Recommendation, notes: seq<Note>)

  predicate Readable(rt: RuntimeState, cp: CheckpointState) {
    && rt.rollingSequence < UNSAFE && cp.settledSequence < UNSAFE && rt.currentWindowUsed < UNSAFE
    && rt.totalAllowed < UNSAFE && rt.totalRejected < UNSAFE
  }

  function Drift(rt: RuntimeState, cp: CheckpointState): nat {
    if rt.rollingSequence > cp.settledSequence then rt.rollingSequence - cp.settledSequence else 0
  }

  function Advice(rt: RuntimeState, cp: CheckpointState): Recommendation {
    if rt.isDelegated then (if Drift(rt, cp) > 0 then UndelegateAndSettle else CommitNow)
    else if Drift(rt, cp) > 0 then SettleNow
    else NoAction
  }

  /** `summarizeRuntimeHealth`; `None` where a conversion throws. */
  method SummarizeRuntimeHealth(rt: RuntimeState, cp: CheckpointState) returns (h: Option<RuntimeHealth>)
    ensures h.Some? <==>
      && rt.rollingSequence < 0x20_0000_0000_0000 && cp.settledSequence < 0x20_0000_0000_0000
      && rt.currentWindowUsed < 0x20_0000_0000_0000 && rt.totalAllowed < 0x20_0000_0000_0000
      && rt.totalRejected < 0x20_0000_0000_0000
    ensures h.Some? ==>
      var r := h.value;
      && r.delegated == rt.isDelegated && r.drift == Drift(rt, cp)
      && r.rollingSequence == rt.rollingSequence && r.settledSequence == cp.settledSequence
      && r.rollingAuditEntries == |rt.rollingAudit| && r.currentWindowUsed == rt.currentWindowUsed
      && r.totalAllowed == rt.totalAllowed && r.totalRejected == rt.totalRejected
      && r.recommendedAction == Advice(rt, cp)
      && (IsDelegatedNote in r.notes <==> rt.isDelegated)
      && (UnsettledNote in r.notes <==> !rt.isDelegated && r.drift > 0)
      && (AlignedNote in r.notes <==> !rt.isDelegated && r.drift == 0)
      && (BufferFullNote in r.notes <==> |rt.rollingAudit| >= 8)
  {
    if !(rt.rollingSequence < UNSAFE && cp.settledSequence < UNSAFE) {
      return None;
    }
    var drift := if rt.rollingSequence - cp.settledSequence > 0 then rt.rollingSequence - cp.settledSequence else 0;
    var notes := [];
    var recommended := NoAction;
    if rt.isDelegated {
      notes := notes + [IsDelegatedNote];
      recommended := if drift > 0 then UndelegateAndSettle else CommitNow;
    } else if drift > 0 {
      notes := notes + [UnsettledNote];
      recommended := SettleNow;
    } else {
      notes := notes + [AlignedNote];
    }
    if |rt.rollingAudit| >= 8 {
      notes := notes + [BufferFullNote];
    }
    if !(rt.currentWindowUsed < UNSAFE && rt.totalAllowed < UNSAFE && rt.totalRejected < UNSAFE) {
      return None;
    }
    return Some(RuntimeHealth(rt.isDelegated, rt.rollingSequence, cp.settledSequence, drift, |rt.rollingAudit|,
                              rt.currentWindowUsed, rt.totalAllowed, rt.totalRejected, recommended, notes));
  }

  // ---------------------------------------------------------------- what it says about the protocol

  /** On a coherent read of a reachable state: the summary exists exactly while the sequence is below
      2^53, drift is rolling minus settled with nothing to clamp, and the buffer shows min(8, drift)
      entries. Unsettled entries have been evicted exactly when drift exceeds 8, so the source's note
      that says so, which appears from 8 on, is wrong exactly when drift is 8. */
  lemma HealthIsCoherent(w: World, k: Pubkey)
    requires Reachable(w) && HasRuntime(w, k)
    ensures var rt, cp := LiveOf(w, k), CheckpointOf(w, k);
      var drift := Drift(rt, cp);
      var kept := rt.rollingAudit;
      && (Readable(rt, cp) <==> rt.rollingSequence < UNSAFE)
      && cp.settledSequence <= rt.rollingSequence && drift == rt.rollingSequence - cp.settledSequence
      && |kept| == Min(8, drift)
      && (|kept| < drift <==> drift > 8)
      && ((|kept| >= 8 && !(|kept| < drift)) <==> drift == 8)
  {
    hide Inv, Genuine, Mirrors;
    RuntimeIsExact(w, k);
    CheckpointIsExact(w, k);
    ReachableInv(w);
    LiveMirrors(w, k);
    UsedIsAllowed(StartOf(w, k), LogOf(w, k));
  }

  /** A stale read, of base or of any snapshot still in flight, never reports more drift than there is. */
  lemma StaleReadsNeverOverReport(w: World, k: Pubkey)
    requires Reachable(w) && HasRuntime(w, k)
    ensures Drift(BaseOf(w, k), CheckpointOf(w, k)) <= Drift(LiveOf(w, k), CheckpointOf(w, k))
    ensures InSession(w, k) ==>
      forall s :: s in w.store.sessions[QuotaRuntimePda(k)].inFlight ==>
        Drift(s.state, CheckpointOf(w, k)) <= Drift(LiveOf(w, k), CheckpointOf(w, k))
  {
    hide Inv, Genuine, Mirrors;
    NothingIsLost(w, k);
  }

  // ---------------------------------------------------------------- the reconcile procedure

  datatype Mode = Status | CommitOnly | UndelegateThenSettle | SettleIfSafe

  /** `resolveMode`; `None` where it throws. */
  function ResolveMode(raw: Option<string>): Option<Mode> {
    match raw
    case None => Some(Status)
    case Some(text) =>
      if text == "status" then Some(Status)
      else if text == "commit-only" then Some(CommitOnly)
      else if text == "undelegate-and-settle" then Some(UndelegateThenSettle)
      else if text == "settle-if-safe" then Some(SettleIfSafe)
      else None
  }

  /** What the procedure does not control: whether a router is configured, which copy each routed read gets,
      and how many snapshots land on base at each of its waits: between the first read and the first
      instruction, between that instruction and the second read, and between the second read and the
      settlement. */
  datatype Surroundings = Surroundings(
    routed: bool, firstRead: Layer, early: nat, midway: nat, secondRead: Layer, late: nat, now: i64)

  /** Who runs it on which key. */
  datatype Operator = Operator(authority: Pubkey, organization: Pubkey, apiKey: Pubkey)

  function ReadAt(w: World, k: Pubkey, layer: Layer): RuntimeState
    requires HasRuntime(w, k)
  {
    if layer == Rollup then LiveOf(w, k) else BaseOf(w, k)
  }

  /** `fetchRuntimeAccount`: without a router every read is a read of base. */
  function Fetch(w: World, k: Pubkey, e: Surroundings, layer: Layer): RuntimeState
    requires HasRuntime(w, k)
  {
    ReadAt(w, k, if e.routed then layer else BaseLayer)
  }

  function LandEvent(k: Pubkey, now: i64): Event {
    Event(Deliver(QuotaRuntimePda(k)), now)
  }

  function CommitEvent(o: Operator, now: i64): Event {
    Event(CommitQuotaRuntime(o.authority, o.organization, o.apiKey, QuotaRuntimePda(o.apiKey)), now)
  }

  function UndelegateEvent(o: Operator, now: i64): Event {
    Event(CommitAndUndelegateQuotaRuntime(o.authority, o.organization, o.apiKey, QuotaRuntimePda(o.apiKey)), now)
  }

  function SettleEvent(o: Operator, now: i64): Event {
    Event(SettleRuntimeCheckpoint(o.authority, o.organization, o.apiKey, QuotaRuntimePda(o.apiKey),
                                  AuditCheckpointPda(o.apiKey)), now)
  }

  function Landed(w: World, k: Pubkey, n: nat, now: i64): World
    decreases n
  {
    if n == 0 then w else Landed(Apply(w, LandEvent(k, now)), k, n - 1, now)
  }

  /** Where a run of `undelegate-and-settle` leaves the world, and whether it ends without throwing. */
  datatype Reconciled = Reconciled(world: World, completed: bool)

  function SettleStep(w: World, o: Operator, now: i64): Reconciled {
    Reconciled(Apply(w, SettleEvent(o, now)), Step(w, SettleEvent(o, now)).Ok?)
  }

  function SecondHalf(w: World, o: Operator, e: Surroundings): Reconciled {
    var k := o.apiKey;
    if !HasRuntime(w, k) then Reconciled(w, false)
    else
      var rt, cp := Fetch(w, k, e, e.secondRead), CheckpointOf(w, k);
      if !Readable(rt, cp) || rt.isDelegated then Reconciled(w, false)
      else
        var landed := Landed(w, k, e.late, e.now);
        if Drift(rt, cp) > 0 then SettleStep(landed, o, e.now) else Reconciled(landed, true)
  }

  function UndelegateAndSettleRun(w: World, o: Operator, e: Surroundings): Reconciled {
    var k := o.apiKey;
    if !HasRuntime(w, k) then Reconciled(w, false)
    else
      var rt := Fetch(w, k, e, e.firstRead);
      if !Readable(rt, CheckpointOf(w, k)) || (rt.isDelegated && !e.routed) then Reconciled(w, false)
      else
        var early := Landed(w, k, e.early, e.now);
        if rt.isDelegated && Step(early, UndelegateEvent(o, e.now)).Err? then Reconciled(early, false)
        else
          var sent := if rt.isDelegated then Apply(early, UndelegateEvent(o, e.now)) else early;
          SecondHalf(Landed(sent, k, e.midway, e.now), o, e)
  }

  function CommitOnlyRun(w: World, o: Operator, e: Surroundings): Reconciled {
    var k := o.apiKey;
    if !HasRuntime(w, k) then Reconciled(w, false)
    else
      var rt := Fetch(w, k, e, e.firstRead);
      if !Readable(rt, CheckpointOf(w, k)) || !rt.isDelegated || !e.routed then Reconciled(w, false)
      else
        var landed := Landed(w, k, e.early, e.now);
        Reconciled(Apply(landed, CommitEvent(o, e.now)), Step(landed, CommitEvent(o, e.now)).Ok?)
  }

  function SettleIfSafeRun(w: World, o: Operator, e: Surroundings): Reconciled {
    var k := o.apiKey;
    if !HasRuntime(w, k) then Reconciled(w, false)
    else
      var rt, cp := Fetch(w, k, e, e.firstRead), CheckpointOf(w, k);
      if !Readable(rt, cp) || rt.isDelegated then Reconciled(w, false)
      else
        var landed := Landed(w, k, e.early, e.now);
        if Drift(rt, cp) == 0 then Reconciled(landed, true) else SettleStep(landed, o, e.now)
  }

  /** `main` up to its closing read. */
  function ReconcileRun(w: World, mode: Mode, o: Operator, e: Surroundings): Reconciled {
    match mode
    case Status =>
      var k := o.apiKey;
      Reconciled(w, HasRuntime(w, k) && Readable(Fetch(w, k, e, e.firstRead), CheckpointOf(w, k)))
    case CommitOnly => CommitOnlyRun(w, o, e)
    case UndelegateThenSettle => UndelegateAndSettleRun(w, o, e)
    case SettleIfSafe => SettleIfSafeRun(w, o, e)
  }

  // ---------------------------------------------------------------- its steps

  /** The operator's key exists and the operator signs for its organization. */
  ghost predicate MayReconcile(w: World, o: Operator) {
    && HasRuntime(w, o.apiKey)
    && o.apiKey in w.store.apiKeys && w.store.apiKeys[o.apiKey].organization == o.organization
    && o.organization in w.store.organizations && w.store.organizations[o.organization].authority == o.authority
  }

  /** Everything but delegation and landing is as before. */
  ghost predicate OnlyMoved(w: World, w': World, o: Operator)
    requires HasRuntime(w, o.apiKey)
  {
    var k := o.apiKey;
    && HasRuntime(w', k) && LogOf(w', k) == LogOf(w, k) && CheckpointOf(w', k) == CheckpointOf(w, k)
    && w'.store.gateway == w.store.gateway && w'.store.organizations == w.store.organizations
    && w'.store.roles == w.store.roles && w'.store.apiKeys == w.store.apiKeys
    && w'.store.policies == w.store.policies
  }

  /** Landings still needed before base is up to date with everything sent. */
  function Pending(w: World, k: Pubkey): nat {
    if InSession(w, k) then |SessionOf(w, k).inFlight| else 0
  }

  lemma UndelegateCloses(w: World, o: Operator, now: i64)
    requires Inv(w) && MayReconcile(w, o)
    ensures Step(w, UndelegateEvent(o, now)).Ok? <==> InSession(w, o.apiKey) && !SessionOf(w, o.apiKey).closing
    ensures Step(w, UndelegateEvent(o, now)).Ok? ==>
      var w' := Apply(w, UndelegateEvent(o, now));
      && Inv(w') && OnlyMoved(w, w', o) && InSession(w', o.apiKey) && SessionOf(w', o.apiKey).closing
      && LiveOf(w', o.apiKey) == Undelegated(LiveOf(w, o.apiKey))
      && Pending(w', o.apiKey) == Pending(w, o.apiKey) + 1
  {
    hide Inv;
    OwnerFacts(w, o.apiKey);
    if InSession(w, o.apiKey) { SessionFacts(w, o.apiKey); }
    if Step(w, UndelegateEvent(o, now)).Ok? { InvKept(w, UndelegateEvent(o, now)); }
  }

  lemma CommitSends(w: World, o: Operator, now: i64)
    requires Inv(w) && MayReconcile(w, o)
    ensures Step(w, CommitEvent(o, now)).Ok? <==> InSession(w, o.apiKey) && !SessionOf(w, o.apiKey).closing
    ensures Step(w, CommitEvent(o, now)).Ok? ==>
      var w' := Apply(w, CommitEvent(o, now));
      && Inv(w') && OnlyMoved(w, w', o) && InSession(w', o.apiKey)
      && LiveOf(w', o.apiKey) == LiveOf(w, o.apiKey) && BaseOf(w', o.apiKey) == BaseOf(w, o.apiKey)
      && SessionOf(w', o.apiKey).inFlight != [] && Last(SessionOf(w', o.apiKey).inFlight).state == LiveOf(w, o.apiKey)
  {
    hide Inv;
    OwnerFacts(w, o.apiKey);
    if InSession(w, o.apiKey) { SessionFacts(w, o.apiKey); }
    if Step(w, CommitEvent(o, now)).Ok? { InvKept(w, CommitEvent(o, now)); }
  }

  /** What `n` landings do: base catches up and, if the session is being closed and nothing is left in
      flight, owns the account again; the copy that requests act on stays the same. */
  ghost predicate AfterLandings(w: World, w': World, o: Operator, n: nat)
    requires HasRuntime(w, o.apiKey)
  {
    var k := o.apiKey;
    && OnlyMoved(w, w', o) && LiveOf(w', k) == LiveOf(w, k)
    && Pending(w', k) == (if Pending(w, k) <= n then 0 else Pending(w, k) - n)
    && (InSession(w', k) <==> InSession(w, k) && (Closing(w, k) ==> n < Pending(w, k)))
    && (InSession(w', k) ==> (Closing(w', k) <==> Closing(w, k)))
  }

  lemma LandOne(w: World, o: Operator, now: i64)
    requires Inv(w) && HasRuntime(w, o.apiKey)
    ensures Inv(Apply(w, LandEvent(o.apiKey, now)))
    ensures AfterLandings(w, Apply(w, LandEvent(o.apiKey, now)), o, 1)
  {
    hide Inv;
    var k := o.apiKey;
    InvKept(w, LandEvent(k, now));
    if InSession(w, k) { SessionFacts(w, k); }
  }

  lemma {:induction false} LandMany(w: World, o: Operator, n: nat, now: i64)
    requires Inv(w) && HasRuntime(w, o.apiKey)
    ensures Inv(Landed(w, o.apiKey, n, now))
    ensures AfterLandings(w, Landed(w, o.apiKey, n, now), o, n)
    decreases n
  {
    hide Inv, Apply;
    if InSession(w, o.apiKey) { SessionFacts(w, o.apiKey); }
    if n == 0 {
    } else {
      LandOne(w, o, now);
      LandMany(Apply(w, LandEvent(o.apiKey, now)), o, n - 1, now);
    }
  }

  /** Settlement needs the account back on base and room in the settlement counter, and nothing else. */
  lemma SettleWorks(w: World, o: Operator, now: i64)
    requires Inv(w) && MayReconcile(w, o)
    ensures Step(w, SettleEvent(o, now)).Ok?
       <==> !InSession(w, o.apiKey) && w.store.organizations[o.organization].settlementCount < MAX_U64
    ensures var w' := Apply(w, SettleEvent(o, now));
      && HasRuntime(w', o.apiKey) && LogOf(w', o.apiKey) == LogOf(w, o.apiKey)
      && (InSession(w', o.apiKey) <==> InSession(w, o.apiKey))
      && (Step(w, SettleEvent(o, now)).Ok? ==>
            CheckpointOf(w', o.apiKey).settledSequence
            == LiveOf(w, o.apiKey).rollingSequence == LiveOf(w', o.apiKey).rollingSequence)
  {
    hide Inv;
    OwnerFacts(w, o.apiKey);
  }

  // ---------------------------------------------------------------- the procedure

  /** Landings needed after the first instruction: what was in flight, less what landed before it, and
      the snapshot that the instruction itself sends. */
  function Needed(w: World, k: Pubkey, early: nat): nat {
    (if Pending(w, k) <= early then 0 else Pending(w, k) - early)
    + (if InSession(w, k) && !Closing(w, k) then 1 else 0)
  }

  /** There is something to settle. */
  predicate Due(w: World, k: Pubkey)
    requires HasRuntime(w, k)
  {
    Drift(LiveOf(w, k), CheckpointOf(w, k)) > 0
  }

  predicate HasRoom(w: World, organization: Pubkey) {
    organization in w.store.organizations && w.store.organizations[organization].settlementCount < MAX_U64
  }

  /** The script ended without throwing, the runtime is back on base, and nothing is unsettled. */
  predicate EndsClean(r: Reconciled, k: Pubkey) {
    r.completed && HasRuntime(r.world, k) && !InSession(r.world, k) && !Due(r.world, k)
  }

  lemma SecondHalfWorks(w: World, o: Operator, e: Surroundings)
    requires Inv(w) && MayReconcile(w, o)
    requires InSession(w, o.apiKey) ==> Closing(w, o.apiKey)
    ensures var k := o.apiKey;
      var r := SecondHalf(w, o, e);
      && HasRuntime(r.world, k) && LogOf(r.world, k) == LogOf(w, k)
      && (r.completed <==>
            && LiveOf(w, k).rollingSequence < UNSAFE
            && (InSession(w, k) ==> e.routed && e.secondRead == Rollup)
            && (Due(w, k) ==> Pending(w, k) <= e.late && HasRoom(w, o.organization)))
      && (r.completed ==> !Due(r.world, k) && (InSession(r.world, k) <==> e.late < Pending(w, k)))
  {
    hide Inv, Step, Apply, Readable;
    var k := o.apiKey;
    ReadsAreSafe(w, k);
    OwnerFacts(w, k);
    if InSession(w, k) { SessionFacts(w, k); }
    LandMany(w, o, e.late, e.now);
    SettleWorks(Landed(w, k, e.late, e.now), o, e.now);
  }

  /** `undelegate-and-settle`, with no request interleaved. It completes exactly when the sequence can be
      read, a session finds a router configured, the first read was no stale copy of a session already
      being closed, the second read does not show a delegated runtime, and, if something is due, every
      snapshot lands before the settlement and the settlement counter has room. Having completed, it leaves
      nothing unsettled, but it leaves the runtime in its session if some snapshot never landed. */
  lemma UndelegateAndSettleWorksExactlyWhen(w: World, o: Operator, e: Surroundings)
    requires Reachable(w) && MayReconcile(w, o)
    ensures var k := o.apiKey;
      var r, needed := UndelegateAndSettleRun(w, o, e), Needed(w, k, e.early);
      && HasRuntime(r.world, k) && LogOf(r.world, k) == LogOf(w, k)
      && (r.completed <==>
            && LiveOf(w, k).rollingSequence < UNSAFE
            && (InSession(w, k) ==> e.routed)
            && (Closing(w, k) ==> e.firstRead == Rollup)
            && (e.midway >= needed || e.secondRead == Rollup)
            && (Due(w, k) ==> e.midway + e.late >= needed && HasRoom(w, o.organization)))
      && (r.completed ==> !Due(r.world, k) && (InSession(r.world, k) <==> e.midway + e.late < needed))
    ensures var k := o.apiKey;
      var needed := Needed(w, k, e.early);
      EndsClean(UndelegateAndSettleRun(w, o, e), k) <==>
        && LiveOf(w, k).rollingSequence < UNSAFE
        && (InSession(w, k) ==> e.routed)
        && (Closing(w, k) ==> e.firstRead == Rollup)
        && (e.midway >= needed || (e.secondRead == Rollup && e.midway + e.late >= needed))
        && (Due(w, k) ==> HasRoom(w, o.organization))
  {
    hide Inv, Step, Apply, Reachable, Readable, SecondHalf;
    var k := o.apiKey;
    ReachableInv(w);
    ReadsAreSafe(w, k);
    OwnerFacts(w, k);
    if InSession(w, k) { SessionFacts(w, k); }
    var rt := Fetch(w, k, e, e.firstRead);
    var early := Landed(w, k, e.early, e.now);
    LandMany(w, o, e.early, e.now);
    UndelegateCloses(early, o, e.now);
    if !(rt.isDelegated && !e.routed) && !(rt.isDelegated && Step(early, UndelegateEvent(o, e.now)).Err?) {
      var sent := if rt.isDelegated then Apply(early, UndelegateEvent(o, e.now)) else early;
      LandMany(sent, o, e.midway, e.now);
      SecondHalfWorks(Landed(sent, k, e.midway, e.now), o, e);
    }
  }

  /** Without a router the script completes exactly when there is no session for it to end, and then ends
      clean; on a session it always throws. */
  lemma UnroutedWorksExactlyWhen(w: World, o: Operator, e: Surroundings)
    requires Reachable(w) && MayReconcile(w, o) && !e.routed
    ensures var k := o.apiKey;
      var r := UndelegateAndSettleRun(w, o, e);
      && (r.completed <==>
            && !InSession(w, k) && LiveOf(w, k).rollingSequence < UNSAFE
            && (Due(w, k) ==> HasRoom(w, o.organization)))
      && (r.completed <==> EndsClean(r, k))
  {
    hide UndelegateAndSettleRun, Reachable;
    UndelegateAndSettleWorksExactlyWhen(w, o, e);
  }

  /** What the client's advice is worth, given by a read of either copy of a reachable state. Whatever
      instruction it names succeeds exactly when the session is not already being closed (and, for a
      settlement, the counter has room); no advice means that nothing is due and no session is open. */
  lemma AdviceWorksExactlyWhen(w: World, o: Operator, layer: Layer, now: i64)
    requires Reachable(w) && MayReconcile(w, o)
    ensures var k := o.apiKey;
      match Advice(ReadAt(w, k, layer), CheckpointOf(w, k))
      case UndelegateAndSettle => Step(w, UndelegateEvent(o, now)).Ok? <==> !Closing(w, k)
      case CommitNow => Step(w, CommitEvent(o, now)).Ok? <==> !Closing(w, k)
      case SettleNow => Step(w, SettleEvent(o, now)).Ok? <==> !Closing(w, k) && HasRoom(w, o.organization)
      case NoAction => !Due(w, k) && (InSession(w, k) ==> Closing(w, k))
  {
    hide Inv, Step, Apply, Reachable, Readable;
    var k := o.apiKey;
    ReachableInv(w);
    ReadsAreSafe(w, k);
    OwnerFacts(w, k);
    if InSession(w, k) { SessionFacts(w, k); }
    UndelegateCloses(w, o, now);
    CommitSends(w, o, now);
    SettleWorks(w, o, now);
  }

  /** `commit-only` completes exactly in an open session whose sequence can be read and with a router
      configured, whichever copy it read: a session being closed is refused, by the script on a fresh read
      and by the program on a stale one. */
  lemma CommitOnlyWorksExactlyWhen(w: World, o: Operator, e: Surroundings)
    requires Reachable(w) && MayReconcile(w, o)
    ensures var k := o.apiKey;
      var r := CommitOnlyRun(w, o, e);
      && (r.completed <==>
            && InSession(w, k) && !Closing(w, k) && e.routed
            && Fetch(w, k, e, e.firstRead).rollingSequence < UNSAFE)
      && OnlyMoved(w, r.world, o) && LiveOf(r.world, k) == LiveOf(w, k)
      && (!r.completed && e.early == 0 ==> r.world == w)
  {
    hide Inv, Step, Apply, Reachable, Readable;
    var k := o.apiKey;
    ReachableInv(w);
    ReadsAreSafe(w, k);
    OwnerFacts(w, k);
    if InSession(w, k) { SessionFacts(w, k); }
    var landed := Landed(w, k, e.early, e.now);
    LandMany(w, o, e.early, e.now);
    CommitSends(landed, o, e.now);
    if Step(landed, CommitEvent(o, e.now)).Err? { FailureChangesNothing(landed, CommitEvent(o, e.now)); }
  }

  /** `settle-if-safe` completes exactly when the sequence can be read, the read does not show a delegated
      runtime, and, if something is due, the account is back on base before the settlement and the
      settlement counter has room. Completing, it leaves nothing unsettled; otherwise, or with nothing
      due, it changes nothing itself. */
  lemma SettleIfSafeWorksExactlyWhen(w: World, o: Operator, e: Surroundings)
    requires Reachable(w) && MayReconcile(w, o)
    ensures var k := o.apiKey;
      var r := SettleIfSafeRun(w, o, e);
      && (r.completed <==>
            && LiveOf(w, k).rollingSequence < UNSAFE
            && (InSession(w, k) ==> Closing(w, k) && e.routed && e.firstRead == Rollup)
            && (Due(w, k) ==> Pending(w, k) <= e.early && HasRoom(w, o.organization)))
      && HasRuntime(r.world, k) && LogOf(r.world, k) == LogOf(w, k)
      && (r.completed ==> !Due(r.world, k) && (InSession(r.world, k) <==> e.early < Pending(w, k)))
      && (!r.completed || !Due(w, k) ==>
            OnlyMoved(w, r.world, o) && LiveOf(r.world, k) == LiveOf(w, k) && (e.early == 0 ==> r.world == w))
  {
    hide Inv, Step, Apply, Reachable, Readable;
    var k := o.apiKey;
    ReachableInv(w);
    ReadsAreSafe(w, k);
    OwnerFacts(w, k);
    if InSession(w, k) { SessionFacts(w, k); }
    var landed := Landed(w, k, e.early, e.now);
    LandMany(w, o, e.early, e.now);
    SettleWorks(landed, o, e.now);
    if Step(landed, SettleEvent(o, e.now)).Err? { FailureChangesNothing(landed, SettleEvent(o, e.now)); }
  }

  /** What the client advises, on a read of the live copy of a reachable state: to undelegate and settle exactly
      when the session is open and something is due, to commit exactly when it is open and nothing is due, to
      settle exactly when something is due and the session is over or ending, and otherwise nothing. */
  lemma AdviceMeans(w: World, k: Pubkey)
    requires Reachable(w) && HasRuntime(w, k)
    ensures var advice := Advice(LiveOf(w, k), CheckpointOf(w, k));
      var open := InSession(w, k) && !Closing(w, k);
      var due := LiveOf(w, k).rollingSequence > CheckpointOf(w, k).settledSequence;
      && (advice == UndelegateAndSettle <==> open && due)
      && (advice == CommitNow <==> open && !due)
      && (advice == SettleNow <==> !open && due)
      && (advice == NoAction <==> !open && !due)
  {
    hide Inv, Reachable;
    ReachableInv(w);
    OwnerFacts(w, k);
    if InSession(w, k) { SessionFacts(w, k); }
  }

  /** What following the advice achieves, with room in the settlement counter and every snapshot landing: after
      undelegation, landings and settlement, or after the settlement alone where no session is ending, nothing
      is due and the runtime is on base; after a commit and its landing, base equals the live copy. */
  lemma AdviceAchieves(w: World, o: Operator, now: i64)
    requires Reachable(w) && MayReconcile(w, o) && HasRoom(w, o.organization)
    ensures var k := o.apiKey;
      match Advice(LiveOf(w, k), CheckpointOf(w, k))
      case UndelegateAndSettle =>
        var sent := Apply(w, UndelegateEvent(o, now));
        var landed := Landed(sent, k, Pending(sent, k), now);
        && Step(w, UndelegateEvent(o, now)).Ok? && Step(landed, SettleEvent(o, now)).Ok?
        && EndsClean(Reconciled(Apply(landed, SettleEvent(o, now)), true), k)
      case CommitNow =>
        var sent := Apply(w, CommitEvent(o, now));
        var landed := Landed(sent, k, Pending(sent, k), now);
        && Step(w, CommitEvent(o, now)).Ok? && HasRuntime(landed, k)
        && BaseOf(landed, k) == LiveOf(landed, k) == LiveOf(w, k)
      case SettleNow =>
        !Closing(w, k) ==>
          && Step(w, SettleEvent(o, now)).Ok?
          && EndsClean(Reconciled(Apply(w, SettleEvent(o, now)), true), k)
      case NoAction => true
  {
    hide Inv, Reachable, Step, Apply, Advice, Landed;
    var k := o.apiKey;
    ReachableInv(w);
    AdviceMeans(w, k);
    match Advice(LiveOf(w, k), CheckpointOf(w, k))
    case UndelegateAndSettle =>
      var sent := Apply(w, UndelegateEvent(o, now));
      UndelegateCloses(w, o, now);
      LandMany(sent, o, Pending(sent, k), now);
      SettleWorks(Landed(sent, k, Pending(sent, k), now), o, now);
    case CommitNow =>
      var sent := Apply(w, CommitEvent(o, now));
      CommitSends(w, o, now);
      LandMany(sent, o, Pending(sent, k), now);
      LastLands(sent, o, now);
    case SettleNow =>
      SettleWorks(w, o, now);
    case NoAction =>
  }

  /** Once everything in flight has landed, base holds the last snapshot. */
  lemma {:induction false} LastLands(w: World, o: Operator, now: i64)
    requires Inv(w) && InSession(w, o.apiKey) && SessionOf(w, o.apiKey).inFlight != []
    ensures var k := o.apiKey;
      var landed := Landed(w, k, Pending(w, k), now);
      HasRuntime(landed, k) && BaseOf(landed, k) == Last(SessionOf(w, k).inFlight).state
    decreases |SessionOf(w, o.apiKey).inFlight|
  {
    hide Inv, Step;
    var k, w' := o.apiKey, Apply(w, LandEvent(o.apiKey, now));
    SessionFacts(w, k);
    LandOne(w, o, now);
    DeliverOutcome(w, k, now);
    assert Landed(w, k, Pending(w, k), now) == Landed(w', k, Pending(w, k) - 1, now);
    if |SessionOf(w, k).inFlight| == 1 {
      assert Landed(w', k, 0, now) == w';
    } else {
      assert Pending(w', k) == Pending(w, k) - 1;
      LastLands(w', o, now);
    }
  }

  /** `status` only looks. */
  lemma StatusOnlyLooks(w: World, o: Operator, e: Surroundings)
    requires Reachable(w) && HasRuntime(w, o.apiKey)
    ensures var r := ReconcileRun(w, Status, o, e);
      && r.world == w
      && (r.completed <==> Fetch(w, o.apiKey, e, e.firstRead).rollingSequence < UNSAFE)
  {
    hide Inv, Readable;
    ReachableInv(w);
    ReadsAreSafe(w, o.apiKey);
  }

  /** How each mode is written. */
  lemma ModesResolve(raw: Option<string>)
    ensures ResolveMode(None) == ResolveMode(Some("status")) == Some(Status)
    ensures ResolveMode(Some("commit-only")) == Some(CommitOnly)
    ensures ResolveMode(Some("undelegate-and-settle")) == Some(UndelegateThenSettle)
    ensures ResolveMode(Some("settle-if-safe")) == Some(SettleIfSafe)
    ensures ResolveMode(raw).None? <==>
      raw.Some? && raw.value !in {"status", "commit-only", "undelegate-and-settle", "settle-if-safe"}
  {
  }

  lemma ReadsAreSafe(w: World, k: Pubkey)
    requires Inv(w) && HasRuntime(w, k)
    ensures Readable(LiveOf(w, k), CheckpointOf(w, k)) <==> LiveOf(w, k).rollingSequence < UNSAFE
    ensures Readable(BaseOf(w, k), CheckpointOf(w, k)) <==> BaseOf(w, k).rollingSequence < UNSAFE
    ensures CheckpointOf(w, k).settledSequence <= BaseOf(w, k).rollingSequence <= LiveOf(w, k).rollingSequence
  {
    hide Inv, Genuine;
    AtKey(w, k);
    LiveMirrors(w, k);
    var t0, log := StartOf(w, k), LogOf(w, k);
    MirrorIsReadable(LiveOf(w, k), t0, log);
    var n := BaseOf(w, k).rollingSequence;
    RateLimit.GenuinePrefix(t0, log, n);
    MirrorIsReadable(BaseOf(w, k), t0, log[..n]);
  }

  lemma MirrorIsReadable(rt: RuntimeState, t0: i64, log: Log)
    requires Genuine(t0, log) && Mirrors(rt, t0, log)
    ensures rt.currentWindowUsed <= rt.totalAllowed <= rt.rollingSequence == |log|
    ensures rt.totalRejected <= rt.rollingSequence
  {
    hide Genuine;
    UsedIsAllowed(t0, log);
    SummaryAddsUp(t0, log);
  }

  // ---------------------------------------------------------------- the script

  method Read(ledger: Ledger.Ledger, k: Pubkey, e: Surroundings, layer: Layer) returns (h: Option<RuntimeHealth>)
    requires HasRuntime(ledger.Now(), k)
    ensures var rt, cp := Fetch(ledger.Now(), k, e, layer), CheckpointOf(ledger.Now(), k);
      && (h.Some? <==> Readable(rt, cp))
      && (h.Some? ==> h.value.delegated == rt.isDelegated && h.value.drift == Drift(rt, cp))
  {
    var r := QuotaRuntimePda(k);
    var rt := if e.routed && layer == Rollup then Live(ledger.store, r) else ledger.store.runtimes[r];
    h := SummarizeRuntimeHealth(rt, ledger.store.checkpoints[AuditCheckpointPda(k)]);
  }

  method Land(ledger: Ledger.Ledger, k: Pubkey, n: nat, now: i64)
    requires ledger.Valid()
    modifies ledger
    ensures ledger.Valid() && ledger.Now() == Landed(old(ledger.Now()), k, n, now)
  {
    hide Inv, Apply;
    var i := 0;
    while i < n
      invariant 0 <= i <= n
      invariant ledger.Valid()
      invariant Landed(ledger.Now(), k, n - i, now) == Landed(old(ledger.Now()), k, n, now)
    {
      var _ := ledger.Process(LandEvent(k, now));
      i := i + 1;
    }
  }

  /** The `undelegate-and-settle` branch of `main`, on a ledger; `true` when it ends without throwing. */
  method RunUndelegateAndSettle(ledger: Ledger.Ledger, o: Operator, e: Surroundings) returns (completed: bool)
    requires ledger.Valid() && HasRuntime(ledger.Now(), o.apiKey)
    modifies ledger
    ensures ledger.Valid()
    ensures Reconciled(ledger.Now(), completed) == UndelegateAndSettleRun(old(ledger.Now()), o, e)
  {
    hide Inv, Step, Apply, Readable;
    var before := Read(ledger, o.apiKey, e, e.firstRead);
    if before.None? || (before.value.delegated && !e.routed) { return false; }
    Land(ledger, o.apiKey, e.early, e.now);
    ghost var early := ledger.Now();
    if before.value.delegated {
      var sent := ledger.Process(UndelegateEvent(o, e.now));
      if sent.Err? {
        FailureChangesNothing(early, UndelegateEvent(o, e.now));
        return false;
      }
    }
    Land(ledger, o.apiKey, e.midway, e.now);
    StillThere(ledger.Now(), o.apiKey);
    if QuotaRuntimePda(o.apiKey) !in ledger.store.runtimes { return false; }
    var after := Read(ledger, o.apiKey, e, e.secondRead);
    if after.None? || after.value.delegated { return false; }
    Land(ledger, o.apiKey, e.late, e.now);
    if after.value.drift > 0 {
      var settled := ledger.Process(SettleEvent(o, e.now));
      return settled.Ok?;
    }
    return true;
  }

  method RunCommitOnly(ledger: Ledger.Ledger, o: Operator, e: Surroundings) returns (completed: bool)
    requires ledger.Valid() && HasRuntime(ledger.Now(), o.apiKey)
    modifies ledger
    ensures ledger.Valid()
    ensures Reconciled(ledger.Now(), completed) == CommitOnlyRun(old(ledger.Now()), o, e)
  {
    hide Inv, Step, Apply, Readable;
    var before := Read(ledger, o.apiKey, e, e.firstRead);
    if before.None? || !before.value.delegated || !e.routed { return false; }
    Land(ledger, o.apiKey, e.early, e.now);
    var sent := ledger.Process(CommitEvent(o, e.now));
    return sent.Ok?;
  }

  method RunSettleIfSafe(ledger: Ledger.Ledger, o: Operator, e: Surroundings) returns (completed: bool)
    requires ledger.Valid() && HasRuntime(ledger.Now(), o.apiKey)
    modifies ledger
    ensures ledger.Valid()
    ensures Reconciled(ledger.Now(), completed) == SettleIfSafeRun(old(ledger.Now()), o, e)
  {
    hide Inv, Step, Apply, Readable;
    var before := Read(ledger, o.apiKey, e, e.firstRead);
    if before.None? || before.value.delegated { return false; }
    Land(ledger, o.apiKey, e.early, e.now);
    if before.value.drift == 0 { return true; }
    var settled := ledger.Process(SettleEvent(o, e.now));
    return settled.Ok?;
  }

  /** `main`: nothing is read or sent under a mode that does not resolve, nor for a missing runtime. */
  method Reconcile(ledger: Ledger.Ledger, raw: Option<string>, o: Operator, e: Surroundings) returns (completed: bool)
    requires ledger.Valid()
    modifies ledger
    ensures ledger.Valid()
    ensures match ResolveMode(raw)
            case None => !completed && ledger.Now() == old(ledger.Now())
            case Some(mode) => Reconciled(ledger.Now(), completed) == ReconcileRun(old(ledger.Now()), mode, o, e)
  {
    hide Inv, Step, Apply, Readable;
    var mode := ResolveMode(raw);
    StillThere(ledger.Now(), o.apiKey);
    if mode.None? || QuotaRuntimePda(o.apiKey) !in ledger.store.runtimes { return false; }
    match mode.value
    case Status =>
      var before := Read(ledger, o.apiKey, e, e.firstRead);
      return before.Some?;
    case CommitOnly =>
      completed := RunCommitOnly(ledger, o, e);
    case UndelegateThenSettle =>
      completed := RunUndelegateAndSettle(ledger, o, e);
    case SettleIfSafe =>
      completed := RunSettleIfSafe(ledger, o, e);
  }

  lemma FailureChangesNothing(w: World, e: Event)
    requires Step(w, e).Err?
    ensures Apply(w, e) == w
  {
  }

  lemma StillThere(w: World, k: Pubkey)
    requires Inv(w)
    ensures QuotaRuntimePda(k) in w.store.runtimes <==> HasRuntime(w, k)
  {
    hide Inv;
    AtKey(w, k);
  }
}
