/** One key's runtime across both layers: what ties its base copy, rollup copy, snapshots in flight,
    checkpoint and log together, and why every instruction keeps it so. */
module Lane {
  import opened Base
  import opened Permissions
  import opened Accounts
  import opened Engine
  import opened AuditLog
  import opened StateMachine

  /** A copy of the runtime that is up to date with some prefix of the log. */
  ghost predicate MirrorsPrefix(rt: RuntimeState, h: History) {
    rt.rollingSequence <= |h.log| && Mirrors(rt, h.startedAt, h.log[..rt.rollingSequence])
  }

  /** Whose account this is: organization, key and policy. */
  function Owner(rt: RuntimeState): (Pubkey, Pubkey, Pubkey) {
    (rt.organization, rt.apiKey, rt.quotaPolicy)
  }

  ghost predicate InFlightOk(base: RuntimeState, session: Session, h: History) {
    var q := session.inFlight;
    && (forall i :: 0 <= i < |q| ==>
          && MirrorsPrefix(q[i].state, h)
          && Owner(q[i].state) == Owner(base)
          && base.rollingSequence <= q[i].state.rollingSequence
          && q[i].state.lastSettledSequence == base.lastSettledSequence
          && q[i].state.isDelegated == !q[i].handsBack
          && (q[i].handsBack <==> session.closing && i == |q| - 1))
    && (forall i, j :: 0 <= i <= j < |q| ==> q[i].state.rollingSequence <= q[j].state.rollingSequence)
    && (session.closing ==> q != [] && Last(q).state == session.live)
  }

  ghost predicate SessionOk(base: RuntimeState, session: Session, h: History) {
    && base.isDelegated
    && Mirrors(session.live, h.startedAt, h.log)
    && Owner(session.live) == Owner(base)
    && session.live.isDelegated == !session.closing
    && session.live.lastSettledSequence == base.lastSettledSequence
    && InFlightOk(base, session, h)
  }

  /** The protocol invariant of one runtime. */
  ghost predicate LaneOk(base: RuntimeState, session: Option<Session>, cp: CheckpointState, h: History) {
    && Genuine(h.startedAt, h.log)
    && Settled(cp, h.startedAt, h.log)
    && (cp.organization, cp.apiKey, cp.quotaPolicy) == Owner(base)
    && cp.settledSequence == base.lastSettledSequence
    && cp.settledSequence <= base.rollingSequence
    && MirrorsPrefix(base, h)
    && match session
       case None => !base.isDelegated && base.rollingSequence == |h.log|
       case Some(ss) => SessionOk(base, ss, h)
  }

  lemma WholeLog(h: History)
    ensures h.log[..|h.log|] == h.log
  {
  }

  lemma PrefixSurvives(rt: RuntimeState, h: History, h': History)
    requires MirrorsPrefix(rt, h) && h'.startedAt == h.startedAt && h.log <= h'.log
    ensures MirrorsPrefix(rt, h')
  {
    assert h'.log[..rt.rollingSequence] == h.log[..rt.rollingSequence];
  }

  lemma SettledSurvives(cp: CheckpointState, h: History, h': History)
    requires Settled(cp, h.startedAt, h.log) && h'.startedAt == h.startedAt && h.log <= h'.log
    ensures Settled(cp, h'.startedAt, h'.log)
  {
    assert h'.log[..cp.settledSequence] == h.log[..cp.settledSequence];
  }

  lemma InitializedLane(rt: RuntimeState, cp: CheckpointState, now: i64,
                        organization: Pubkey, apiKey: Pubkey, policy: Pubkey)
    requires rt == FreshRuntime(organization, apiKey, policy, now)
    requires cp == FreshCheckpoint(organization, apiKey, policy, now)
    ensures LaneOk(rt, None, cp, History(now, []))
  {
  }

  lemma ConsumedOnBase(base: RuntimeState, cp: CheckpointState, h: History, c: Context, action: u8, now: i64,
                       base': RuntimeState)
    requires LaneOk(base, None, cp, h) && Positive(c.limits) && ValidMask(c.mask)
    requires Consume(base, c, action, now) == Ok(base')
    ensures LaneOk(base', None, cp, h.(log := h.log + [EntryOf(base', c)]))
  {
    var h' := h.(log := h.log + [EntryOf(base', c)]);
    WholeLog(h);
    ConsumeExtendsLog(base, base', h.startedAt, h.log, c, action, now);
    WholeLog(h');
    SettledSurvives(cp, h, h');
    OnlyDecides(base, c, action, now);
  }

  /** The part of a runtime that decisions never touch. */
  function Untouched(rt: RuntimeState): (Pubkey, Pubkey, Pubkey, Pubkey, u32, bool, u64, i64) {
    (rt.organization, rt.apiKey, rt.quotaPolicy, rt.delegatedValidator, rt.commitFrequencyMs, rt.isDelegated,
     rt.lastSettledSequence, rt.lastSettledAt)
  }

  lemma AppendOnlyDecides(rt: RuntimeState, action: u8, allowed: bool, reason: DecisionReason, now: i64)
    requires AppendAudit(rt, action, allowed, reason, now).Ok?
    ensures var rt' := AppendAudit(rt, action, allowed, reason, now).value;
      Untouched(rt') == Untouched(rt) && rt'.rollingSequence == rt.rollingSequence + 1
  {
  }

  /** `consume_request` leaves delegation, settlement and identity fields alone. */
  lemma OnlyDecides(rt: RuntimeState, c: Context, action: u8, now: i64)
    requires Consume(rt, c, action, now).Ok?
    ensures var rt' := Consume(rt, c, action, now).value;
      Untouched(rt') == Untouched(rt) && rt'.rollingSequence == rt.rollingSequence + 1
  {
    var parsed := ParseAction(action);
    if !c.active {
      AppendOnlyDecides(rt, action, false, DecisionReason.KeyRevoked, now);
    } else if parsed.None? {
      AppendOnlyDecides(rt, action, false, InvalidAction, now);
    } else if !RoleAllows(c.mask, parsed.value) {
      AppendOnlyDecides(rt, action, false, Unauthorized, now);
    } else {
      var rolled := ResetIfExpired(rt, c.limits.windowSeconds, now).value;
      if rolled.currentWindowUsed >= c.limits.maxRequests {
        AppendOnlyDecides(rolled, action, false, QuotaExceeded, now);
      } else {
        AppendOnlyDecides(rolled.(currentWindowUsed := rolled.currentWindowUsed + 1), action, true, Allowed, now);
      }
    }
  }

  lemma ConsumedOnRollup(base: RuntimeState, ss: Session, cp: CheckpointState, h: History, c: Context, action: u8,
                         now: i64, live': RuntimeState)
    requires LaneOk(base, Some(ss), cp, h) && !ss.closing && Positive(c.limits) && ValidMask(c.mask)
    requires Consume(ss.live, c, action, now) == Ok(live')
    ensures LaneOk(base, Some(ss.(live := live')), cp, h.(log := h.log + [EntryOf(live', c)]))
  {
    var h' := h.(log := h.log + [EntryOf(live', c)]);
    ConsumeExtendsLog(ss.live, live', h.startedAt, h.log, c, action, now);
    OnlyDecides(ss.live, c, action, now);
    SettledSurvives(cp, h, h');
    PrefixSurvives(base, h, h');
    forall i | 0 <= i < |ss.inFlight| ensures MirrorsPrefix(ss.inFlight[i].state, h') {
      PrefixSurvives(ss.inFlight[i].state, h, h');
    }
  }

  lemma DelegatedLane(base: RuntimeState, cp: CheckpointState, h: History, validator: Option<Pubkey>, ms: u32,
                      base': RuntimeState)
    requires LaneOk(base, None, cp, h)
    requires Delegate(base, validator, ms) == Ok(base')
    ensures LaneOk(base', Some(Session(base', [], false)), cp, h)
  {
    WholeLog(h);
  }

  lemma CommittedLane(base: RuntimeState, ss: Session, cp: CheckpointState, h: History)
    requires LaneOk(base, Some(ss), cp, h) && ss.live.isDelegated
    ensures LaneOk(base, Some(ss.(inFlight := ss.inFlight + [Snapshot(ss.live, false)])), cp, h)
  {
    WholeLog(h);
  }

  lemma ClosedLane(base: RuntimeState, ss: Session, cp: CheckpointState, h: History)
    requires LaneOk(base, Some(ss), cp, h) && ss.live.isDelegated
    ensures var final := Undelegated(ss.live);
      LaneOk(base, Some(Session(final, ss.inFlight + [Snapshot(final, true)], true)), cp, h)
  {
    WholeLog(h);
  }

  /** Landing a snapshot moves base forward along the log; landing the last one of a closed session
      brings it fully up to date and hands it back. */
  lemma DeliveredLane(base: RuntimeState, ss: Session, cp: CheckpointState, h: History)
    requires LaneOk(base, Some(ss), cp, h) && ss.inFlight != []
    ensures var landed := ss.inFlight[0];
      LaneOk(landed.state,
             if landed.handsBack then None else Some(ss.(inFlight := ss.inFlight[1..])), cp, h)
    ensures base.rollingSequence <= ss.inFlight[0].state.rollingSequence
  {
    hide Genuine, Settled;
    var q := ss.inFlight;
    var landed := q[0];
    if landed.handsBack {
      assert |q| == 1 && landed.state == ss.live;
      WholeLog(h);
    } else if ss.closing {
      assert |q| > 1;
      assert Last(q[1..]) == Last(q);
    }
  }

  lemma SettledLane(base: RuntimeState, cp: CheckpointState, h: History, now: i64)
    requires LaneOk(base, None, cp, h)
    ensures LaneOk(SettledRuntime(base, now), None, SettledCheckpoint(cp, base, now), h)
  {
  }

  // ---------------------------------------------------------------- the lane machine

  /** Everything the store holds for one key's runtime. */
  datatype LaneView = LaneView(
    base: Option<RuntimeState>, session: Option<Session>, checkpoint: Option<CheckpointState>)

  /** The runtime instructions once their account checks have passed. */
  datatype LaneOp =
    | InitializeOp(organization: Pubkey, apiKey: Pubkey, policy: Pubkey)
    | DelegateOp(validator: Option<Pubkey>, commitFrequencyMs: u32)
    | ConsumeOp(layer: Layer, context: Context, action: u8)
    | CommitOp
    | UndelegateOp
    | DeliverOp
    | SettleOp

  /** What a lane operation that succeeds turns the lane into. */
  ghost predicate LaneStep(v: LaneView, op: LaneOp, now: i64, v': LaneView) {
    match op
    case InitializeOp(organization, apiKey, policy) =>
      && v.base.None? && v.session.None?
      && v' == LaneView(Some(FreshRuntime(organization, apiKey, policy, now)), None,
                        if v.checkpoint.Some? then v.checkpoint
                        else Some(FreshCheckpoint(organization, apiKey, policy, now)))
    case DelegateOp(validator, ms) =>
      && v.base.Some? && v.session.None?
      && Delegate(v.base.value, validator, ms).Ok?
      && var delegated := Delegate(v.base.value, validator, ms).value;
         v' == v.(base := Some(delegated), session := Some(Session(delegated, [], false)))
    case ConsumeOp(BaseLayer, context, action) =>
      && v.base.Some? && v.session.None?
      && Consume(v.base.value, context, action, now).Ok?
      && v' == v.(base := Some(Consume(v.base.value, context, action, now).value))
    case ConsumeOp(Rollup, context, action) =>
      && v.base.Some? && v.session.Some? && !v.session.value.closing
      && Consume(v.session.value.live, context, action, now).Ok?
      && v' == v.(session := Some(v.session.value.(live := Consume(v.session.value.live, context, action, now).value)))
    case CommitOp =>
      && v.base.Some? && v.session.Some? && v.session.value.live.isDelegated
      && var ss := v.session.value;
         v' == v.(session := Some(ss.(inFlight := ss.inFlight + [Snapshot(ss.live, false)])))
    case UndelegateOp =>
      && v.base.Some? && v.session.Some? && v.session.value.live.isDelegated
      && var ss := v.session.value;
         var final := Undelegated(ss.live);
         v' == v.(session := Some(Session(final, ss.inFlight + [Snapshot(final, true)], true)))
    case DeliverOp =>
      && v.base.Some? && v.session.Some? && v.session.value.inFlight != []
      && var ss := v.session.value;
         v' == v.(base := Some(ss.inFlight[0].state),
                  session := if ss.inFlight[0].handsBack then None else Some(ss.(inFlight := ss.inFlight[1..])))
    case SettleOp =>
      && v.base.Some? && v.session.None? && v.checkpoint.Some? && !v.base.value.isDelegated
      && v' == v.(base := Some(SettledRuntime(v.base.value, now)),
                  checkpoint := Some(SettledCheckpoint(v.checkpoint.value, v.base.value, now)))
  }

  /** The copy requests act on. */
  function LiveCopy(v: LaneView): RuntimeState
    requires v.base.Some?
  {
    if v.session.Some? then v.session.value.live else v.base.value
  }

  function Remembered(h: Option<History>, op: LaneOp, now: i64, v': LaneView): Option<History> {
    if op.InitializeOp? then Some(History(now, []))
    else if op.ConsumeOp? && h.Some? && v'.base.Some? then
      Some(h.value.(log := h.value.log + [EntryOf(LiveCopy(v'), op.context)]))
    else h
  }

  ghost predicate LaneInv(v: LaneView, h: Option<History>) {
    if v.base.None? then v.session.None? && v.checkpoint.None? && h.None?
    else v.checkpoint.Some? && h.Some? && LaneOk(v.base.value, v.session, v.checkpoint.value, h.value)
  }

  /** Decisions are only ever taken under a positive policy and a valid mask. */
  predicate SoundContext(op: LaneOp) {
    op.ConsumeOp? ==> Positive(op.context.limits) && ValidMask(op.context.mask)
  }

  /** Every operation keeps the protocol invariant, and the owner once there is one. */
  lemma LaneInvKept(v: LaneView, h: Option<History>, op: LaneOp, now: i64, v': LaneView)
    requires LaneInv(v, h) && LaneStep(v, op, now, v') && SoundContext(op)
    ensures LaneInv(v', Remembered(h, op, now, v'))
    ensures v'.base.Some?
    ensures Owner(v'.base.value)
         == if op.InitializeOp? then (op.organization, op.apiKey, op.policy) else Owner(v.base.value)
  {
    match op
    case InitializeOp(organization, apiKey, policy) =>
      InitializedLane(v'.base.value, v'.checkpoint.value, now, organization, apiKey, policy);
    case DelegateOp(validator, ms) =>
      DelegatedLane(v.base.value, v.checkpoint.value, h.value, validator, ms, v'.base.value);
    case ConsumeOp(BaseLayer, c, action) =>
      ConsumedOnBase(v.base.value, v.checkpoint.value, h.value, c, action, now, v'.base.value);
      OnlyDecides(v.base.value, c, action, now);
    case ConsumeOp(Rollup, c, action) =>
      ConsumedOnRollup(v.base.value, v.session.value, v.checkpoint.value, h.value, c, action, now,
                       v'.session.value.live);
    case CommitOp =>
      CommittedLane(v.base.value, v.session.value, v.checkpoint.value, h.value);
    case UndelegateOp =>
      ClosedLane(v.base.value, v.session.value, v.checkpoint.value, h.value);
    case DeliverOp =>
      DeliveredLane(v.base.value, v.session.value, v.checkpoint.value, h.value);
    case SettleOp =>
      SettledLane(v.base.value, v.checkpoint.value, h.value, now);
  }
}
