/** Every instruction, once more, by its outcome: in a state that satisfies the invariant it succeeds if and only
    if the condition spelled out here holds, and then changes the world in exactly the way spelled out here.
    Conditions and effects are written in terms of account contents alone, with the source's constants. */
module Instructions {
  import opened Base
  import opened Permissions
  import opened Accounts
  import opened Engine
  import opened AuditLog
  import opened StateMachine
  import opened Lane
  import opened Invariants
  import opened Guarantees

  /** The signer is the authority of an organization that exists. */
  predicate Owns(s: Store, organization: Pubkey, signer: Pubkey) {
    organization in s.organizations && s.organizations[organization].authority == signer
  }

  predicate HasKey(s: Store, organization: Pubkey, apiKey: Pubkey) {
    apiKey in s.apiKeys && s.apiKeys[apiKey].organization == organization
  }

  /** Nobody's key: what is stored where no validator or wallet has been chosen. */
  const NOBODY: Pubkey := External(0)

  // ---------------------------------------------------------------- control plane

  lemma CreateOrganizationOutcome(w: World, signer: Pubkey, name: Bytes, authority: Pubkey, now: i64)
    ensures var s, e := w.store, Event(Instruction.CreateOrganization(signer, name, authority), now);
      var address := OrganizationPda(GatewayPda, name);
      && (Step(w, e).Ok? <==>
            && s.gateway.authority == signer && |name| <= 32 && address !in s.organizations
            && s.gateway.organizationCount < MAX_U64)
      && (Step(w, e).Ok? ==>
            Step(w, e).value == w.(store := s.(
              gateway := GatewayState(s.gateway.authority, s.gateway.organizationCount + 1),
              organizations := s.organizations[address := OrganizationState(authority, name, 0, 0, 0)])))
  {
  }

  lemma CreateRoleOutcome(w: World, signer: Pubkey, organization: Pubkey, name: Bytes, now: i64)
    ensures var s, e := w.store, Event(Instruction.CreateRole(signer, organization, name), now);
      var address := RolePda(organization, name);
      && (Step(w, e).Ok? <==>
            && Owns(s, organization, signer) && |name| <= 32 && address !in s.roles
            && s.organizations[organization].roleCount < MAX_U64)
      && (Step(w, e).Ok? ==>
            var o := s.organizations[organization];
            Step(w, e).value == w.(store := s.(
              organizations := s.organizations[organization := o.(roleCount := o.roleCount + 1)],
              roles := s.roles[address := RoleState(organization, name, 0, now)])))
  {
  }

  /** The mask given replaces the one there was; bits beyond the five permissions are refused. */
  lemma AttachPolicyOutcome(w: World, signer: Pubkey, organization: Pubkey, role: Pubkey, mask: Mask, now: i64)
    requires Inv(w)
    ensures var s, e := w.store, Event(Instruction.AttachPolicy(signer, organization, role, mask), now);
      && (Step(w, e).Ok? <==>
            && Owns(s, organization, signer) && role in s.roles && s.roles[role].organization == organization
            && mask <= 31)
      && (Step(w, e).Ok? ==>
            Step(w, e).value == w.(store := s.(roles := s.roles[role := s.roles[role].(policyMask := mask)])))
  {
    hide OrganizationsOk, KeysOk, PoliciesOk, LanesOk, Addressed, ValidMask;
    FivePermissions(mask);
    if role in w.store.roles { RoleAt(w.store, role); }
  }

  lemma FivePermissions(mask: Mask)
    ensures ValidMask(mask) <==> mask <= 31
  {
  }

  lemma CreateApiKeyOutcome(w: World, signer: Pubkey, organization: Pubkey, role: Pubkey, keyId: Pubkey,
                            displayLabel: Bytes, now: i64)
    ensures var s, e := w.store, Event(Instruction.CreateApiKey(signer, organization, role, keyId, displayLabel), now);
      var address := ApiKeyPda(organization, keyId);
      && (Step(w, e).Ok? <==>
            && Owns(s, organization, signer) && role in s.roles && s.roles[role].organization == organization
            && |displayLabel| <= 48 && address !in s.apiKeys && s.organizations[organization].apiKeyCount < MAX_U64)
      && (Step(w, e).Ok? ==>
            var o := s.organizations[organization];
            Step(w, e).value == w.(store := s.(
              organizations := s.organizations[organization := o.(apiKeyCount := o.apiKeyCount + 1)],
              apiKeys := s.apiKeys[address :=
                ApiKeyState(organization, role, keyId, displayLabel, true, signer, now, 0)])))
  {
  }

  lemma CreateQuotaPolicyOutcome(w: World, signer: Pubkey, organization: Pubkey, apiKey: Pubkey,
                                 maxRequests: u64, windowSeconds: i64, now: i64)
    ensures var s := w.store;
      var e := Event(Instruction.CreateQuotaPolicy(signer, organization, apiKey, maxRequests, windowSeconds), now);
      && (Step(w, e).Ok? <==>
            Owns(s, organization, signer) && HasKey(s, organization, apiKey) && maxRequests > 0 && windowSeconds > 0)
      && (Step(w, e).Ok? ==>
            Step(w, e).value == w.(store := s.(
              policies := s.policies[QuotaPolicyPda(apiKey) :=
                PolicyState(organization, apiKey, maxRequests, windowSeconds)])))
  {
  }

  /** An active key becomes inactive for its organization's authority, and for nobody else; no other key, and
      nothing else, changes. */
  lemma RevokeOutcome(w: World, signer: Pubkey, organization: Pubkey, apiKey: Pubkey, now: i64)
    requires Inv(w)
    ensures var s, e := w.store, Event(Instruction.RevokeApiKey(signer, organization, apiKey), now);
      && (Step(w, e).Ok? <==>
            Owns(s, organization, signer) && HasKey(s, organization, apiKey) && s.apiKeys[apiKey].active)
      && (Step(w, e).Ok? ==>
            Step(w, e).value == w.(store := s.(
              apiKeys := s.apiKeys[apiKey := s.apiKeys[apiKey].(active := false, revokedAt := now)])))
  {
    hide OrganizationsOk, RolesOk, PoliciesOk, LanesOk, Addressed;
    if apiKey in w.store.apiKeys { KeyAt(w.store, apiKey); }
  }

  // ---------------------------------------------------------------- life cycle of a runtime

  /** A runtime is initialized once, with its policy in place, and starts empty and undelegated beside an
      empty checkpoint. */
  lemma InitializeOutcome(w: World, signer: Pubkey, organization: Pubkey, apiKey: Pubkey, policy: Pubkey, now: i64)
    requires Inv(w)
    ensures var s, e := w.store, Event(InitializeQuotaRuntime(signer, organization, apiKey, policy), now);
      && (Step(w, e).Ok? <==>
            && Owns(s, organization, signer) && HasKey(s, organization, apiKey)
            && policy == QuotaPolicyPda(apiKey) && policy in s.policies && !HasRuntime(w, apiKey))
      && (Step(w, e).Ok? ==>
            Step(w, e).value == World(
              s.(runtimes := s.runtimes[QuotaRuntimePda(apiKey) :=
                   RuntimeState(organization, apiKey, policy, NOBODY, 0, false,
                                0, 0, 0, now, 0, 0, 0, 0, 0, 0, [])],
                 checkpoints := s.checkpoints[AuditCheckpointPda(apiKey) :=
                   CheckpointState(organization, apiKey, policy, 0, 0, 0, 0, now, 0, 0, 0, 0)]),
              w.histories[QuotaRuntimePda(apiKey) := History(now, [])]))
  {
    hide Inv, Genuine, Mirrors, Settled, SessionOk;
    AtKey(w, apiKey);
    PoliciesOfKeys(w, organization, apiKey, policy);
  }

  lemma PoliciesOfKeys(w: World, organization: Pubkey, apiKey: Pubkey, policy: Pubkey)
    requires Inv(w)
    ensures HasKey(w.store, organization, apiKey) ==>
      (PolicyFor(w.store, organization, apiKey, policy).Ok? <==>
         policy == QuotaPolicyPda(apiKey) && policy in w.store.policies)
  {
    hide OrganizationsOk, RolesOk, KeysOk, LanesOk, Addressed;
    if policy in w.store.policies { PolicyAt(w.store, policy); }
  }

  /** The accounts of a key's runtime exist together, and each names the key, its organization and its
      policy. */
  predicate InPlace(s: Store, apiKey: Pubkey) {
    var r, c, p := QuotaRuntimePda(apiKey), AuditCheckpointPda(apiKey), QuotaPolicyPda(apiKey);
    && (r in s.runtimes <==> c in s.checkpoints)
    && (r in s.sessions ==> r in s.runtimes)
    && (r in s.runtimes ==>
          && apiKey in s.apiKeys && p in s.policies
          && Names(s.runtimes[r].organization, s.runtimes[r].apiKey, s.runtimes[r].quotaPolicy, s, apiKey)
          && Names(s.checkpoints[c].organization, s.checkpoints[c].apiKey, s.checkpoints[c].quotaPolicy, s, apiKey)
          && Names(Live(s, r).organization, Live(s, r).apiKey, Live(s, r).quotaPolicy, s, apiKey))
  }

  predicate Names(organization: Pubkey, key: Pubkey, policy: Pubkey, s: Store, apiKey: Pubkey)
    requires apiKey in s.apiKeys
  {
    organization == s.apiKeys[apiKey].organization && key == apiKey && policy == QuotaPolicyPda(apiKey)
  }

  lemma KeyInPlace(w: World, apiKey: Pubkey)
    requires Inv(w)
    ensures InPlace(w.store, apiKey)
    ensures HasRuntime(w, apiKey) <==> QuotaRuntimePda(apiKey) in w.store.runtimes
    ensures InSession(w, apiKey) ==> HasRuntime(w, apiKey)
  {
    hide Inv, LaneInv;
    AtKey(w, apiKey);
    if HasRuntime(w, apiKey) { OwnerFacts(w, apiKey); }
    if InSession(w, apiKey) { SessionFacts(w, apiKey); }
  }

  lemma DelegateGuardsHold(s: Store, signer: Pubkey, organization: Pubkey, apiKey: Pubkey, policy: Pubkey,
                           runtime: Pubkey)
    requires InPlace(s, apiKey)
    requires HasKey(s, organization, apiKey) ==>
      (PolicyFor(s, organization, apiKey, policy).Ok? <==> policy == QuotaPolicyPda(apiKey) && policy in s.policies)
    ensures DelegateGuards(s, signer, organization, apiKey, policy, runtime).Ok? <==>
      && Owns(s, organization, signer) && HasKey(s, organization, apiKey)
      && policy == QuotaPolicyPda(apiKey) && runtime == QuotaRuntimePda(apiKey)
      && runtime in s.runtimes && runtime !in s.sessions
  {
    hide PolicyFor;
  }

  lemma CommitGuardsHold(s: Store, signer: Pubkey, organization: Pubkey, apiKey: Pubkey, runtime: Pubkey)
    requires InPlace(s, apiKey)
    ensures var r := CommitGuards(s, signer, organization, apiKey, runtime);
      && (r.Ok? <==>
            && Owns(s, organization, signer) && HasKey(s, organization, apiKey)
            && runtime == QuotaRuntimePda(apiKey) && runtime in s.runtimes)
      && (r.Ok? ==> r.value == Live(s, runtime))
  {
  }

  lemma SettleGuardsHold(s: Store, signer: Pubkey, organization: Pubkey, apiKey: Pubkey, runtime: Pubkey,
                         checkpoint: Pubkey)
    requires InPlace(s, apiKey)
    ensures SettleGuards(s, signer, organization, apiKey, runtime, checkpoint).Ok? <==>
      && Owns(s, organization, signer) && HasKey(s, organization, apiKey)
      && runtime == QuotaRuntimePda(apiKey) && checkpoint == AuditCheckpointPda(apiKey)
      && runtime in s.runtimes && runtime !in s.sessions
  {
  }

  /** Delegation stores the validator and the frequency asked for, no validator being nobody, and opens a
      session with the same contents on both layers and nothing in flight. */
  lemma DelegateOutcome(w: World, signer: Pubkey, organization: Pubkey, apiKey: Pubkey, policy: Pubkey,
                        runtime: Pubkey, validator: Option<Pubkey>, ms: u32, now: i64)
    requires Inv(w)
    ensures var s := w.store;
      var e := Event(DelegateQuotaRuntime(signer, organization, apiKey, policy, runtime, validator, ms), now);
      && (Step(w, e).Ok? <==>
            && Owns(s, organization, signer) && HasKey(s, organization, apiKey)
            && policy == QuotaPolicyPda(apiKey) && runtime == QuotaRuntimePda(apiKey)
            && HasRuntime(w, apiKey) && !InSession(w, apiKey) && ms > 0)
      && (Step(w, e).Ok? ==>
            var rt := s.runtimes[runtime].(isDelegated := true, commitFrequencyMs := ms,
                        delegatedValidator := match validator case Some(v) => v case None => NOBODY);
            Step(w, e).value == w.(store := s.(
              runtimes := s.runtimes[runtime := rt], sessions := s.sessions[runtime := Session(rt, [], false)])))
  {
    hide Inv, InPlace, DelegateGuards;
    KeyInPlace(w, apiKey);
    PoliciesOfKeys(w, organization, apiKey, policy);
    DelegateGuardsHold(w.store, signer, organization, apiKey, policy, runtime);
    if HasRuntime(w, apiKey) { OwnerFacts(w, apiKey); }
  }

  /** A commit sends the live copy on its way to base and changes nothing else; it needs an open session. */
  lemma CommitOutcome(w: World, signer: Pubkey, organization: Pubkey, apiKey: Pubkey, runtime: Pubkey, now: i64)
    requires Inv(w)
    ensures var s, e := w.store, Event(CommitQuotaRuntime(signer, organization, apiKey, runtime), now);
      && (Step(w, e).Ok? <==>
            && Owns(s, organization, signer) && HasKey(s, organization, apiKey)
            && runtime == QuotaRuntimePda(apiKey) && InSession(w, apiKey) && !Closing(w, apiKey))
      && (Step(w, e).Ok? ==>
            var ss := s.sessions[runtime];
            Step(w, e).value == w.(store := s.(
              sessions := s.sessions[runtime :=
                Session(ss.live, ss.inFlight + [Snapshot(ss.live, false)], false)])))
  {
    hide Inv, InPlace, CommitGuards;
    KeyInPlace(w, apiKey);
    CommitGuardsHold(w.store, signer, organization, apiKey, runtime);
    if HasRuntime(w, apiKey) { OwnerFacts(w, apiKey); }
    if InSession(w, apiKey) { SessionFacts(w, apiKey); }
  }

  /** Ending a session resets the delegation fields, sends that as the last snapshot, and closes the session to
      requests. */
  lemma UndelegateOutcome(w: World, signer: Pubkey, organization: Pubkey, apiKey: Pubkey, runtime: Pubkey, now: i64)
    requires Inv(w)
    ensures var s, e := w.store, Event(CommitAndUndelegateQuotaRuntime(signer, organization, apiKey, runtime), now);
      && (Step(w, e).Ok? <==>
            && Owns(s, organization, signer) && HasKey(s, organization, apiKey)
            && runtime == QuotaRuntimePda(apiKey) && InSession(w, apiKey) && !Closing(w, apiKey))
      && (Step(w, e).Ok? ==>
            var ss := s.sessions[runtime];
            var final := ss.live.(isDelegated := false, delegatedValidator := NOBODY, commitFrequencyMs := 0);
            Step(w, e).value == w.(store := s.(
              sessions := s.sessions[runtime := Session(final, ss.inFlight + [Snapshot(final, true)], true)])))
  {
    hide Inv, InPlace, CommitGuards;
    KeyInPlace(w, apiKey);
    CommitGuardsHold(w.store, signer, organization, apiKey, runtime);
    if HasRuntime(w, apiKey) { OwnerFacts(w, apiKey); }
    if InSession(w, apiKey) { SessionFacts(w, apiKey); }
  }

  /** A landing puts the oldest snapshot in flight on base; it ends the session exactly when it is the last
      snapshot of a session being closed. */
  lemma DeliverOutcome(w: World, apiKey: Pubkey, now: i64)
    requires Inv(w)
    ensures var s, r := w.store, QuotaRuntimePda(apiKey);
      var e := Event(Deliver(r), now);
      && (Step(w, e).Ok? <==> InSession(w, apiKey) && SessionOf(w, apiKey).inFlight != [])
      && (Step(w, e).Ok? ==>
            var ss := s.sessions[r];
            Step(w, e).value == w.(store := s.(
              runtimes := s.runtimes[r := ss.inFlight[0].state],
              sessions := if ss.closing && |ss.inFlight| == 1 then s.sessions - {r}
                          else s.sessions[r := ss.(inFlight := ss.inFlight[1..])])))
  {
    hide Inv;
    if InSession(w, apiKey) { SessionFacts(w, apiKey); }
  }

  /** Settlement copies counters, window and last decision into the checkpoint, stamps both accounts, empties
      the buffer and counts itself. */
  lemma SettleOutcome(w: World, signer: Pubkey, organization: Pubkey, apiKey: Pubkey, runtime: Pubkey,
                      checkpoint: Pubkey, now: i64)
    requires Inv(w)
    ensures var s := w.store;
      var e := Event(SettleRuntimeCheckpoint(signer, organization, apiKey, runtime, checkpoint), now);
      && (Step(w, e).Ok? <==>
            && Owns(s, organization, signer) && HasKey(s, organization, apiKey)
            && runtime == QuotaRuntimePda(apiKey) && checkpoint == AuditCheckpointPda(apiKey)
            && HasRuntime(w, apiKey) && !InSession(w, apiKey)
            && s.organizations[organization].settlementCount < MAX_U64)
      && (Step(w, e).Ok? ==>
            var o, rt := s.organizations[organization], s.runtimes[runtime];
            Step(w, e).value == w.(store := s.(
              organizations := s.organizations[organization := o.(settlementCount := o.settlementCount + 1)],
              runtimes := s.runtimes[runtime :=
                rt.(lastSettledSequence := rt.rollingSequence, lastSettledAt := now, rollingAudit := [])],
              checkpoints := s.checkpoints[checkpoint :=
                CheckpointState(organization, apiKey, QuotaPolicyPda(apiKey), rt.rollingSequence,
                                rt.totalAllowed, rt.totalRejected, rt.currentWindowUsed, rt.currentWindowStartedAt,
                                rt.lastAction, rt.lastReason, rt.lastRequestAt, now)])))
  {
    hide Inv, InPlace, SettleGuards;
    KeyInPlace(w, apiKey);
    SettleGuardsHold(w.store, signer, organization, apiKey, runtime, checkpoint);
    if HasRuntime(w, apiKey) { OwnerFacts(w, apiKey); }
  }

  // ---------------------------------------------------------------- requests

  /** Whether a mask permits an action byte: the administrator's bit, or the bit of that action. */
  predicate Permits(mask: Mask, action: u8) {
    || mask & 16 != 0
    || (action == 0 && mask & 1 != 0)
    || (action == 1 && mask & 2 != 0)
    || (action == 2 && mask & 4 != 0)
    || (action == 3 && mask & 8 != 0)
  }

  /** The reason recorded for a request. */
  function ReasonFor(c: Context, rt: RuntimeState, action: u8, now: i64): u8 {
    if !c.active then 2
    else if action > 4 then 4
    else if !Permits(c.mask, action) then 1
    else
      var open := now < rt.currentWindowStartedAt + c.limits.windowSeconds;
      if open && rt.currentWindowUsed >= c.limits.maxRequests then 3 else 0
  }

  /** A runtime after a decision: an admission counts in the window it finds open or opens a new one, a
      rejection leaves the window alone, and the record joins the newest seven. */
  ghost function AfterRequest(rt: RuntimeState, c: Context, action: u8, now: i64): RuntimeState
    requires rt.totalAllowed + rt.totalRejected == rt.rollingSequence < MAX_U64
    requires rt.currentWindowUsed <= rt.rollingSequence
  {
    var reason := ReasonFor(c, rt, action, now);
    var expired := now >= rt.currentWindowStartedAt + c.limits.windowSeconds;
    var used := if reason != 0 then rt.currentWindowUsed else if expired then 1 else rt.currentWindowUsed + 1;
    var audit := rt.rollingAudit + [AuditRecord(rt.rollingSequence + 1, action, reason == 0, reason, now, used)];
    rt.(rollingSequence := rt.rollingSequence + 1,
        totalAllowed := rt.totalAllowed + (if reason == 0 then 1 else 0),
        totalRejected := rt.totalRejected + (if reason == 0 then 0 else 1),
        currentWindowUsed := used,
        currentWindowStartedAt := if reason == 0 && expired then now else rt.currentWindowStartedAt,
        lastAction := action, lastReason := reason, lastRequestAt := now,
        rollingAudit := if |audit| > 8 then audit[1..] else audit)
  }

  lemma PermitsIsAuthorized(c: Context, action: u8)
    ensures Authorized(c, action) <==> c.active && action <= 4 && Permits(c.mask, action)
  {
  }

  lemma VerdictIsReason(c: Context, rt: RuntimeState, action: u8, now: i64)
    requires Positive(c.limits)
    ensures Verdict(c, WindowOf(rt), action, now).Code() == ReasonFor(c, rt, action, now)
    ensures Verdict(c, WindowOf(rt), action, now) == Allowed <==> ReasonFor(c, rt, action, now) == 0
  {
    hide Authorized, Permits, RoleAllows;
    PermitsIsAuthorized(c, action);
  }

  lemma DecisionOutcome(rt: RuntimeState, c: Context, action: u8, now: i64)
    requires rt.totalAllowed + rt.totalRejected == rt.rollingSequence && rt.currentWindowUsed <= rt.rollingSequence
    requires Positive(c.limits)
    ensures var r := Consume(rt, c, action, now);
      && (r.Ok? <==>
            && rt.rollingSequence < MAX_U64
            && (ReasonFor(c, rt, action, now) in {0, 3} ==>
                  rt.currentWindowStartedAt + c.limits.windowSeconds <= MAX_I64))
      && (r.Ok? ==> r.value == AfterRequest(rt, c, action, now))
  {
    hide Consume, Verdict, Authorized, Permits, RoleAllows;
    ConsumeTakesVerdict(rt, c, action, now);
    VerdictIsReason(c, rt, action, now);
    PermitsIsAuthorized(c, action);
  }

  /** What a request comes to, on either layer: when it goes through, what it decides, and the whole of what it
      changes, which is one copy of one runtime and its log. */
  lemma RequestOutcome(w: World, i: Instruction, now: i64)
    requires Reachable(w) && i.ConsumeRequest?
    ensures Accepts(w, i.layer, i.apiKey) && OwnAccounts(w, i) ==>
      && i.role in w.store.roles && i.apiKey in w.store.apiKeys && i.policy in w.store.policies
      && HasRuntime(w, i.apiKey) && LiveOf(w, i.apiKey).currentWindowUsed <= LiveOf(w, i.apiKey).rollingSequence
      && LiveOf(w, i.apiKey).totalAllowed + LiveOf(w, i.apiKey).totalRejected == LiveOf(w, i.apiKey).rollingSequence
      && var policy := w.store.policies[i.policy];
         ContextFor(w, i) == Context(w.store.apiKeys[i.apiKey].active, w.store.roles[i.role].policyMask,
                                     Limits(policy.maxRequests, policy.windowSeconds))
    ensures Step(w, Event(i, now)).Ok? <==>
      && Accepts(w, i.layer, i.apiKey) && OwnAccounts(w, i)
      && LiveOf(w, i.apiKey).rollingSequence < MAX_U64
      && (ReasonFor(ContextFor(w, i), LiveOf(w, i.apiKey), i.action, now) in {0, 3} ==>
            LiveOf(w, i.apiKey).currentWindowStartedAt + ContextFor(w, i).limits.windowSeconds <= MAX_I64)
    ensures Step(w, Event(i, now)).Ok? ==>
      var s, k, c := w.store, i.apiKey, ContextFor(w, i);
      var rt, h := AfterRequest(LiveOf(w, k), c, i.action, now), w.histories[i.runtime];
      var record := AuditRecord(rt.rollingSequence, i.action, rt.lastReason == 0, rt.lastReason, now,
                                rt.currentWindowUsed);
      Step(w, Event(i, now)).value == World(
        match i.layer
        case BaseLayer => s.(runtimes := s.runtimes[i.runtime := rt])
        case Rollup => s.(sessions := s.sessions[i.runtime := s.sessions[i.runtime].(live := rt)]),
        w.histories[i.runtime := History(h.startedAt, h.log + [LogEntry(record, c)])])
  {
    hide Inv, Genuine, Consume, ValidMask, RoleAllows, ConsumeGuards, ReasonFor, AfterRequest, Step;
    var k := i.apiKey;
    ReachableInv(w);
    ConsumeFailsExactlyWhen(w, i, now);
    if Accepts(w, i.layer, k) && OwnAccounts(w, i) {
      KeyAtInv(w, k);
      LiveAddsUp(w, k);
      DecisionOutcome(LiveOf(w, k), ContextFor(w, i), i.action, now);
      ConsumeTakesVerdict(LiveOf(w, k), ContextFor(w, i), i.action, now);
      if Step(w, Event(i, now)).Ok? {
        RequestWrites(w, i, now);
        RecordedReason(LiveOf(w, k), ContextFor(w, i), i.action, now);
      }
    }
  }

  lemma LiveAddsUp(w: World, k: Pubkey)
    requires Inv(w) && HasRuntime(w, k)
    ensures var rt := LiveOf(w, k);
      && rt.totalAllowed + rt.totalRejected == rt.rollingSequence && rt.currentWindowUsed <= rt.rollingSequence
  {
    hide Inv, Genuine;
    LiveMirrors(w, k);
    SummaryAddsUp(StartOf(w, k), LogOf(w, k));
    UsedIsAllowed(StartOf(w, k), LogOf(w, k));
  }

  lemma RecordedReason(rt: RuntimeState, c: Context, action: u8, now: i64)
    requires rt.totalAllowed + rt.totalRejected == rt.rollingSequence < MAX_U64
    requires rt.currentWindowUsed <= rt.rollingSequence
    ensures var rt' := AfterRequest(rt, c, action, now);
      LastDecision(rt') == AuditRecord(rt'.rollingSequence, action, rt'.lastReason == 0, rt'.lastReason, now,
                                       rt'.currentWindowUsed)
  {
    hide ReasonFor;
  }

  lemma RequestWrites(w: World, i: Instruction, now: i64)
    requires i.ConsumeRequest? && HasRuntime(w, i.apiKey) && OwnAccounts(w, i) && Accepts(w, i.layer, i.apiKey)
    requires i.role in w.store.roles && i.apiKey in w.store.apiKeys && i.policy in w.store.policies
    requires Step(w, Event(i, now)).Ok?
    ensures var s, c, h := w.store, ContextFor(w, i), w.histories[i.runtime];
      var r := Consume(LiveOf(w, i.apiKey), c, i.action, now);
      && r.Ok?
      && Step(w, Event(i, now)).value == World(
           match i.layer
           case BaseLayer => s.(runtimes := s.runtimes[i.runtime := r.value])
           case Rollup => s.(sessions := s.sessions[i.runtime := s.sessions[i.runtime].(live := r.value)]),
           w.histories[i.runtime := History(h.startedAt, h.log + [LogEntry(LastDecision(r.value), c)])])
  {
    hide Consume, ConsumeGuards;
  }
}
