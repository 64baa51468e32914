/** Who may act. Everything but a request and a landing needs the signature of the authority of the organization
    it acts on; so without that signature an organization's accounts stay as they are, and its runtimes see
    nothing but requests and landings. */
module Authority {
  import opened Base
  import opened Accounts
  import opened StateMachine
  import opened Lane
  import opened Invariants
  import opened Guarantees
  import opened Instructions
  import opened Isolation

  /** Who has signed; a request and a landing need nobody in particular. */
  function Signer(i: Instruction): Option<Pubkey> {
    match i
    case CreateOrganization(authority, _, _) => Some(authority)
    case CreateRole(authority, _, _) => Some(authority)
    case AttachPolicy(authority, _, _, _) => Some(authority)
    case CreateApiKey(authority, _, _, _, _) => Some(authority)
    case CreateQuotaPolicy(authority, _, _, _, _) => Some(authority)
    case RevokeApiKey(authority, _, _) => Some(authority)
    case InitializeQuotaRuntime(authority, _, _, _) => Some(authority)
    case DelegateQuotaRuntime(authority, _, _, _, _, _, _) => Some(authority)
    case CommitQuotaRuntime(authority, _, _, _) => Some(authority)
    case CommitAndUndelegateQuotaRuntime(authority, _, _, _) => Some(authority)
    case SettleRuntimeCheckpoint(authority, _, _, _, _) => Some(authority)
    case ConsumeRequest(_, _, _, _, _, _, _) => None
    case Deliver(_) => None
  }

  predicate IsTraffic(i: Instruction) {
    i.ConsumeRequest? || i.Deliver?
  }

  /** The organization an instruction acts on. */
  function Target(i: Instruction): Pubkey
    requires !IsTraffic(i)
  {
    match i
    case CreateOrganization(_, name, _) => OrganizationPda(GatewayPda, name)
    case CreateRole(_, organization, _) => organization
    case AttachPolicy(_, organization, _, _) => organization
    case CreateApiKey(_, organization, _, _, _) => organization
    case CreateQuotaPolicy(_, organization, _, _, _) => organization
    case RevokeApiKey(_, organization, _) => organization
    case InitializeQuotaRuntime(_, organization, _, _) => organization
    case DelegateQuotaRuntime(_, organization, _, _, _, _, _) => organization
    case CommitQuotaRuntime(_, organization, _, _) => organization
    case CommitAndUndelegateQuotaRuntime(_, organization, _, _) => organization
    case SettleRuntimeCheckpoint(_, organization, _, _, _) => organization
  }

  /** An organization is created by the gateway's authority, and only where there is none; everything else that
      is not traffic is done by the authority of the organization it acts on. */
  lemma OnlyAuthoritiesAct(w: World, e: Event)
    requires Inv(w) && !IsTraffic(e.instruction) && Step(w, e).Ok?
    ensures var i, s := e.instruction, w.store;
      if i.CreateOrganization? then
        Signer(i) == Some(s.gateway.authority) && Target(i) !in s.organizations
      else
        Target(i) in s.organizations && Signer(i) == Some(s.organizations[Target(i)].authority)
  {
    hide Inv, Step;
    match e.instruction
    case CreateOrganization(a, name, authority) => CreateOrganizationOutcome(w, a, name, authority, e.now);
    case CreateRole(a, o, name) => CreateRoleOutcome(w, a, o, name, e.now);
    case AttachPolicy(a, o, role, mask) => AttachPolicyOutcome(w, a, o, role, mask, e.now);
    case CreateApiKey(a, o, role, id, text) => CreateApiKeyOutcome(w, a, o, role, id, text, e.now);
    case CreateQuotaPolicy(a, o, k, max, window) => CreateQuotaPolicyOutcome(w, a, o, k, max, window, e.now);
    case RevokeApiKey(a, o, k) => RevokeOutcome(w, a, o, k, e.now);
    case InitializeQuotaRuntime(a, o, k, p) => InitializeOutcome(w, a, o, k, p, e.now);
    case DelegateQuotaRuntime(a, o, k, p, r, v, ms) => DelegateOutcome(w, a, o, k, p, r, v, ms, e.now);
    case CommitQuotaRuntime(a, o, k, r) => CommitOutcome(w, a, o, k, r, e.now);
    case CommitAndUndelegateQuotaRuntime(a, o, k, r) => UndelegateOutcome(w, a, o, k, r, e.now);
    case SettleRuntimeCheckpoint(a, o, k, r, c) => SettleOutcome(w, a, o, k, r, c, e.now);
  }

  // ---------------------------------------------------------------- an organization's own accounts

  /** An organization and the roles, keys and policies that belong to it. */
  datatype Holdings = Holdings(
    organization: Option<OrganizationState>, roles: map<Pubkey, RoleState>, apiKeys: map<Pubkey, ApiKeyState>,
    policies: map<Pubkey, PolicyState>)

  function HoldingsOf(s: Store, o: Pubkey): Holdings {
    Holdings(Lookup(s.organizations, o),
             map r | r in s.roles && s.roles[r].organization == o :: s.roles[r],
             map k | k in s.apiKeys && s.apiKeys[k].organization == o :: s.apiKeys[k],
             map p | p in s.policies && s.policies[p].organization == o :: s.policies[p])
  }

  /** The organization's authority has not signed. */
  predicate Outside(w: World, i: Instruction, o: Pubkey)
    requires o in w.store.organizations
  {
    Signer(i) != Some(w.store.organizations[o].authority)
  }

  lemma TrafficLeavesHoldings(w: World, e: Event, o: Pubkey)
    requires Inv(w) && IsTraffic(e.instruction) && Step(w, e).Ok?
    ensures HoldingsOf(Step(w, e).value.store, o) == HoldingsOf(w.store, o)
  {
    hide Inv, Execute, HoldingsOf;
    RuntimeStepOpened(w, e);
    SameHoldings(w.store, Step(w, e).value.store, o);
  }

  lemma SameHoldings(s: Store, s': Store, o: Pubkey)
    requires s'.organizations == s.organizations && s'.roles == s.roles && s'.apiKeys == s.apiKeys
    requires s'.policies == s.policies
    ensures HoldingsOf(s', o) == HoldingsOf(s, o)
  {
  }

  lemma RoleElsewhere(s: Store, s': Store, r: Pubkey, role: RoleState, o: Pubkey)
    requires Lookup(s'.organizations, o) == Lookup(s.organizations, o)
    requires s'.roles == s.roles[r := role] && s'.apiKeys == s.apiKeys && s'.policies == s.policies
    requires role.organization != o && (r in s.roles ==> s.roles[r].organization != o)
    ensures HoldingsOf(s', o) == HoldingsOf(s, o)
  {
  }

  lemma KeyElsewhere(s: Store, s': Store, k: Pubkey, key: ApiKeyState, o: Pubkey)
    requires Lookup(s'.organizations, o) == Lookup(s.organizations, o)
    requires s'.apiKeys == s.apiKeys[k := key] && s'.roles == s.roles && s'.policies == s.policies
    requires key.organization != o && (k in s.apiKeys ==> s.apiKeys[k].organization != o)
    ensures HoldingsOf(s', o) == HoldingsOf(s, o)
  {
  }

  lemma PolicyElsewhere(s: Store, s': Store, p: Pubkey, policy: PolicyState, o: Pubkey)
    requires Lookup(s'.organizations, o) == Lookup(s.organizations, o)
    requires s'.policies == s.policies[p := policy] && s'.roles == s.roles && s'.apiKeys == s.apiKeys
    requires policy.organization != o && (p in s.policies ==> s.policies[p].organization != o)
    ensures HoldingsOf(s', o) == HoldingsOf(s, o)
  {
  }

  lemma OrganizationElsewhere(s: Store, s': Store, o: Pubkey)
    requires Lookup(s'.organizations, o) == Lookup(s.organizations, o)
    requires s'.roles == s.roles && s'.apiKeys == s.apiKeys && s'.policies == s.policies
    ensures HoldingsOf(s', o) == HoldingsOf(s, o)
  {
  }

  lemma OutsiderCreatesOrganization(w: World, e: Event, o: Pubkey)
    requires Inv(w) && o in w.store.organizations && Step(w, e).Ok?
    requires e.instruction.CreateOrganization? && Target(e.instruction) != o
    ensures HoldingsOf(Step(w, e).value.store, o) == HoldingsOf(w.store, o)
  {
    hide Inv, Step, HoldingsOf;
    var i, s, s' := e.instruction, w.store, Step(w, e).value.store;
    CreateOrganizationOutcome(w, i.authority, i.name, i.organizationAuthority, e.now);
    OrganizationElsewhere(s, s', o);
  }

  lemma OutsiderCreatesRole(w: World, e: Event, o: Pubkey)
    requires Inv(w) && o in w.store.organizations && Step(w, e).Ok?
    requires e.instruction.CreateRole? && Target(e.instruction) != o
    ensures HoldingsOf(Step(w, e).value.store, o) == HoldingsOf(w.store, o)
  {
    hide Inv, Step, HoldingsOf;
    var i, s, s' := e.instruction, w.store, Step(w, e).value.store;
    var r := RolePda(i.organization, i.name);
    CreateRoleOutcome(w, i.authority, i.organization, i.name, e.now);
    RoleElsewhere(s, s', r, s'.roles[r], o);
  }

  lemma OutsiderAttachesPolicy(w: World, e: Event, o: Pubkey)
    requires Inv(w) && o in w.store.organizations && Step(w, e).Ok?
    requires e.instruction.AttachPolicy? && Target(e.instruction) != o
    ensures HoldingsOf(Step(w, e).value.store, o) == HoldingsOf(w.store, o)
  {
    hide Inv, Step, HoldingsOf;
    var i, s, s' := e.instruction, w.store, Step(w, e).value.store;
    AttachPolicyOutcome(w, i.authority, i.organization, i.role, i.policyMask, e.now);
    RoleElsewhere(s, s', i.role, s'.roles[i.role], o);
  }

  lemma OutsiderCreatesKey(w: World, e: Event, o: Pubkey)
    requires Inv(w) && o in w.store.organizations && Step(w, e).Ok?
    requires e.instruction.CreateApiKey? && Target(e.instruction) != o
    ensures HoldingsOf(Step(w, e).value.store, o) == HoldingsOf(w.store, o)
  {
    hide Inv, Step, HoldingsOf;
    var i, s, s' := e.instruction, w.store, Step(w, e).value.store;
    var k := ApiKeyPda(i.organization, i.keyId);
    CreateApiKeyOutcome(w, i.authority, i.organization, i.role, i.keyId, i.displayLabel, e.now);
    KeyElsewhere(s, s', k, s'.apiKeys[k], o);
  }

  lemma OutsiderConfigures(w: World, e: Event, o: Pubkey)
    requires Inv(w) && o in w.store.organizations && Step(w, e).Ok?
    requires e.instruction.CreateQuotaPolicy? && Target(e.instruction) != o
    ensures HoldingsOf(Step(w, e).value.store, o) == HoldingsOf(w.store, o)
  {
    hide Inv, Step, HoldingsOf;
    var i, s, s' := e.instruction, w.store, Step(w, e).value.store;
    var p := QuotaPolicyPda(i.apiKey);
    CreateQuotaPolicyOutcome(w, i.authority, i.organization, i.apiKey, i.maxRequests, i.windowSeconds, e.now);
    PolicyOfKey(w, i.apiKey);
    PolicyElsewhere(s, s', p, s'.policies[p], o);
  }

  lemma OutsiderRevokes(w: World, e: Event, o: Pubkey)
    requires Inv(w) && o in w.store.organizations && Step(w, e).Ok?
    requires e.instruction.RevokeApiKey? && Target(e.instruction) != o
    ensures HoldingsOf(Step(w, e).value.store, o) == HoldingsOf(w.store, o)
  {
    hide Inv, Step, HoldingsOf;
    var i, s, s' := e.instruction, w.store, Step(w, e).value.store;
    RevokeOutcome(w, i.authority, i.organization, i.apiKey, e.now);
    KeyElsewhere(s, s', i.apiKey, s'.apiKeys[i.apiKey], o);
  }

  lemma OutsiderControls(w: World, e: Event, o: Pubkey)
    requires Inv(w) && o in w.store.organizations && Step(w, e).Ok? && IsControlPlane(e.instruction)
    requires Target(e.instruction) != o
    ensures HoldingsOf(Step(w, e).value.store, o) == HoldingsOf(w.store, o)
  {
    hide Inv, Step, HoldingsOf, Target;
    match e.instruction
    case CreateOrganization(_, _, _) => OutsiderCreatesOrganization(w, e, o);
    case CreateRole(_, _, _) => OutsiderCreatesRole(w, e, o);
    case AttachPolicy(_, _, _, _) => OutsiderAttachesPolicy(w, e, o);
    case CreateApiKey(_, _, _, _, _) => OutsiderCreatesKey(w, e, o);
    case CreateQuotaPolicy(_, _, _, _, _) => OutsiderConfigures(w, e, o);
    case RevokeApiKey(_, _, _) => OutsiderRevokes(w, e, o);
  }

  lemma PolicyOfKey(w: World, k: Pubkey)
    requires Inv(w)
    ensures var p := QuotaPolicyPda(k);
      p in w.store.policies ==>
        k in w.store.apiKeys && w.store.policies[p].organization == w.store.apiKeys[k].organization
  {
    hide OrganizationsOk, RolesOk, KeysOk, LanesOk, Addressed;
    if QuotaPolicyPda(k) in w.store.policies { PolicyAt(w.store, QuotaPolicyPda(k)); }
  }

  lemma OutsiderManagesRuntimes(w: World, e: Event, o: Pubkey)
    requires Inv(w) && o in w.store.organizations && Step(w, e).Ok?
    requires !IsControlPlane(e.instruction) && !IsTraffic(e.instruction) && Target(e.instruction) != o
    ensures HoldingsOf(Step(w, e).value.store, o) == HoldingsOf(w.store, o)
  {
    hide Inv, Execute, LaneStep;
    RuntimeStepOpened(w, e);
  }

  lemma OutsiderStep(w: World, e: Event, o: Pubkey)
    requires Inv(w) && o in w.store.organizations && Step(w, e).Ok? && Outside(w, e.instruction, o)
    ensures HoldingsOf(Step(w, e).value.store, o) == HoldingsOf(w.store, o)
  {
    hide Inv, Step, HoldingsOf;
    if IsTraffic(e.instruction) {
      TrafficLeavesHoldings(w, e, o);
    } else {
      OnlyAuthoritiesAct(w, e);
      if IsControlPlane(e.instruction) {
        OutsiderControls(w, e, o);
      } else {
        OutsiderManagesRuntimes(w, e, o);
      }
    }
  }

  /** The successful events of a run that are signed by the authority of `o`: none. */
  ghost predicate NoneSignedFor(w: World, run: seq<Event>, o: Pubkey)
    requires o in w.store.organizations
  {
    forall i :: 0 <= i < |run| ==> Outside(w, run[i].instruction, o)
  }

  lemma {:induction false} OutsidersAlongRun(w: World, run: seq<Event>, o: Pubkey)
    requires Inv(w) && o in w.store.organizations && Succeeds(w, run) && NoneSignedFor(w, run, o)
    ensures HoldingsOf(Run(w, run).store, o) == HoldingsOf(w.store, o)
    decreases |run|
  {
    hide Inv, Step;
    if run == [] {
    } else {
      var w' := Apply(w, run[0]);
      OutsiderStep(w, run[0], o);
      InvKept(w, run[0]);
      HeldOrganization(w.store, w'.store, o);
      assert forall i :: 0 <= i < |run[1..]| ==> run[1..][i] == run[i + 1];
      OutsidersAlongRun(w', run[1..], o);
    }
  }

  lemma HeldOrganization(s: Store, s': Store, o: Pubkey)
    requires HoldingsOf(s', o) == HoldingsOf(s, o) && o in s.organizations
    ensures o in s'.organizations && s'.organizations[o] == s.organizations[o]
  {
  }

  /** As long as an organization's authority signs nothing that succeeds, then whatever anybody else does, the
      organization, its counters, its roles, its keys and its policies stay exactly as they are. */
  lemma OutsidersChangeNothing(w: World, events: seq<Event>, o: Pubkey)
    requires Reachable(w) && o in w.store.organizations && NoneSignedFor(w, Successes(w, events), o)
    ensures HoldingsOf(Run(w, events).store, o) == HoldingsOf(w.store, o)
  {
    hide Inv, Run, Successes, Succeeds, HoldingsOf, NoneSignedFor;
    ReachableInv(w);
    FailuresLeaveNoTrace(w, events);
    OutsidersAlongRun(w, Successes(w, events), o);
  }

  // ---------------------------------------------------------------- its runtimes

  lemma OutsideConcernIsTraffic(w: World, e: Event, k: Pubkey)
    requires Inv(w) && k in w.store.apiKeys && k.ApiKeyPda? && Step(w, e).Ok?
    requires k.organization in w.store.organizations && Outside(w, e.instruction, k.organization)
    requires OneKey(k, w.store.apiKeys[k].role) && k.organization == w.store.apiKeys[k].organization
    ensures Concerns(e.instruction, k, w.store.apiKeys[k].role) ==> IsTraffic(e.instruction)
  {
    hide Inv, Step;
    if !IsTraffic(e.instruction) && Concerns(e.instruction, k, w.store.apiKeys[k].role) {
      OnlyAuthoritiesAct(w, e);
      OwnOrganization(w, e, k);
    }
  }

  /** An instruction that succeeds and concerns a key acts on the key's organization. */
  lemma OwnOrganization(w: World, e: Event, k: Pubkey)
    requires Inv(w) && k in w.store.apiKeys && k.ApiKeyPda? && Step(w, e).Ok? && !IsTraffic(e.instruction)
    requires OneKey(k, w.store.apiKeys[k].role) && k.organization == w.store.apiKeys[k].organization
    requires Concerns(e.instruction, k, w.store.apiKeys[k].role)
    ensures Target(e.instruction) == k.organization
  {
    hide Inv, Step;
    match e.instruction
    case CreateOrganization(_, _, _) =>
    case CreateRole(_, _, _) =>
    case AttachPolicy(a, o, role, mask) =>
      AttachPolicyOutcome(w, a, o, role, mask, e.now);
      RoleHome(w, role);
    case CreateApiKey(_, _, _, _, _) =>
    case CreateQuotaPolicy(a, o, key, max, window) => CreateQuotaPolicyOutcome(w, a, o, key, max, window, e.now);
    case RevokeApiKey(a, o, key) => RevokeOutcome(w, a, o, key, e.now);
    case InitializeQuotaRuntime(a, o, key, p) => InitializeOutcome(w, a, o, key, p, e.now);
    case DelegateQuotaRuntime(a, o, key, p, r, v, ms) => DelegateOutcome(w, a, o, key, p, r, v, ms, e.now);
    case CommitQuotaRuntime(a, o, key, r) => CommitOutcome(w, a, o, key, r, e.now);
    case CommitAndUndelegateQuotaRuntime(a, o, key, r) => UndelegateOutcome(w, a, o, key, r, e.now);
    case SettleRuntimeCheckpoint(a, o, key, r, c) => SettleOutcome(w, a, o, key, r, c, e.now);
  }

  lemma RoleHome(w: World, role: Pubkey)
    requires Inv(w) && role in w.store.roles && role.RolePda?
    ensures w.store.roles[role].organization == role.organization
  {
    hide OrganizationsOk, KeysOk, PoliciesOk, LanesOk, Addressed;
    RoleAt(w.store, role);
  }

  lemma {:induction false} OutsidersSendTraffic(w: World, run: seq<Event>, k: Pubkey, role: Pubkey)
    requires Inv(w) && Succeeds(w, run) && k in w.store.apiKeys && role == w.store.apiKeys[k].role
    requires k.ApiKeyPda? && OneKey(k, role) && k.organization == w.store.apiKeys[k].organization
    requires k.organization in w.store.organizations && NoneSignedFor(w, run, k.organization)
    ensures forall i :: 0 <= i < |Project(run, k, role)| ==> IsTraffic(Project(run, k, role)[i].instruction)
    decreases |run|
  {
    hide Inv, Step, Concerns;
    if run == [] {
    } else {
      var o, w' := k.organization, Apply(w, run[0]);
      OutsideConcernIsTraffic(w, run[0], k);
      OutsiderStep(w, run[0], o);
      InvKept(w, run[0]);
      HeldOrganization(w.store, w'.store, o);
      HeldKey(w.store, w'.store, o, k);
      assert forall i :: 0 <= i < |run[1..]| ==> run[1..][i] == run[i + 1];
      OutsidersSendTraffic(w', run[1..], k, role);
    }
  }

  lemma HeldKey(s: Store, s': Store, o: Pubkey, k: Pubkey)
    requires HoldingsOf(s', o) == HoldingsOf(s, o) && k in s.apiKeys && s.apiKeys[k].organization == o
    ensures k in s'.apiKeys && s'.apiKeys[k] == s.apiKeys[k]
  {
    assert k in HoldingsOf(s, o).apiKeys;
    assert k in HoldingsOf(s', o).apiKeys;
  }

  /** And each of its keys' runtimes, copies, snapshots, checkpoint and log, becomes exactly what the requests
      and landings on that key alone make of it. */
  lemma OutsidersOnlySendTraffic(w: World, events: seq<Event>, k: Pubkey)
    requires Reachable(w) && k in w.store.apiKeys
    ensures k.ApiKeyPda? && k.organization in w.store.organizations
    ensures NoneSignedFor(w, Successes(w, events), k.organization) ==>
      var traffic := Project(Successes(w, events), k, w.store.apiKeys[k].role);
      && (forall i :: 0 <= i < |traffic| ==> IsTraffic(traffic[i].instruction))
      && ViewAt(Run(w, events).store, k) == ViewAt(Run(w, traffic).store, k)
      && HistoryAt(Run(w, events), k) == HistoryAt(Run(w, traffic), k)
  {
    hide Inv, Run, Successes, Succeeds, Project, NoneSignedFor;
    var role, run := w.store.apiKeys[k].role, Successes(w, events);
    ReachableInv(w);
    KeyAndRole(w, k);
    KeyHome(w, k);
    if NoneSignedFor(w, run, k.organization) {
      FailuresLeaveNoTrace(w, events);
      OutsidersSendTraffic(w, run, k, role);
      RoleStays(w, run, k);
      ProjectRun(w, w, run, k, role);
    }
  }

  lemma KeyHome(w: World, k: Pubkey)
    requires Inv(w) && k in w.store.apiKeys
    ensures k.ApiKeyPda? && k.organization == w.store.apiKeys[k].organization && k.organization in w.store.organizations
  {
    hide OrganizationsOk, RolesOk, PoliciesOk, LanesOk, Addressed;
    KeyAt(w.store, k);
  }
}
