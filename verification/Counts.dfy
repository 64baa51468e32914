/** The counters on gateway and organization accounts are exact. */
module Counts {
  import opened Base
  import opened Permissions
  import opened Accounts
  import opened StateMachine
  import opened Invariants
  import opened Guarantees

  function RolesOf(s: Store, o: Pubkey): set<Pubkey> {
    set r | r in s.roles && s.roles[r].organization == o
  }

  function KeysOf(s: Store, o: Pubkey): set<Pubkey> {
    set k | k in s.apiKeys && s.apiKeys[k].organization == o
  }

  ghost predicate CountsAt(s: Store, o: Pubkey)
    requires o in s.organizations
  {
    s.organizations[o].roleCount == |RolesOf(s, o)| && s.organizations[o].apiKeyCount == |KeysOf(s, o)|
  }

  ghost predicate CountsExact(s: Store) {
    && s.gateway.organizationCount == |s.organizations|
    && (forall o :: o in s.organizations ==> CountsAt(s, o))
  }

  function SettlementCount(s: Store, o: Pubkey): nat {
    if o in s.organizations then s.organizations[o].settlementCount else 0
  }

  ghost predicate SameSettlements(s: Store, s': Store) {
    forall o :: SettlementCount(s', o) == SettlementCount(s, o)
  }

  /** No role or key names an organization that does not exist. */
  lemma NothingYet(s: Store, o: Pubkey)
    requires RolesOk(s) && KeysOk(s) && o !in s.organizations
    ensures RolesOf(s, o) == {} && KeysOf(s, o) == {}
  {
  }

  lemma SameSets(s: Store, s': Store, o: Pubkey)
    requires s'.roles == s.roles && s'.apiKeys == s.apiKeys
    ensures RolesOf(s', o) == RolesOf(s, o) && KeysOf(s', o) == KeysOf(s, o)
  {
  }

  lemma OrganizationCounted(s: Store, s': Store, o: Pubkey, organization: OrganizationState)
    requires CountsExact(s) && RolesOk(s) && KeysOk(s)
    requires s'.roles == s.roles && s'.apiKeys == s.apiKeys
    requires o !in s.organizations && s'.organizations == s.organizations[o := organization]
    requires organization.roleCount == organization.apiKeyCount == 0
    requires s'.gateway.organizationCount == s.gateway.organizationCount + 1
    ensures CountsExact(s')
  {
    hide RolesOk, KeysOk, RolesOf, KeysOf;
    NothingYet(s, o);
    forall q | q in s'.organizations ensures CountsAt(s', q) {
      SameSets(s, s', q);
      if q != o { assert CountsAt(s, q); }
    }
  }

  lemma RolesOfGrow(s: Store, s': Store, r: Pubkey, role: RoleState, q: Pubkey)
    requires r !in s.roles && s'.roles == s.roles[r := role]
    ensures |RolesOf(s', q)| == |RolesOf(s, q)| + if q == role.organization then 1 else 0
  {
    assert RolesOf(s', q) == RolesOf(s, q) + if q == role.organization then {r} else {};
  }

  lemma KeysOfGrow(s: Store, s': Store, k: Pubkey, key: ApiKeyState, q: Pubkey)
    requires k !in s.apiKeys && s'.apiKeys == s.apiKeys[k := key]
    ensures |KeysOf(s', q)| == |KeysOf(s, q)| + if q == key.organization then 1 else 0
  {
    assert KeysOf(s', q) == KeysOf(s, q) + if q == key.organization then {k} else {};
  }

  lemma RoleCounted(s: Store, s': Store, o: Pubkey, r: Pubkey, role: RoleState, organization: OrganizationState)
    requires CountsExact(s)
    requires r !in s.roles && s'.roles == s.roles[r := role] && s'.apiKeys == s.apiKeys && s'.gateway == s.gateway
    requires role.organization == o && o in s.organizations && s'.organizations == s.organizations[o := organization]
    requires organization.roleCount == s.organizations[o].roleCount + 1
    requires organization.apiKeyCount == s.organizations[o].apiKeyCount
    ensures CountsExact(s')
  {
    assert s'.organizations.Keys == s.organizations.Keys;
    forall q | q in s'.organizations ensures CountsAt(s', q) {
      assert CountsAt(s, q);
      RolesOfGrow(s, s', r, role, q);
      assert KeysOf(s', q) == KeysOf(s, q);
    }
  }

  lemma KeyCounted(s: Store, s': Store, o: Pubkey, k: Pubkey, key: ApiKeyState, organization: OrganizationState)
    requires CountsExact(s)
    requires k !in s.apiKeys && s'.apiKeys == s.apiKeys[k := key] && s'.roles == s.roles && s'.gateway == s.gateway
    requires key.organization == o && o in s.organizations && s'.organizations == s.organizations[o := organization]
    requires organization.apiKeyCount == s.organizations[o].apiKeyCount + 1
    requires organization.roleCount == s.organizations[o].roleCount
    ensures CountsExact(s')
  {
    assert s'.organizations.Keys == s.organizations.Keys;
    forall q | q in s'.organizations ensures CountsAt(s', q) {
      assert CountsAt(s, q);
      KeysOfGrow(s, s', k, key, q);
      assert RolesOf(s', q) == RolesOf(s, q);
    }
  }

  lemma CreateOrganizationCounts(s: Store, authority: Pubkey, name: Bytes, orgAuthority: Pubkey, s': Store)
    requires CountsExact(s) && RolesOk(s) && KeysOk(s)
    requires ExecCreateOrganization(s, authority, name, orgAuthority) == Ok(s')
    ensures CountsExact(s') && SameSettlements(s, s')
  {
    hide CountsExact, RolesOk, KeysOk;
    var o := OrganizationPda(GatewayPda, name);
    OrganizationCounted(s, s', o, s'.organizations[o]);
  }

  lemma CreateRoleCounts(s: Store, authority: Pubkey, organization: Pubkey, name: Bytes, now: i64, s': Store)
    requires CountsExact(s) && ExecCreateRole(s, authority, organization, name, now) == Ok(s')
    ensures CountsExact(s') && SameSettlements(s, s')
  {
    hide CountsExact;
    var r := RolePda(organization, name);
    RoleCounted(s, s', organization, r, s'.roles[r], s'.organizations[organization]);
  }

  lemma CreateApiKeyCounts(s: Store, authority: Pubkey, organization: Pubkey, role: Pubkey, keyId: Pubkey,
                           displayLabel: Bytes, now: i64, s': Store)
    requires CountsExact(s) && ExecCreateApiKey(s, authority, organization, role, keyId, displayLabel, now) == Ok(s')
    ensures CountsExact(s') && SameSettlements(s, s')
  {
    hide CountsExact;
    var k := ApiKeyPda(organization, keyId);
    KeyCounted(s, s', organization, k, s'.apiKeys[k], s'.organizations[organization]);
  }

  /** No other event creates an organization, a role or a key, or writes one of the three counters. */
  ghost predicate SameCounted(s: Store, s': Store) {
    && s'.gateway == s.gateway && s'.organizations.Keys == s.organizations.Keys
    && (forall o :: o in s.organizations ==>
          && s'.organizations[o].roleCount == s.organizations[o].roleCount
          && s'.organizations[o].apiKeyCount == s.organizations[o].apiKeyCount)
    && s'.roles.Keys == s.roles.Keys
    && (forall r :: r in s.roles ==> s'.roles[r].organization == s.roles[r].organization)
    && s'.apiKeys.Keys == s.apiKeys.Keys
    && (forall k :: k in s.apiKeys ==> s'.apiKeys[k].organization == s.apiKeys[k].organization)
  }

  lemma SameCountsKept(s: Store, s': Store)
    requires CountsExact(s) && SameCounted(s, s')
    ensures CountsExact(s')
  {
    assert |s'.organizations| == |s'.organizations.Keys|;
    forall q | q in s'.organizations ensures CountsAt(s', q) {
      assert CountsAt(s, q);
      assert RolesOf(s', q) == RolesOf(s, q) && KeysOf(s', q) == KeysOf(s, q);
    }
  }

  lemma AttachPolicyCounts(s: Store, authority: Pubkey, organization: Pubkey, role: Pubkey, mask: Mask, s': Store)
    requires ExecAttachPolicy(s, authority, organization, role, mask) == Ok(s')
    ensures SameCounted(s, s') && SameSettlements(s, s')
  {
  }

  lemma RevokeCounts(s: Store, authority: Pubkey, organization: Pubkey, apiKey: Pubkey, now: i64, s': Store)
    requires ExecRevoke(s, authority, organization, apiKey, now) == Ok(s')
    ensures SameCounted(s, s') && SameSettlements(s, s')
  {
  }

  lemma CreateQuotaPolicyCounts(s: Store, authority: Pubkey, organization: Pubkey, apiKey: Pubkey,
                                maxRequests: u64, windowSeconds: i64, s': Store)
    requires ExecCreateQuotaPolicy(s, authority, organization, apiKey, maxRequests, windowSeconds) == Ok(s')
    ensures SameCounted(s, s') && SameSettlements(s, s')
  {
  }

  lemma RuntimeCounts(s: Store, s': Store)
    requires SameControlPlane(s, s')
    ensures SameCounted(s, s')
  {
  }

  lemma ControlCounts(s: Store, e: Event, s': Store)
    requires CountsExact(s) && ControlOk(s) && IsControlPlane(e.instruction) && Execute(s, e) == Ok(s')
    ensures CountsExact(s') && SameSettlements(s, s')
  {
    hide CountsExact, SameCounted, SameSettlements, OrganizationsOk, RolesOk, KeysOk, PoliciesOk;
    hide ExecCreateOrganization, ExecCreateRole, ExecAttachPolicy, ExecCreateApiKey, ExecCreateQuotaPolicy, ExecRevoke;
    match e.instruction
    case CreateOrganization(authority, name, orgAuthority) =>
      CreateOrganizationCounts(s, authority, name, orgAuthority, s');
    case CreateRole(authority, organization, name) => CreateRoleCounts(s, authority, organization, name, e.now, s');
    case AttachPolicy(authority, organization, r, mask) =>
      AttachPolicyCounts(s, authority, organization, r, mask, s');
      SameCountsKept(s, s');
    case CreateApiKey(authority, organization, r, keyId, displayLabel) =>
      CreateApiKeyCounts(s, authority, organization, r, keyId, displayLabel, e.now, s');
    case CreateQuotaPolicy(authority, organization, apiKey, maxRequests, windowSeconds) =>
      CreateQuotaPolicyCounts(s, authority, organization, apiKey, maxRequests, windowSeconds, s');
      SameCountsKept(s, s');
    case RevokeApiKey(authority, organization, apiKey) =>
      RevokeCounts(s, authority, organization, apiKey, e.now, s');
      SameCountsKept(s, s');
  }

  lemma CountsKept(w: World, e: Event)
    requires Inv(w) && CountsExact(w.store)
    ensures CountsExact(Apply(w, e).store)
  {
    hide CountsExact, SameCounted, SameControlPlane, Execute;
    hide LanesOk, Addressed, OrganizationsOk, RolesOk, KeysOk, PoliciesOk;
    if Step(w, e).Ok? {
      var s' := Step(w, e).value.store;
      if IsControlPlane(e.instruction) {
        ControlCounts(w.store, e, s');
      } else {
        RuntimeStepKeepsInv(w, e);
        RuntimeCounts(w.store, s');
        SameCountsKept(w.store, s');
      }
    }
  }

  // ---------------------------------------------------------------- settlements

  /** Successful settlements of organization `o` in a run. */
  function Settlements(w: World, events: seq<Event>, o: Pubkey): nat
    decreases |events|
  {
    if events == [] then 0
    else
      var i := events[0].instruction;
      (if i.SettleRuntimeCheckpoint? && i.organization == o && Step(w, events[0]).Ok? then 1 else 0)
      + Settlements(Apply(w, events[0]), events[1..], o)
  }

  lemma SettleCountsOne(s: Store, e: Event)
    requires e.instruction.SettleRuntimeCheckpoint? && Execute(s, e).Ok?
    ensures e.instruction.organization in s.organizations
    ensures s.organizations[e.instruction.organization].settlementCount < MAX_U64
  {
  }

  lemma ControlAtInv(w: World)
    requires Inv(w)
    ensures ControlOk(w.store)
  {
  }

  lemma SettlementStep(w: World, e: Event, o: Pubkey)
    requires Inv(w) && CountsExact(w.store)
    ensures SettlementCount(Apply(w, e).store, o) == SettlementCount(w.store, o) + Settlements(w, [e], o)
  {
    hide Inv, Execute, RefinesLane, CountsExact;
    if Step(w, e).Ok? {
      var s' := Step(w, e).value.store;
      if IsControlPlane(e.instruction) {
        ControlAtInv(w);
        ControlCounts(w.store, e, s');
      } else {
        RuntimeStepOpened(w, e);
        if e.instruction.SettleRuntimeCheckpoint? { SettleCountsOne(w.store, e); }
      }
    }
  }

  lemma {:induction false} CountsAlongRun(w: World, events: seq<Event>, o: Pubkey)
    requires Inv(w) && CountsExact(w.store)
    ensures var s' := Run(w, events).store;
      CountsExact(s') && SettlementCount(s', o) == SettlementCount(w.store, o) + Settlements(w, events, o)
    decreases |events|
  {
    hide Inv, Apply, CountsExact, Step;
    if events == [] {
    } else {
      var e := events[0];
      CountsKept(w, e);
      SettlementStep(w, e, o);
      InvKept(w, e);
      CountsAlongRun(Apply(w, e), events[1..], o);
      assert Settlements(w, [e], o) + Settlements(Apply(w, e), events[1..], o) == Settlements(w, events, o);
    }
  }

  /** In every run, with duplicate attempts and rolled-back failures in it: the gateway counts the
      organizations, each organization its roles, its keys, and the settlements that succeeded. */
  lemma CountsAreExact(authority: Pubkey, events: seq<Event>, o: Pubkey)
    requires o in Run(Genesis(authority), events).store.organizations
    ensures var s := Run(Genesis(authority), events).store;
      && s.gateway.organizationCount == |s.organizations|
      && s.organizations[o].roleCount == |RolesOf(s, o)|
      && s.organizations[o].apiKeyCount == |KeysOf(s, o)|
      && s.organizations[o].settlementCount == Settlements(Genesis(authority), events, o)
  {
    hide Inv, Run, Settlements;
    GenesisInv(authority);
    CountsAlongRun(Genesis(authority), events, o);
    var s := Run(Genesis(authority), events).store;
    assert CountsAt(s, o);
  }
}
