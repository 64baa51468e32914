/** Revocation is permanent: no later event reactivates a key, and nothing is ever admitted on it again. */
module Revocation {
  import opened Base
  import opened Permissions
  import opened Accounts
  import opened AuditLog
  import opened RateLimit
  import opened StateMachine
  import opened Invariants
  import opened Guarantees
  import opened Instructions

  predicate Revoked(w: World, k: Pubkey) {
    k in w.store.apiKeys && !w.store.apiKeys[k].active
  }

  /** From position `n` on, every decision was taken on a revoked key. */
  ghost predicate RevokedFrom(log: Log, n: nat) {
    forall i :: n <= i < |log| ==> !log[i].context.active
  }

  function LogLength(w: World, k: Pubkey): nat {
    if HasRuntime(w, k) then |LogOf(w, k)| else 0
  }

  lemma RevokedStays(w: World, e: Event, k: Pubkey)
    requires Inv(w) && Revoked(w, k)
    ensures Revoked(Apply(w, e), k) && Apply(w, e).store.apiKeys[k] == w.store.apiKeys[k]
  {
    hide Inv, Execute, ControlOk, SameRuntimes;
    if Step(w, e).Ok? {
      if IsControlPlane(e.instruction) { ControlStepKeepsInv(w, e); } else { RuntimeStepKeepsInv(w, e); }
    }
  }

  lemma DecidedOnRevokedKey(w: World, e: Event, k: Pubkey, n: nat)
    requires Inv(w) && Revoked(w, k)
    requires HasRuntime(w, k) ==> RevokedFrom(LogOf(w, k), n)
    ensures HasRuntime(Apply(w, e), k) ==> RevokedFrom(LogOf(Apply(w, e), k), n)
  {
    hide Inv, Apply;
    var w' := Apply(w, e);
    if HasRuntime(w, k) {
      StepAppends(w, e, k);
    } else if HasRuntime(w', k) {
      NewRuntimeIsEmpty(w, e, k);
    }
  }

  lemma {:induction false} RevokedAlongRun(w: World, events: seq<Event>, k: Pubkey, n: nat)
    requires Inv(w) && Revoked(w, k)
    requires HasRuntime(w, k) ==> RevokedFrom(LogOf(w, k), n)
    ensures var w' := Run(w, events);
      && Revoked(w', k) && w'.store.apiKeys[k] == w.store.apiKeys[k]
      && (HasRuntime(w', k) ==> RevokedFrom(LogOf(w', k), n))
    decreases |events|
  {
    hide Inv, Apply, RevokedFrom, HasRuntime;
    if events == [] {
    } else {
      var e := events[0];
      RevokedStays(w, e, k);
      DecidedOnRevokedKey(w, e, k, n);
      InvKept(w, e);
      RevokedAlongRun(Apply(w, e), events[1..], k, n);
    }
  }

  lemma InactiveEntry(position: nat, e: LogEntry, w: Window)
    requires GenuineEntry(position, e, w) && !e.context.active
    ensures !e.record.allowed && e.record.reason == DecisionReason.KeyRevoked.Code()
    ensures NextWindow(e.context, w, e.record.action, e.record.timestamp) == w
  {
  }

  /** Decisions on a revoked key are all KeyRevoked rejections and leave the window alone. */
  lemma {:induction false} RevokedDecisions(t0: i64, log: Log, n: nat)
    requires Genuine(t0, log) && n <= |log| && RevokedFrom(log, n)
    ensures CountAllowed(log) == CountAllowed(log[..n]) && WindowAfter(t0, log) == WindowAfter(t0, log[..n])
    ensures forall i :: n <= i < |log| ==>
      !log[i].record.allowed && log[i].record.reason == DecisionReason.KeyRevoked.Code()
  {
    hide GenuineEntry, NextWindow;
    if n == |log| {
      assert log[..n] == log;
    } else {
      RevokedDecisions(t0, Init(log), n);
      assert Init(log)[..n] == log[..n];
      GenuineAt(t0, log, |log| - 1);
      assert log[..|log| - 1] == Init(log);
      InactiveEntry(|log|, Last(log), WindowAfter(t0, Init(log)));
    }
  }

  /** Once a key is revoked, whatever events follow, on either layer and across delegation and
      settlement: the key stays exactly as it is, every later decision is a KeyRevoked rejection for
      whatever action byte was asked, and an existing runtime's admissions and window never change. */
  lemma RevocationIsPermanent(w: World, events: seq<Event>, k: Pubkey)
    requires Reachable(w) && Revoked(w, k)
    ensures var w' := Run(w, events);
      && k in w'.store.apiKeys && w'.store.apiKeys[k] == w.store.apiKeys[k]
      && (HasRuntime(w', k) ==>
            && LogLength(w, k) <= LogLength(w', k)
            && (forall i :: LogLength(w, k) <= i < LogLength(w', k) ==>
                  && !LogOf(w', k)[i].record.allowed
                  && LogOf(w', k)[i].record.reason == DecisionReason.KeyRevoked.Code()))
      && (HasRuntime(w, k) ==>
            && HasRuntime(w', k)
            && LiveOf(w', k).totalAllowed == LiveOf(w, k).totalAllowed
            && WindowOf(LiveOf(w', k)) == WindowOf(LiveOf(w, k)))
  {
    hide Inv, Run, Genuine, Mirrors, HasRuntime;
    var w', n := Run(w, events), LogLength(w, k);
    ReachableInv(w);
    InvAlongRun(w, events);
    RevokedAlongRun(w, events, k, n);
    if HasRuntime(w, k) {
      RunExtends(w, events, k);
      assert LogOf(w', k)[..n] == LogOf(w, k);
      LiveSummary(w, k);
    }
    if HasRuntime(w', k) {
      LiveSummary(w', k);
      RevokedDecisions(StartOf(w', k), LogOf(w', k), n);
    }
  }

  /** Revoking a key works exactly for the authority of the key's organization and while the key is active, and
      then it is inactive. From that moment on, over every later run: it stays so, stamped with that time and
      otherwise as it was; every decision logged after is a KeyRevoked rejection; and an existing runtime's
      admissions and window stay what they were. No other key is touched by the revocation itself. */
  lemma RevokedForGood(w: World, signer: Pubkey, k: Pubkey, organization: Pubkey, now: i64, events: seq<Event>)
    requires Reachable(w)
    ensures var e := Event(Instruction.RevokeApiKey(signer, organization, k), now);
      && (Step(w, e).Ok? <==>
            && k in w.store.apiKeys && w.store.apiKeys[k].organization == organization && w.store.apiKeys[k].active
            && organization in w.store.organizations && w.store.organizations[organization].authority == signer)
      && (Step(w, e).Ok? ==>
            var w1, w' := Apply(w, e), Run(w, [e] + events);
            && Revoked(w1, k) && w1.store.apiKeys.Keys == w.store.apiKeys.Keys
            && (forall j :: j in w.store.apiKeys && j != k ==> w1.store.apiKeys[j] == w.store.apiKeys[j])
            && Revoked(w', k)
            && w'.store.apiKeys[k] == w.store.apiKeys[k].(active := false, revokedAt := now)
            && (HasRuntime(w', k) ==>
                  && LogLength(w, k) <= LogLength(w', k)
                  && (forall i :: LogLength(w, k) <= i < LogLength(w', k) ==>
                        && !LogOf(w', k)[i].record.allowed
                        && LogOf(w', k)[i].record.reason == DecisionReason.KeyRevoked.Code()))
            && (HasRuntime(w, k) ==>
                  && HasRuntime(w', k)
                  && LiveOf(w', k).totalAllowed == LiveOf(w, k).totalAllowed
                  && WindowOf(LiveOf(w', k)) == WindowOf(LiveOf(w, k))))
  {
    hide Inv, Run, Step, Reachable;
    var e := Event(Instruction.RevokeApiKey(signer, organization, k), now);
    ReachableInv(w);
    RevokeOutcome(w, signer, organization, k, now);
    if Step(w, e).Ok? {
      ReachableStep(w, e);
      RevocationIsPermanent(Apply(w, e), events, k);
      RunFirst(w, e, events);
    }
  }

  lemma RunFirst(w: World, e: Event, events: seq<Event>)
    ensures Run(w, [e] + events) == Run(Apply(w, e), events)
  {
    assert ([e] + events)[1..] == events;
  }

  lemma LiveSummary(w: World, k: Pubkey)
    requires Inv(w) && HasRuntime(w, k)
    ensures Genuine(StartOf(w, k), LogOf(w, k))
    ensures LiveOf(w, k).totalAllowed == CountAllowed(LogOf(w, k))
    ensures WindowOf(LiveOf(w, k)) == WindowAfter(StartOf(w, k), LogOf(w, k))
  {
    hide Inv, Genuine;
    LiveMirrors(w, k);
    SummaryAddsUp(StartOf(w, k), LogOf(w, k));
  }
}
