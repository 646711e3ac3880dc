/**
 * The reconcile pass and the webhook handler of one payment method as the code runs them, call by
 * call, while others take any number of steps in between. Each is proved to be a run of the
 * lifecycle, over the very methods that mutate a copy and patch the API server.
 */
module PaymentMethodCode {
  import opened PaymentMethodStatus
  import opened Remote
  import L = PaymentMethodLifecycle
  import opened PaymentMethodRecords

  class Provider {
    const server: ApiServer
    /** The run so far; its last state is what the server holds. */
    ghost var states: seq<L.System>
    ghost var trace: seq<L.Action>

    ghost function Now(): L.System
      reads this
      requires states != []
    {
      states[|states| - 1]
    }

    ghost predicate Holds(s: L.System)
      reads server
    {
      server.spm == s.spm && server.pm == s.pm && server.log == s.log
    }

    ghost predicate Valid()
      reads this, server
    {
      L.Steps(states, trace) && states[0].actors == map[] && Holds(Now())
    }

    constructor (server: ApiServer)
      ensures Valid() && this.server == server && trace == [] && Now().actors == map[]
    {
      this.server := server;
      states, trace := [L.System(server.spm, server.pm, server.log, map[])], [];
    }

    /** An action of the run, once it has happened on the server. */
    ghost method Record(a: L.Action)
      requires L.Steps(states, trace) && states[0].actors == map[]
      requires L.Enabled(Now(), a) && Holds(L.Apply(Now(), a))
      modifies this
      ensures Valid() && trace == old(trace) + [a] && old(states) <= states && Now() == L.Apply(old(Now()), a)
    {
      L.StepsConcat(states, trace, [Now(), L.Apply(Now(), a)], [a]);
      states, trace := states + [L.Apply(Now(), a)], trace + [a];
    }

    /** Other passes and deliveries run; the one called id does not move. */
    method Interfere(ghost id: L.Id)
      requires Valid()
      modifies this, server
      ensures Valid() && old(trace) <= trace && old(states) <= states
      ensures id in Now().actors <==> id in old(Now().actors)
      ensures id in Now().actors ==> Now().actors[id] == old(Now().actors[id])
    {
      // Callers see any continuation that this contract allows.
    }

    /** A call that failed: the pass or delivery returns its error. */
    method Fail(ghost id: L.Id) returns (ok: bool)
      requires Valid() && id in Now().actors
      modifies this
      ensures Valid() && old(trace) <= trace && old(states) <= states && id !in Now().actors && !ok
    {
      Record(L.GiveUp(id));
      ok := false;
    }

    /**
     * http.go:236-295. A delivery about no StripePaymentMethod is acknowledged and writes nothing;
     * any other succeeds only with its last patch.
     */
    method Deliver(id: L.Id, p: Payload) returns (ok: bool, found: bool)
      requires Valid() && id !in Now().actors
      modifies this, server
      ensures Valid() && old(trace) <= trace && old(states) <= states && id !in Now().actors
      ensures !found ==> trace == old(trace) && Now() == old(Now())
      ensures ok && found ==> trace != [] && trace[|trace| - 1] == L.Project(id, Done)
    {
      var spm: StripePaymentMethod?;
      ok, spm := Find(id, p);
      found := spm != null;
      if found { ok := Handle(id, p, spm); }
    }

    method Handle(id: L.Id, p: Payload, spm: StripePaymentMethod) returns (ok: bool)
      requires Valid() && id in Now().actors && Now().actors[id] == L.Delivering(p, spm.status)
      modifies this, server, spm
      ensures Valid() && old(trace) <= trace && old(states) <= states && id !in Now().actors
      ensures ok ==> trace != [] && trace[|trace| - 1] == L.Project(id, Done)
    {
      ok := Retrieve(id, p);
      if !ok { return; }
      ok := PatchDelivered(id, p, spm);
      if !ok { return; }
      ok := ProjectDelivered(id, p);
    }

    /** http.go:297-319: a copy of the StripePaymentMethod the delivery is about; none, or an error. */
    method Find(id: L.Id, p: Payload) returns (ok: bool, spm: StripePaymentMethod?)
      requires Valid() && id !in Now().actors
      modifies this
      ensures Valid() && (spm != null ==> ok)
      ensures old(states) <= states && (spm == null ==> trace == old(trace) && Now() == old(Now()))
      ensures spm != null ==> fresh(spm) && trace == old(trace) + [L.Deliver(id, p)]
      ensures spm != null ==> id in Now().actors && Now().actors[id] == L.Delivering(p, spm.status)
    {
      var present: bool;
      ok, present := *, *;
      if !ok || !present { return ok, null; }
      spm := new StripePaymentMethod(server.spm);
      Record(L.Deliver(id, p));
    }

    /** http.go:246-254: a success needs the configuration, and the card from Stripe. */
    method Retrieve(id: L.Id, p: Payload) returns (ok: bool)
      requires Valid() && id in Now().actors && Now().actors[id].Delivering?
      modifies this, server
      ensures Valid() && old(trace) <= trace && old(states) <= states
      ensures if ok then id in Now().actors && Now().actors[id] == old(Now().actors[id]) else id !in Now().actors
    {
      if !p.Succeeded? { return true; }
      Interfere(id);
      ok := *;
      if !ok { ok := Fail(id); }
    }

    method PatchDelivered(id: L.Id, p: Payload, spm: StripePaymentMethod) returns (ok: bool)
      requires Valid() && id in Now().actors && Now().actors[id] == L.Delivering(p, spm.status)
      modifies this, server, spm
      ensures Valid() && old(trace) <= trace && old(states) <= states
      ensures if ok then id in Now().actors && Now().actors[id] == L.ProjectionDue(p) else id !in Now().actors
    {
      Interfere(id);
      var effect: Effect := *;
      ok := PatchStripe(server, spm, p, effect);
      Record(L.PatchDelivered(id, effect));
    }

    method ProjectDelivered(id: L.Id, p: Payload) returns (ok: bool)
      requires Valid() && id in Now().actors && Now().actors[id] == L.ProjectionDue(p)
      modifies this, server
      ensures Valid() && old(trace) <= trace && old(states) <= states && id !in Now().actors
      ensures ok ==> trace != [] && trace[|trace| - 1] == L.Project(id, Done)
    {
      Interfere(id);
      var found: bool := *;
      if !found { ok := Fail(id); return; }
      var bm := new PaymentMethod(server.pm);
      Record(L.ReadForProjection(id));
      ok := PatchParent(id, p, bm);
    }

    method PatchParent(id: L.Id, p: Payload, bm: PaymentMethod) returns (ok: bool)
      requires Valid() && id in Now().actors && Now().actors[id] == L.Projecting(p, bm.status)
      modifies this, server, bm
      ensures Valid() && old(trace) <= trace && old(states) <= states && id !in Now().actors
      ensures ok ==> trace != [] && trace[|trace| - 1] == L.Project(id, Done)
    {
      Interfere(id);
      var effect: Effect := *;
      ok := Project(server, bm, p, effect);
      Record(L.Project(id, effect));
    }

    /** What the run says of a pass that read at point i and goes on. */
    lemma Mints(i: nat, next: nat)
      requires Valid() && i < next < |trace| && trace[i].ReconcileRead? && trace[next].id == trace[i].id
      requires !states[i].spm.phase.Active? && !states[i].spm.phase.Failed?
      requires L.Untouched(trace, trace[i].id, i + 1, next) && (trace[next].PatchIntent? || trace[next].ReadParent?)
      ensures trace[next].PatchIntent? <==>
                var copy := states[i].spm;
                copy.clientSecret == "" || (copy.expiresAt.Some? && trace[i].now > copy.expiresAt.value)
    {
      MintsIff(states, trace, i, next);
    }

    /**
     * stripepaymentmethod_controller.go:126-155. A terminal phase ends the pass at once. Any other pass
     * that goes on mints a new SetupIntent exactly when it read no secret, or an expiry that has passed.
     */
    method Reconcile(id: L.Id, now: int) returns (ok: bool)
      requires Valid() && id !in Now().actors
      modifies this, server
      ensures Valid() && old(trace) <= trace && old(states) <= states && id !in Now().actors
      ensures old(server.spm.phase) == Active || old(server.spm.phase) == Failed ==>
                ok && trace == old(trace) + [L.ReconcileRead(id, now)]
      ensures |trace| > |old(trace)| && trace[|old(trace)|] == L.ReconcileRead(id, now)
      ensures forall next | |old(trace)| < next < |trace| && (trace[next].PatchIntent? || trace[next].ReadParent?) &&
                  trace[next].id == id && L.Untouched(trace, id, |old(trace)| + 1, next) ::
                trace[next].PatchIntent? <==>
                  var copy := old(server.spm);
                  copy.clientSecret == "" || (copy.expiresAt.Some? && now > copy.expiresAt.value)
    {
      ghost var read := |trace|;
      var spm := new StripePaymentMethod(server.spm);
      Record(L.ReconcileRead(id, now));
      if spm.status.phase == Active || spm.status.phase == Failed { return true; }
      if spm.status.clientSecret != "" && !Expired(spm.status, now) {
        ok := EnsurePaymentMethodAwaiting(id);
      } else {
        ok := ReconcileSetupIntent(id, spm);
      }
      forall next | read < next < |trace| && (trace[next].PatchIntent? || trace[next].ReadParent?) &&
          trace[next].id == id && L.Untouched(trace, id, read + 1, next)
        ensures trace[next].PatchIntent? <==>
                  var copy := old(server.spm);
                  copy.clientSecret == "" || (copy.expiresAt.Some? && now > copy.expiresAt.value)
      {
        Mints(read, next);
      }
    }

    /** stripepaymentmethod_controller.go:158-262; what comes before the patch may fail at any call. */
    method ReconcileSetupIntent(id: L.Id, spm: StripePaymentMethod) returns (ok: bool)
      requires Valid() && id in Now().actors && Now().actors[id] == L.NeedsIntent(spm.status)
      modifies this, server, spm
      ensures Valid() && old(trace) <= trace && old(states) <= states && id !in Now().actors
    {
      Interfere(id);
      var created: bool, n: NewIntent := *, *;
      if !created || n.clientSecret == "" || n.clientSecret == spm.status.clientSecret {
        ok := Fail(id);
        ok := *;  // A parent that is gone and a terminating namespace are no errors.
        return;
      }
      var effect: Effect := *;
      ok := PatchIntent(server, spm, n, effect);
      Record(L.PatchIntent(id, n, effect));
      if !ok { return; }
      ok := EnsurePaymentMethodAwaiting(id);
    }

    /** stripepaymentmethod_controller.go:464-484 */
    method EnsurePaymentMethodAwaiting(id: L.Id) returns (ok: bool)
      requires Valid() && id in Now().actors && Now().actors[id] == L.ParentDue
      modifies this, server
      ensures Valid() && old(trace) <= trace && old(states) <= states && id !in Now().actors
    {
      Interfere(id);
      var found: bool := *;
      if !found { ok := Fail(id); return; }
      var pm := new PaymentMethod(server.pm);
      Record(L.ReadParent(id));
      var effect: Effect := *;
      if Settled(pm.status.phase) {
        ok := PatchAwaiting(server, pm, effect);
      } else {
        Interfere(id);
        ok := PatchAwaiting(server, pm, effect);
        Record(L.PatchAwaiting(id, effect));
      }
    }
  }
}
