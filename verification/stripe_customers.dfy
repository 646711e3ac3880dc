/**
 * StripeCustomers.Ensure, getOrCreate, patchStatus and Client.EnsureCustomer as the code runs
 * them: one goroutine, statement by statement, while others take any number of steps between
 * two of its remote calls. Each method is proved to be a run of the protocol, so what holds of
 * every run holds of the code.
 */
module StripeCustomersCode {
  import opened Wrappers
  import opened KeyLocks
  import opened CustomerProtocol
  import opened Remote
  import opened CustomerInvariants
  import opened CustomerTheorems
  import opened CustomerStatus

  /** Ensure's return: SyncFailed is Stripe's error, recorded on the object; Error is any other. */
  datatype Outcome = Blocked | Error | SyncFailed | Answer(id: CusId, taxIdsRejected: bool)

  class StripeCustomers {
    /** The run so far. */
    ghost var states: seq<State>
    ghost var trace: seq<Action>
    /** The stores and goroutines this one shares the process with. */
    var world: State

    ghost predicate Valid()
      reads this
    {
      Execution(states, trace) && world == states[|trace|]
    }

    ghost function Latest(): Action
      reads this
      requires trace != []
    {
      trace[|trace| - 1]
    }

    constructor (s: State)
      requires Init(s)
      ensures Valid() && world == s && trace == []
    {
      states, world, trace := [s], s, [];
    }

    /** One step of the protocol. */
    method Do(a: Action)
      requires Valid() && Enabled(world, a)
      modifies this
      ensures Valid() && trace == old(trace) + [a] && world == Apply(old(world), a)
      ensures states == old(states) + [world]
    {
      StepsSnoc(states, trace, a);
      world := Apply(world, a);
      states, trace := states + [world], trace + [a];
    }

    /** Other goroutines, the garbage collector and the webhook run; pass t does not move. */
    method Interfere(ghost t: Tid)
      requires Valid()
      modifies this
      ensures Valid() && old(trace) <= trace
      ensures forall i :: |old(trace)| <= i < |trace| ==> !ActsFor(trace[i], t)
      ensures t in old(world.passes) ==> t in world.passes && world.passes[t] == old(world.passes[t])
    {
      // Callers see any continuation that this contract allows.
    }

    /** What the run so far says about pass t. */
    lemma Knows(t: Tid)
      requires Valid() && t in world.passes
      ensures PassInv(world, world.passes[t]) && t in world.locks.stages
    {
      RunInv(states, trace, |trace|);
    }

    // ----- the remote calls -----

    /** The uncached read. On success, what the server holds under the account's name. */
    method Get(t: Tid, ba: Account) returns (ok: bool, sc: Option<StripeCustomer>)
      requires Valid() && At(world, t, Reading) && world.passes[t].account == ba
      modifies this
      ensures Valid() && old(trace) <= trace && t in world.passes
      ensures var p, p' := old(world.passes[t]), world.passes[t];
        if !ok || (sc.Some? && sc.value.owner != Some(ba.uid)) then p' == p.(pc := Returning, result := Failed)
        else if sc.None? then p' == p.(pc := Making)
        else p' == p.(pc := if sc.value.status.id == "" then LookingUp else Detailing,
                      obj := sc.value.obj, base := sc.value.status, existing := sc.value.status.id)
    {
      Interfere(t);
      ok := *;
      sc := if ba.key in world.objects then Some(world.objects[ba.key]) else None;
      Do(Read(t, ok));
    }

    method CreateObject(t: Tid, ba: Account) returns (ok: bool)
      requires Valid() && At(world, t, Making) && world.passes[t].account == ba
      modifies this
      ensures Valid() && old(trace) <= trace && t in world.passes
      ensures !ok ==> world.passes[t] == old(world.passes[t]).(pc := Returning, result := Failed)
      ensures ok ==> world.passes[t] == old(world.passes[t]).(pc := LookingUp, obj := world.passes[t].obj,
                                                               base := EMPTY_STATUS, existing := "")
    {
      Interfere(t);
      var effect: Effect := *;
      if ba.key in world.objects { effect := Refused; }
      Do(Make(t, effect));
      ok := effect.Done?;
    }

    /** customer_id_lookup.go:140-156 over whatever the cache shows: one recorded ID, or none. */
    method FindExistingCustomerID(t: Tid, ba: Account) returns (ok: bool, id: CusId)
      requires Valid() && At(world, t, LookingUp) && world.passes[t].account == ba
      modifies this
      ensures Valid() && old(trace) <= trace && t in world.passes
      ensures world.passes[t] == (if ok then old(world.passes[t]).(pc := Detailing, existing := id)
                                  else old(world.passes[t]).(pc := Returning, result := Failed))
    {
      Interfere(t);
      ok, id := *, *;
      if id !in Siblings(world, ba.key) { id := ""; }
      Do(Lookup(t, ok, id));
    }

    method BuildDetails(t: Tid) returns (ok: bool)
      requires Valid() && At(world, t, Detailing)
      modifies this
      ensures Valid() && old(trace) <= trace && t in world.passes
      ensures var p := old(world.passes[t]);
        world.passes[t] == (if ok then p.(pc := FirstCall(p.existing, p.account), target := p.existing)
                            else p.(pc := Returning, result := Failed))
    {
      Interfere(t);
      ok := *;
      Do(Details(t, ok));
    }

    /** id is "", or a customer of Stripe's that the search may return for the account. */
    predicate Matches(ba: Account, byUid: bool, id: CusId)
      reads this
    {
      if byUid then UidHit(world, ba, id) else NameHit(world, ba, id)
    }

    /** client.go:203-222, one search call: any matching customer, none, or an error. */
    method SearchBy(t: Tid, byUid: bool) returns (ok: bool, id: CusId)
      requires Valid() && At(world, t, if byUid then SearchingUid else SearchingName)
      modifies this
      ensures Valid() && old(trace) <= trace && t in world.passes
      ensures var p := old(world.passes[t]);
        world.passes[t] == (if !ok then StripeFailure(p)
                            else if id != "" || !byUid then p.(pc := Writing, target := id)
                            else p.(pc := SearchingName))
      ensures ok ==> Matches(old(world.passes[t]).account, byUid, id)
    {
      Interfere(t);
      ok, id := *, *;
      if byUid {
        if !UidHit(world, world.passes[t].account, id) { id := ""; }
        Do(SearchUid(t, ok, id));
      } else {
        if !NameHit(world, world.passes[t].account, id) { id := ""; }
        Do(SearchName(t, ok, id));
      }
    }

    method NewCustomer(t: Tid) returns (ok: bool, id: CusId)
      requires Valid() && At(world, t, Writing) && world.passes[t].target == ""
      modifies this
      ensures Valid() && old(trace) <= trace && t in world.passes && (ok ==> id != "")
      ensures world.passes[t] == (if ok then old(world.passes[t]).(pc := SyncingTaxIds, target := id, minted := true)
                                  else StripeFailure(old(world.passes[t])))
    {
      Interfere(t);
      var effect: Effect := *;
      id := *;
      if id == "" || id in world.customers { effect := Refused; }
      Do(Create(t, id, effect));
      ok := effect.Done?;
    }

    method UpdateCustomer(t: Tid) returns (ok: bool)
      requires Valid() && At(world, t, Writing) && world.passes[t].target != ""
      modifies this
      ensures Valid() && old(trace) <= trace && t in world.passes
      ensures world.passes[t] == (if ok then old(world.passes[t]).(pc := SyncingTaxIds)
                                  else StripeFailure(old(world.passes[t])))
    {
      Interfere(t);
      var effect: Effect := *;
      if world.passes[t].target !in world.customers { effect := Refused; }
      Do(Update(t, effect));
      ok := effect.Done?;
    }

    method ReconcileTaxIds(t: Tid) returns (ok: bool)
      requires Valid() && At(world, t, SyncingTaxIds)
      modifies this
      ensures Valid() && old(trace) <= trace && t in world.passes
      ensures world.passes[t] == old(world.passes[t]).(pc := Publishing, error := if ok then NoError else TaxIdError)
    {
      Interfere(t);
      ok := *;
      Do(SyncTaxIds(t, ok));
    }

    // ----- the code around them -----

    /** stripe_customers.go:61-71. A caller that never finds the mutex free is still waiting. */
    method AcquireLock(t: Tid, ba: Account) returns (locked: bool)
      requires Valid() && t !in world.passes && t !in world.locks.stages && Registered(world, ba)
      modifies this
      ensures Valid() && old(trace) <= trace && t in world.passes && world.passes[t].account == ba
      ensures world.passes[t].pc == if locked then Reading else Locking
    {
      Do(Begin(t, ba));
      locked := false;
      var patience: nat := *;
      while patience > 0 && !locked
        invariant Valid() && old(trace) <= trace && t in world.passes && world.passes[t].account == ba
        invariant world.passes[t].pc == if locked then Reading else Locking
        decreases patience
      {
        locked := TryLock(t);
        patience := patience - 1;
      }
    }

    /** The next thing to happen: t gets the mutex it waits for, or somebody else moves. */
    method TryLock(t: Tid) returns (locked: bool)
      requires Valid() && At(world, t, Locking)
      modifies this
      ensures Valid() && old(trace) <= trace && t in world.passes
      ensures world.passes[t] == old(world.passes[t]).(pc := if locked then Reading else Locking)
    {
      if CanAdvance(world.locks, t) { Do(Lock(t)); } else { Interfere(t); }
      locked := world.passes[t].pc == Reading;
    }

    /** The object pass t works on is the account's own, with that status, or is gone from the server. */
    ghost predicate Owns(t: Tid, ba: Account, status: Status)
      reads this
      requires t in world.passes
    {
      && world.passes[t].obj.key == ba.key
      && (ba.key in world.objects ==>
            world.objects[ba.key] == StripeCustomer(world.passes[t].obj, Some(ba.uid), status))
    }

    /** stripe_customers.go:155-187. None is the error path: the object is not there or not ours. */
    method GetOrCreate(t: Tid, ba: Account) returns (sc: Option<Status>)
      requires Valid() && At(world, t, Reading) && world.passes[t].account == ba
      modifies this
      ensures Valid() && old(trace) <= trace && t in world.passes && world.passes[t].account == ba
      ensures sc.None? ==> world.passes[t].pc == Returning && world.passes[t].result.Failed?
      ensures sc.Some? ==>
        && world.passes[t].pc == (if sc.value.id == "" then LookingUp else Detailing)
        && world.passes[t].base == sc.value && world.passes[t].existing == sc.value.id && Owns(t, ba, sc.value)
    {
      var ok, found := Get(t, ba);
      if !ok { return None; }
      if found.None? {
        ok := CreateObject(t, ba);
        Knows(t);
        return if ok then Some(EMPTY_STATUS) else None;
      }
      if found.value.owner != Some(ba.uid) { return None; }
      Knows(t);
      return Some(found.value.status);
    }

    /** client.go:203-222: by uid when the account has one, then by name. */
    method FindCustomerByBillingAccount(t: Tid, ba: Account) returns (ok: bool, id: CusId)
      requires Valid() && At(world, t, if ba.uid != "" then SearchingUid else SearchingName)
      modifies this
      ensures Valid() && old(trace) <= trace && t in world.passes
      ensures world.passes[t] == (if ok then old(world.passes[t]).(pc := Writing, target := id)
                                  else StripeFailure(old(world.passes[t])))
      ensures ok ==> Matches(old(world.passes[t]).account, true, id) || Matches(old(world.passes[t]).account, false, id)
    {
      if ba.uid != "" {
        ok, id := SearchBy(t, true);
        if !ok || id != "" { return; }
      }
      ok, id := SearchBy(t, false);
    }

    /** client.go:131-166, from the decision whether to search to the tax IDs. */
    method EnsureCustomer(t: Tid, existingID: CusId, ba: Account) returns (id: CusId, error: SyncError)
      requires Valid() && t in world.passes && world.passes[t].account == ba
      requires world.passes[t].existing == existingID && world.passes[t].target == existingID
      requires At(world, t, FirstCall(existingID, ba))
      modifies this
      ensures Valid() && old(trace) <= trace && At(world, t, Publishing) && world.passes[t].account == ba
      ensures error == world.passes[t].error
      ensures !error.StripeFailed? ==>
                id != "" && id == world.passes[t].target && (existingID != "" ==> id == existingID)
    {
      id := existingID;
      var ok: bool;
      if existingID == "" && ba.key.name != "" {
        ok, id := FindCustomerByBillingAccount(t, ba);
        if !ok { return "", StripeFailed; }
      }
      if id == "" {
        ok, id := NewCustomer(t);
      } else {
        ok := UpdateCustomer(t);
      }
      if !ok { return id, StripeFailed; }
      ok := ReconcileTaxIds(t);
      return id, if ok then NoError else TaxIdError;
    }

    /** The account's StripeCustomer has that status, if it is still there. */
    ghost predicate Shows(ba: Account, status: Status)
      reads this
    {
      ba.key in world.objects ==> world.objects[ba.key].status == status
    }

    /** If it is still there, Ready is False for StripeError and the tax-ID condition is that of state i. */
    ghost predicate ShowsFailure(ba: Account, i: int)
      reads this
      requires 0 <= i < |states|
    {
      ba.key in world.objects ==>
        && ba.key in states[i].objects
        && world.objects[ba.key].status.ready == Some(Condition(false, StripeError))
        && world.objects[ba.key].status.taxIds == states[i].objects[ba.key].status.taxIds
    }

    /** One patch, and what it leaves by what the pass knows of Stripe. */
    method SendPatch(t: Tid, effect: Effect)
      requires Valid() && Enabled(world, Publish(t, effect))
      modifies this
      ensures Valid() && trace == old(trace) + [Publish(t, effect)] && states == old(states) + [world]
      ensures t in world.passes && world.passes[t] ==
        var p := old(world.passes[t]);
        p.(pc := Returning, minted := false,
           result := if !effect.Done? || p.error.StripeFailed? then Failed else Ensured(p.target, p.error.TaxIdError?))
      ensures var p := old(world.passes[t]);
        effect.Done? && p.account.key in world.objects ==>
          p.account.key in old(world.objects) && world.objects[p.account.key].status ==
            if p.error.StripeFailed? then
              Status(p.existing, Some(Condition(false, StripeError)), old(world.objects)[p.account.key].status.taxIds)
            else
              Status(p.target, Some(Condition(true, CustomerSynced)),
                Some(if p.error.TaxIdError? then Condition(false, StripeRejected) else Condition(true, Synced)))
    {
      Knows(t);
      PublishMoves(world, t, effect);
      if effect.Done? && world.passes[t].account.key in DoPublish(world, t, effect).objects {
        PatchShows(world, t, effect);
      }
      Do(Publish(t, effect));
    }

    /**
     * stripe_customers.go:191-214, and the conditions Ensure hands it. Nothing is sent when nothing
     * changed, messages included. A patch that got through shows on the object, if that still exists.
     */
    method PatchStatus(t: Tid) returns (ok: bool)
      requires Valid() && At(world, t, Publishing)
      modifies this
      ensures Valid() && old(trace) <= trace && t in world.passes
      ensures var p := old(world.passes[t]);
        world.passes[t] == p.(pc := Returning, minted := false,
                              result := if !ok || p.error.StripeFailed? then Failed
                                        else Ensured(p.target, p.error.TaxIdError?))
      ensures trace != [] && (ok <==> Latest() == Publish(t, Done))
      ensures var p := old(world.passes[t]);
        ok && !p.error.StripeFailed? ==>
          Shows(p.account, Status(p.target, Some(Condition(true, CustomerSynced)),
            Some(if p.error.TaxIdError? then Condition(false, StripeRejected) else Condition(true, Synced))))
      ensures var p := old(world.passes[t]);
        ok && p.error.StripeFailed? ==> ShowsFailure(p.account, |states| - 2)
      ensures var p := old(world.passes[t]);
        ok && p.error.StripeFailed? && p.account.key in world.objects ==>
          world.objects[p.account.key].status.id == p.existing
    {
      Interfere(t);
      var effect: Effect, sameMessages: bool := *, *;
      var p := world.passes[t];
      if SyncedStatus(p) == p.base && sameMessages {
        effect := Done;
      } else if p.account.key !in world.objects {
        effect := Refused;
      }
      SendPatch(t, effect);
      ok := effect.Done?;
    }

    /** The deferred unlock. A returned ID is the one the pass's StripeCustomer object publishes. */
    method Unlock(t: Tid)
      requires Valid() && At(world, t, Returning)
      modifies this
      ensures Valid() && old(trace) <= trace && states == old(states) + [world]
      ensures t !in world.passes && t !in world.locks.stages && world.objects == old(world.objects)
      ensures var p := old(world.passes[t]);
        p.result.Ensured? ==> p.result.id != "" && Answered(p.account, p.result.id)
    {
      Knows(t);
      ghost var p := world.passes[t];
      Do(Return(t));
      if p.result.Ensured? {
        assert Returned(p.account, p.obj, p.result.id) in world.log && NamedId(world, p.obj) == p.result.id;
      }
    }

    /** Some object of the account publishes id, and the log has Ensure returning it. */
    ghost predicate Answered(ba: Account, id: CusId)
      reads this
    {
      exists o: Object :: o.key == ba.key && Returned(ba, o, id) in world.log && NamedId(world, o) == id
    }

    /** stripe_customers.go:98-109: the ID to start from, and the details to sync. */
    method Prepare(t: Tid, ba: Account, published: CusId) returns (ok: bool, existingID: CusId)
      requires Valid() && t in world.passes && world.passes[t].account == ba
      requires world.passes[t].existing == published
      requires world.passes[t].pc == if published == "" then LookingUp else Detailing
      modifies this
      ensures Valid() && old(trace) <= trace && t in world.passes && world.passes[t].account == ba
      ensures if ok then world.passes[t].existing == existingID && world.passes[t].target == existingID &&
                         world.passes[t].pc == FirstCall(existingID, ba)
              else world.passes[t].pc == Returning && world.passes[t].result.Failed?
    {
      ok, existingID := true, published;
      if existingID == "" {
        ok, existingID := FindExistingCustomerID(t, ba);
        if !ok { return; }
      }
      ok := BuildDetails(t);
    }

    /** stripe_customers.go:112-150, from the sync with Stripe on. */
    method SyncAndPublish(t: Tid, existingID: CusId, ba: Account) returns (r: Outcome)
      requires Valid() && t in world.passes && world.passes[t].account == ba
      requires world.passes[t].existing == existingID && world.passes[t].target == existingID
      requires At(world, t, FirstCall(existingID, ba))
      modifies this
      ensures Valid() && old(trace) <= trace && At(world, t, Returning) && world.passes[t].account == ba
      ensures !r.Blocked? && trace != []
      ensures r.Answer? || r.SyncFailed? <==> Latest() == Publish(t, Done)
      ensures world.passes[t].result == if r.Answer? then Ensured(r.id, r.taxIdsRejected) else Failed
      ensures r.Answer? ==> Shows(ba, Status(r.id, Some(Condition(true, CustomerSynced)),
        Some(if r.taxIdsRejected then Condition(false, StripeRejected) else Condition(true, Synced))))
      ensures r.SyncFailed? ==> |states| > 1 && ShowsFailure(ba, |states| - 2)
    {
      var customerID, error := EnsureCustomer(t, existingID, ba);
      var ok := PatchStatus(t);
      if !ok { return Error; }
      return if error.StripeFailed? then SyncFailed else Answer(customerID, error.TaxIdError?);
    }

    /** stripe_customers.go:92-150, with the key's lock held. */
    method EnsureLocked(t: Tid, ba: Account) returns (r: Outcome)
      requires Valid() && At(world, t, Reading) && world.passes[t].account == ba
      modifies this
      ensures Valid() && old(trace) <= trace && At(world, t, Returning) && world.passes[t].account == ba
      ensures !r.Blocked?
      ensures world.passes[t].result == if r.Answer? then Ensured(r.id, r.taxIdsRejected) else Failed
      ensures r.Answer? ==> Shows(ba, Status(r.id, Some(Condition(true, CustomerSynced)),
        Some(if r.taxIdsRejected then Condition(false, StripeRejected) else Condition(true, Synced))))
      ensures r.SyncFailed? ==> |states| > 1 && ShowsFailure(ba, |states| - 2)
    {
      var sc := GetOrCreate(t, ba);
      if sc.None? { return Error; }
      var ok, existingID := Prepare(t, ba, sc.value.id);
      if !ok { return Error; }
      r := SyncAndPublish(t, existingID, ba);
    }

    /** The deferred unlock runs on every return. */
    method EnsureThenUnlock(t: Tid, ba: Account) returns (r: Outcome)
      requires Valid() && At(world, t, Reading) && world.passes[t].account == ba
      modifies this
      ensures Valid() && old(trace) <= trace && !r.Blocked? && t !in world.passes && t !in world.locks.stages
      ensures r.Answer? ==> r.id != "" && Answered(ba, r.id)
      ensures r.Answer? ==> Shows(ba, Status(r.id, Some(Condition(true, CustomerSynced)),
        Some(if r.taxIdsRejected then Condition(false, StripeRejected) else Condition(true, Synced))))
      ensures r.SyncFailed? ==> |states| > 2 && ShowsFailure(ba, |states| - 3)
    {
      r := EnsureLocked(t, ba);
      ghost var n := |states| - 2;
      Unlock(t);
      assert r.SyncFailed? ==> ShowsFailure(ba, n);
    }

    /**
     * stripe_customers.go:86-151. An ID that comes back is the one the account's StripeCustomer
     * object publishes, with Ready True and the word on the tax IDs; after a Stripe failure the
     * object says so instead. The lock is released on every path that got it.
     */
    method Ensure(t: Tid, ba: Account) returns (r: Outcome)
      requires Valid() && t !in world.passes && t !in world.locks.stages && Registered(world, ba)
      modifies this
      ensures Valid() && old(trace) <= trace
      ensures r.Blocked? ==> At(world, t, Locking)
      ensures !r.Blocked? ==> t !in world.passes && t !in world.locks.stages
      ensures r.Answer? ==> r.id != "" && Answered(ba, r.id)
      ensures r.Answer? ==> Shows(ba, Status(r.id, Some(Condition(true, CustomerSynced)),
        Some(if r.taxIdsRejected then Condition(false, StripeRejected) else Condition(true, Synced))))
      ensures r.SyncFailed? ==> |states| > 2 && ShowsFailure(ba, |states| - 3)
    {
      var locked := AcquireLock(t, ba);
      if !locked { return Blocked; }
      r := EnsureThenUnlock(t, ba);
    }
  }
}
