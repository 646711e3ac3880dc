/**
 * Webhook.ServeHTTP (internal/webhook/http.go): the checks, the deduper, and only then the
 * handler. Signature validity, configuration and the handler's own result are inputs.
 */
module WebhookDelivery {
  import opened Deduper

  datatype EventType = SetupIntentSucceeded | SetupIntentSetupFailed | SetupIntentCanceled | Other

  /** What the handler of the event does: return nil, return an error, or panic. */
  datatype Handling = Handled | HandlingFailed | HandlingPanicked

  datatype Delivery = Delivery(
    post: bool, bodyRead: bool, signed: bool, configResolved: bool, signatureValid: bool,
    id: Id, eventType: EventType, handling: Handling)

  datatype Outcome =
    | MethodNotAllowed | Malformed | MissingSignature | ProviderConfigErr | InvalidSignature
    | Duplicate | Success | HandlerError

  /** The delivery gets past every check in front of the deduper. */
  predicate Verified(d: Delivery) {
    d.post && d.bodyRead && d.signed && d.configResolved && d.signatureValid
  }

  function VerifiedIds(ds: seq<Delivery>): seq<Id> {
    if ds == [] then []
    else VerifiedIds(ds[..|ds| - 1]) + (if Verified(ds[|ds| - 1]) then [ds[|ds| - 1].id] else [])
  }

  /** The handler runs for the i-th delivery. */
  predicate Runs(capacity: nat, ds: seq<Delivery>, i: nat)
    requires i < |ds|
  {
    Verified(ds[i]) && !Recent(capacity, VerifiedIds(ds[..i]), ds[i].id)
  }

  /** http.go:188-206: event types nobody handles are acknowledged. */
  function Dispatch(d: Delivery): (status: nat) {
    if d.eventType.Other? || d.handling.Handled? then 200 else 500
  }

  class Webhook {
    const dedupe: MemoryDeduper
    /** The ids the handler was called with, in order. */
    var handled: seq<Id>
    ghost var deliveries: seq<Delivery>

    ghost predicate Valid()
      reads this, dedupe, dedupe.order, dedupe.order.root, dedupe.order.elements
    {
      dedupe.Valid() && dedupe.history == VerifiedIds(deliveries)
    }

    /** NewStripeWebhook: NewMemoryDeduper(0). */
    constructor ()
      ensures Valid() && deliveries == [] && handled == []
      ensures dedupe.capacity == 4096
    {
      dedupe := new MemoryDeduper(0);
      handled, deliveries := [], [];
    }

    /** From the deduper on, for a delivery that passed the checks. */
    method Accept(d: Delivery) returns (status: nat, outcome: Outcome)
      requires dedupe.Valid()
      modifies `handled, dedupe, dedupe.order, dedupe.order.root, dedupe.order.elements
      ensures dedupe.Valid() && dedupe.history == old(dedupe.history) + [d.id]
      ensures outcome.Duplicate? <==> Recent(dedupe.capacity, old(dedupe.history), d.id)
      ensures !outcome.Duplicate? ==>
                if d.eventType.Other? || d.handling.Handled? then status == 200 && outcome == Success
                else status == 500 && outcome == HandlerError
      ensures outcome.Duplicate? ==> status == 200
      ensures handled == old(handled) + (if outcome.Duplicate? then [] else [d.id])
    {
      var seen := dedupe.SeenOrRecord(d.id);
      if seen { return 200, Duplicate; }
      handled := handled + [d.id];
      if d.handling.HandlingPanicked? && !d.eventType.Other? { return 500, HandlerError; }
      status := Dispatch(d);
      outcome := if 200 <= status < 300 then Success else if status >= 500 then HandlerError else Malformed;
    }

    /** The response, what the metrics count, and whether the handler ran, for any deliveries so far. */
    method ServeHTTP(d: Delivery) returns (status: nat, outcome: Outcome)
      requires Valid()
      modifies this, dedupe, dedupe.order, dedupe.order.root, dedupe.order.elements
      ensures Valid() && deliveries == old(deliveries) + [d]
      ensures !d.post ==> status == 405 && outcome == MethodNotAllowed
      ensures d.post && !d.bodyRead ==> status == 400 && outcome == Malformed
      ensures d.post && d.bodyRead && !d.signed ==> status == 400 && outcome == MissingSignature
      ensures d.post && d.bodyRead && d.signed && !d.configResolved ==> status == 500 && outcome == ProviderConfigErr
      ensures d.post && d.bodyRead && d.signed && d.configResolved && !d.signatureValid ==>
                status == 400 && outcome == InvalidSignature
      ensures Runs(dedupe.capacity, deliveries, |deliveries| - 1) ==>
                if d.eventType.Other? || d.handling.Handled? then status == 200 && outcome == Success
                else status == 500 && outcome == HandlerError
      ensures outcome.Duplicate? <==> Verified(d) && !Runs(dedupe.capacity, deliveries, |deliveries| - 1)
      ensures outcome.Duplicate? ==> status == 200
      ensures handled == old(handled) +
                         (if Runs(dedupe.capacity, deliveries, |deliveries| - 1) then [d.id] else [])
      ensures !Verified(d) ==> dedupe.history == old(dedupe.history)
    {
      LastRuns(dedupe.capacity, deliveries, d);
      deliveries := deliveries + [d];
      if !d.post { return 405, MethodNotAllowed; }
      if !d.bodyRead { return 400, Malformed; }
      if !d.signed { return 400, MissingSignature; }
      if !d.configResolved { return 500, ProviderConfigErr; }
      if !d.signatureValid { return 400, InvalidSignature; }
      status, outcome := Accept(d);
    }
  }

  lemma LastRuns(capacity: nat, before: seq<Delivery>, d: Delivery)
    ensures VerifiedIds(before + [d]) == VerifiedIds(before) + (if Verified(d) then [d.id] else [])
    ensures Runs(capacity, before + [d], |before|) <==>
            Verified(d) && !Recent(capacity, VerifiedIds(before), d.id)
  {
    assert (before + [d])[..|before|] == before;
  }

  lemma {:induction false} VerifiedIdsConcat(a: seq<Delivery>, b: seq<Delivery>)
    ensures VerifiedIds(a + b) == VerifiedIds(a) + VerifiedIds(b)
  {
    if b == [] {
      assert a + b == a;
    } else {
      var b' := b[..|b| - 1];
      VerifiedIdsConcat(a, b');
      assert (a + b)[..|a + b| - 1] == a + b';
    }
  }

  lemma {:induction false} SinceSplit(before: seq<Id>, id: Id, after: seq<Id>)
    requires id !in after
    ensures Since(before + [id] + after, id) == after
  {
    var h := before + [id] + after;
    if after == [] {
      assert h[|h| - 1] == id;
    } else {
      var after' := after[..|after| - 1];
      SinceSplit(before, id, after');
      assert h[..|h| - 1] == before + [id] + after';
      assert h[|h| - 1] == after[|after| - 1];
      assert after' + [after[|after| - 1]] == after;
    }
  }

  lemma {:induction false} VerifiedIdIn(ds: seq<Delivery>, id: Id)
    ensures id in VerifiedIds(ds) <==> exists k :: 0 <= k < |ds| && Verified(ds[k]) && ds[k].id == id
  {
    if ds != [] {
      var n := |ds| - 1;
      VerifiedIdIn(ds[..n], id);
      if id in VerifiedIds(ds[..n]) {
        var k :| 0 <= k < n && Verified(ds[..n][k]) && ds[..n][k].id == id;
        assert Verified(ds[k]) && ds[k].id == id;
      }
      if k :| 0 <= k < n && Verified(ds[k]) && ds[k].id == id {
        assert Verified(ds[..n][k]) && ds[..n][k].id == id;
      }
    }
  }

  /** k is the last verified delivery of ds[j]'s id before j. */
  predicate Previous(ds: seq<Delivery>, k: nat, j: nat) {
    && k < j < |ds| && Verified(ds[k]) && ds[k].id == ds[j].id
    && (forall m :: k < m < j && Verified(ds[m]) ==> ds[m].id != ds[j].id)
  }

  /**
   * The handler runs again for an id exactly when at least `capacity` distinct other verified ids
   * arrived since the id's last verified delivery; unverified deliveries do not count.
   */
  lemma RunsAgainIff(capacity: nat, ds: seq<Delivery>, k: nat, j: nat)
    requires Previous(ds, k, j) && Verified(ds[j])
    ensures Runs(capacity, ds, j) <==> |Distinct(VerifiedIds(ds[k + 1..j]))| >= capacity
  {
    var id := ds[j].id;
    var before, after := VerifiedIds(ds[..k]), VerifiedIds(ds[k + 1..j]);
    assert ds[..j] == ds[..k + 1] + ds[k + 1..j];
    VerifiedIdsConcat(ds[..k + 1], ds[k + 1..j]);
    assert ds[..k + 1][..k] == ds[..k];
    assert VerifiedIds(ds[..j]) == before + [id] + after;
    VerifiedIdIn(ds[k + 1..j], id);
    SinceSplit(before, id, after);
    assert (before + [id] + after)[|before|] == id;
  }

  /** The first verified delivery of an id always runs. */
  lemma FirstDeliveryRuns(capacity: nat, ds: seq<Delivery>, j: nat)
    requires j < |ds| && Verified(ds[j])
    requires forall k :: 0 <= k < j && Verified(ds[k]) ==> ds[k].id != ds[j].id
    ensures Runs(capacity, ds, j)
  {
    VerifiedIdIn(ds[..j], ds[j].id);
  }

  /** The deliveries between two of one id bring fewer than `capacity` distinct ids, and not that one. */
  predicate Brief(capacity: nat, between: seq<Delivery>, id: Id) {
    && |Distinct(VerifiedIds(between))| < capacity
    && (forall m :: 0 <= m < |between| && Verified(between[m]) ==> between[m].id != id)
  }

  /**
   * An event whose handler ran and failed is lost: the answer was 500, and the retry is dropped,
   * because the id was recorded first. Only `capacity` other ids in between would let it through.
   */
  lemma RetryIsDropped(capacity: nat, ds: seq<Delivery>, d: Delivery, between: seq<Delivery>, retry: Delivery)
    requires Runs(capacity, ds + [d], |ds|) && d.handling.HandlingFailed? && !d.eventType.Other?
    requires Verified(retry) && retry.id == d.id && Brief(capacity, between, d.id)
    ensures var all := ds + [d] + between + [retry];
      Runs(capacity, all, |ds|) && Dispatch(all[|ds|]) == 500 && !Runs(capacity, all, |all| - 1)
  {
    var all := ds + [d] + between + [retry];
    var j := |all| - 1;
    assert all[..|ds|] == ds == (ds + [d])[..|ds|];
    assert all[|ds| + 1..j] == between;
    forall m | |ds| < m < j && Verified(all[m]) ensures all[m].id != d.id {
      assert all[m] == between[m - |ds| - 1];
    }
    RunsAgainIff(capacity, all, |ds|, j);
  }

  // ----- a handler that runs twice -----

  /** A delivery that passes every check. */
  function Event(id: Id): Delivery {
    Delivery(true, true, true, true, true, id, SetupIntentSucceeded, Handled)
  }

  /** n deliveries of ever longer ids. */
  function Others(id: Id, n: nat): seq<Delivery> {
    if n == 0 then [] else Others(id, n - 1) + [Event(id + seq(n, i => 'x'))]
  }

  lemma {:induction false} OthersDistinct(id: Id, n: nat)
    ensures |Others(id, n)| == n && |Distinct(VerifiedIds(Others(id, n)))| == n
    ensures forall x :: x in VerifiedIds(Others(id, n)) ==> |id| < |x| <= |id| + n
    ensures forall m :: 0 <= m < n ==> Others(id, n)[m].id != id
  {
    if n > 0 {
      var before, last := Others(id, n - 1), Event(id + seq(n, i => 'x'));
      OthersDistinct(id, n - 1);
      assert Others(id, n)[..n - 1] == before && |last.id| == |id| + n;
      assert VerifiedIds(Others(id, n)) == VerifiedIds(before) + [last.id];
      DistinctSnoc(VerifiedIds(before), last.id);
      assert last.id !in Distinct(VerifiedIds(before));
    }
  }

  /** An event, `capacity` others, and the event again. */
  function Replay(capacity: nat, id: Id): seq<Delivery> {
    [Event(id)] + Others(id, capacity) + [Event(id)]
  }

  /** For every capacity and id, some deliveries make the handler run twice for the one id. */
  lemma RunsTwice(capacity: nat, id: Id)
    ensures |Replay(capacity, id)| == capacity + 2
    ensures Replay(capacity, id)[0].id == id && Replay(capacity, id)[capacity + 1].id == id
    ensures Runs(capacity, Replay(capacity, id), 0) && Runs(capacity, Replay(capacity, id), capacity + 1)
  {
    var ds, others := Replay(capacity, id), Others(id, capacity);
    OthersDistinct(id, capacity);
    FirstDeliveryRuns(capacity, ds, 0);
    assert ds[1..capacity + 1] == others;
    forall m | 0 < m < capacity + 1 ensures ds[m].id != id { assert ds[m] == others[m - 1]; }
    RunsAgainIff(capacity, ds, 0, capacity + 1);
  }
}
