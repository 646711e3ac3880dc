/**
 * What a confirmation, a rejection and a reconcile pass leave recorded, field by field, and whose
 * record it is: over every run in which deliveries do not overlap, each record is that of the last
 * delivery whose patch landed and carried it. Which SetupIntents a pass keeps.
 */
module PaymentMethodRecords {
  import opened PaymentMethodAgreement
  import opened PaymentMethodLifecycle
  import opened PaymentMethodStatus
  import opened Remote
  import opened Wrappers

  // ----- one writer that nothing interrupts -----

  /** A patch without a change sends nothing, and sending a patch again changes nothing. */
  lemma MergeLaws(b: SpmStatus, m: SpmStatus, c: SpmStatus, p: PmStatus, q: PmStatus, r: PmStatus)
    ensures MergeSpm(b, b, c) == c && MergePm(p, p, r) == r
    ensures MergeSpm(b, m, MergeSpm(b, m, c)) == MergeSpm(b, m, c)
    ensures MergePm(p, q, MergePm(p, q, r)) == MergePm(p, q, r)
  {}

  /** What a success leaves in both objects and on the timeline. */
  lemma SuccessRecorded(states: seq<System>, id: Id, i: Intent, d: Details, now: int)
    requires Steps(states, [Deliver(id, Succeeded(i, d, now)), PatchDelivered(id, Done),
                            ReadForProjection(id), Project(id, Done)])
    ensures var was, spm, isCard := states[0].spm, states[4].spm, d.instrumentType == "card";
      && spm.phase == Active && spm.paymentMethodId == d.id && spm.confirmedAt == Some(now)
      && spm.intentId == i.id && spm.intentStatus == i.status && spm.clientSecret == ""
      && spm.conditions == was.conditions["Confirmed" := true]
      && (if isCard then spm.instrumentType == "card" && spm.card == d.card
          else spm.instrumentType == was.instrumentType && spm.card == was.card)
      && spm.customerId == was.customerId && spm.expiresAt == was.expiresAt
      && spm.failureReason == was.failureReason && spm.failureMessage == was.failureMessage
    ensures var was, pm, isCard := states[0].pm, states[4].pm, d.instrumentType == "card";
      && pm.phase == Active && pm.conditions == was.conditions["InstrumentReady" := true]
      && (if isCard then pm.instrumentType == "card" && pm.card == d.card && pm.address == d.address
          else pm.instrumentType == was.instrumentType && pm.card == was.card && pm.address == was.address)
      && pm.failureReason == was.failureReason && pm.failureMessage == was.failureMessage
    ensures states[4].log == states[0].log + if states[0].pm.phase.Active? then [] else [PaymentMethodAttached]
  {
    DeliveryComputed(states, id, Succeeded(i, d, now));
  }

  /** What a rejection leaves. The parent keeps a reason or message that the error leaves empty. */
  lemma RejectionRecorded(states: seq<System>, id: Id, i: Intent)
    requires Steps(states, [Deliver(id, Rejected(i)), PatchDelivered(id, Done),
                            ReadForProjection(id), Project(id, Done)])
    ensures var was, spm := states[0].spm, states[4].spm;
      && spm.phase == Failed && spm.intentId == i.id && spm.intentStatus == i.status
      && spm.conditions == was.conditions["Confirmed" := false]
      && spm.failureReason == (if i.error.Some? then i.error.value.code else was.failureReason)
      && spm.failureMessage == (if i.error.Some? then i.error.value.message else was.failureMessage)
      && spm.customerId == was.customerId && spm.paymentMethodId == was.paymentMethodId
      && spm.clientSecret == was.clientSecret && spm.expiresAt == was.expiresAt
      && spm.confirmedAt == was.confirmedAt && spm.instrumentType == was.instrumentType && spm.card == was.card
    ensures var was, pm := states[0].pm, states[4].pm;
      && pm.phase == Failed && pm.conditions == was.conditions["InstrumentReady" := false]
      && pm.failureReason == (if i.error.Some? && i.error.value.code != "" then i.error.value.code
                              else was.failureReason)
      && pm.failureMessage == (if i.error.Some? && i.error.value.message != "" then i.error.value.message
                               else was.failureMessage)
      && pm.instrumentType == was.instrumentType && pm.card == was.card && pm.address == was.address
    ensures states[4].log == states[0].log + if states[0].pm.phase.Failed? then [] else [PaymentMethodFailed]
  {
    DeliveryComputed(states, id, Rejected(i));
  }

  lemma DeliveryComputed(states: seq<System>, id: Id, p: Payload)
    requires Steps(states, DeliveryActions(id, p))
    ensures states[4].spm == DeliveredSpm(states[0].spm, p) && states[4].pm == DeliveredPm(states[0].pm, p)
    ensures states[4].log == states[0].log + Recorded(states[0].pm.phase, p, Done)
  {
    var acts := DeliveryActions(id, p);
    assert acts[0].Deliver? && acts[1].PatchDelivered? && acts[2].ReadForProjection? && acts[3].Project?;
    assert states[4] == AfterDelivery(states[0], id, p);
    DeliveryWrites(states[0], id, p);
  }

  /** What a pass leaves that mints a SetupIntent. */
  lemma IntentRecorded(states: seq<System>, id: Id, now: int, n: NewIntent)
    requires Steps(states, [ReconcileRead(id, now), PatchIntent(id, n, Done)])
    ensures var was, spm := states[0].spm, states[2].spm;
      && spm.phase == AwaitingConfirmation && spm.customerId == n.customerId
      && spm.intentId == n.id && spm.clientSecret == n.clientSecret
      && spm.intentStatus == n.status && spm.expiresAt == Some(n.expiresAt)
      && spm.conditions == was.conditions["SetupIntentReady" := true]["TaxIDsApplied" := n.taxIdsApplied]
      && SameConfirmation(was, spm)
  {
    var acts := [ReconcileRead(id, now), PatchIntent(id, n, Done)];
    assert acts[0].ReconcileRead? && acts[1].PatchIntent?;
    MergeFromCurrent(states[0].spm, IntentSpm(states[0].spm, n), states[0].pm, states[0].pm);
  }

  /** What the end of a pass leaves on a parent that has none of the three phases yet. */
  lemma AwaitingRecorded(states: seq<System>, id: Id)
    requires Steps(states, [ReadParent(id), PatchAwaiting(id, Done)])
    ensures var was, pm := states[0].pm, states[2].pm;
      && was.phase.Early? && pm.phase == AwaitingConfirmation
      && pm.conditions == was.conditions["InstrumentReady" := false]
      && pm.instrumentType == was.instrumentType && pm.card == was.card && pm.address == was.address
      && pm.failureReason == was.failureReason && pm.failureMessage == was.failureMessage
  {
    var acts := [ReadParent(id), PatchAwaiting(id, Done)];
    assert acts[0].ReadParent? && acts[1].PatchAwaiting?;
    MergeFromCurrent(states[0].spm, states[0].spm, states[0].pm, AwaitingPm(states[0].pm));
  }

  /** The parent is moved on only from before the three phases; reading it changes neither object. */
  lemma ParentLeftAlone(states: seq<System>, id: Id)
    requires Steps(states, [ReadParent(id)])
    ensures id in states[1].actors <==> states[0].pm.phase.Early?
    ensures states[1].pm == states[0].pm && states[1].spm == states[0].spm
  {
    var acts := [ReadParent(id)];
    assert acts[0].ReadParent?;
  }

  // ----- which SetupIntents a pass keeps -----

  /**
   * In every interleaving: a pass on an object that is not Active or Failed mints a new SetupIntent
   * exactly when the object it read has no client secret, or an expiry that has passed.
   */
  lemma MintsIff(states: seq<System>, acts: seq<Action>, read: nat, next: nat)
    requires Steps(states, acts) && read < next < |acts| && acts[read].ReconcileRead?
    requires !states[read].spm.phase.Active? && !states[read].spm.phase.Failed?
    requires acts[next].id == acts[read].id && Untouched(acts, acts[read].id, read + 1, next)
    requires acts[next].PatchIntent? || acts[next].ReadParent?
    ensures acts[next].PatchIntent? <==>
              var copy := states[read].spm;
              copy.clientSecret == "" || (copy.expiresAt.Some? && acts[read].now > copy.expiresAt.value)
  {
    CopyKept(states, acts, read + 1, next, acts[read].id);
  }

  /** A pass that reads Active or Failed does nothing else: its id next stands for a new pass or delivery. */
  lemma SettledIsLeft(states: seq<System>, acts: seq<Action>, read: nat, next: nat)
    requires Steps(states, acts) && read < next < |acts| && acts[read].ReconcileRead?
    requires states[read].spm.phase.Active? || states[read].spm.phase.Failed?
    requires acts[next].id == acts[read].id && Untouched(acts, acts[read].id, read + 1, next)
    ensures acts[next].ReconcileRead? || acts[next].Deliver?
    ensures states[read + 1] == states[read]
  {
    CopyKept(states, acts, read + 1, next, acts[read].id);
  }

  // ----- whose records stand -----

  /** A run in which no two deliveries overlap, from any statuses; any call of anybody may fail. */
  ghost predicate SerialRun(states: seq<System>, acts: seq<Action>) {
    && Steps(states, acts) && states[0].actors == map[]
    && (forall i {:trigger acts[i]} :: 0 <= i < |acts| && acts[i].Deliver? ==> NoDelivery(states[i]))
  }

  datatype Record = Confirmation | ConfirmedCard | Rejection | ParentCard | ParentReason | ParentMessage

  predicate SameRecord(s: System, s': System, r: Record) {
    match r
    case Confirmation => s'.spm.paymentMethodId == s.spm.paymentMethodId && s'.spm.confirmedAt == s.spm.confirmedAt
    case ConfirmedCard => s'.spm.instrumentType == s.spm.instrumentType && s'.spm.card == s.spm.card
    case Rejection => s'.spm.failureReason == s.spm.failureReason && s'.spm.failureMessage == s.spm.failureMessage
    case ParentCard =>
      s'.pm.instrumentType == s.pm.instrumentType && s'.pm.card == s.pm.card && s'.pm.address == s.pm.address
    case ParentReason => s'.pm.failureReason == s.pm.failureReason
    case ParentMessage => s'.pm.failureMessage == s.pm.failureMessage
  }

  /** The delivery has something to say about the record. */
  predicate Carries(p: Payload, r: Record) {
    match r
    case Confirmation => p.Succeeded?
    case ConfirmedCard => p.Succeeded? && p.details.instrumentType == "card"
    case ParentCard => p.Succeeded? && p.details.instrumentType == "card"
    case Rejection => p.Rejected? && p.intent.error.Some?
    case ParentReason => p.Rejected? && p.intent.error.Some? && p.intent.error.value.code != ""
    case ParentMessage => p.Rejected? && p.intent.error.Some? && p.intent.error.value.message != ""
  }

  /** The record is what the delivery says. */
  predicate Says(s: System, r: Record, p: Payload)
    requires Carries(p, r)
  {
    match r
    case Confirmation => s.spm.paymentMethodId == p.details.id && s.spm.confirmedAt == Some(p.now)
    case ConfirmedCard => s.spm.instrumentType == "card" && s.spm.card == p.details.card
    case ParentCard => s.pm.instrumentType == "card" && s.pm.card == p.details.card && s.pm.address == p.details.address
    case Rejection =>
      s.spm.failureReason == p.intent.error.value.code && s.spm.failureMessage == p.intent.error.value.message
    case ParentReason => s.pm.failureReason == p.intent.error.value.code
    case ParentMessage => s.pm.failureMessage == p.intent.error.value.message
  }

  /** The patch that would carry the record took effect, acknowledged or not. */
  predicate Lands(s: System, a: Action, r: Record)
    requires Enabled(s, a)
  {
    if a.PatchDelivered? then
      !a.effect.Refused? && (r.Confirmation? || r.ConfirmedCard? || r.Rejection?) &&
      Carries(s.actors[a.id].payload, r)
    else
      a.Project? && !a.effect.Refused? && (r.ParentCard? || r.ParentReason? || r.ParentMessage?) &&
      Carries(s.actors[a.id].payload, r)
  }

  /** What projections write, and nobody else. */
  predicate SameDetails(p: PmStatus, q: PmStatus) {
    && p.instrumentType == q.instrumentType && p.card == q.card && p.address == q.address
    && p.failureReason == q.failureReason && p.failureMessage == q.failureMessage
  }

  /** Nobody else writes a delivery's records, so its copies of them are the server's. */
  ghost predicate Fresh(s: System, actor: Actor) {
    && (actor.Delivering? ==> SameConfirmation(actor.spm, s.spm))
    && (actor.Projecting? ==> SameDetails(actor.pm, s.pm))
  }

  ghost predicate AllFresh(s: System) {
    OneDelivery(s) && forall id :: id in s.actors ==> Fresh(s, s.actors[id])
  }

  lemma PatchWritesRecord(s: System, id: Id, effect: Effect, r: Record)
    requires Enabled(s, PatchDelivered(id, effect)) && Fresh(s, s.actors[id])
    ensures var s' := Apply(s, PatchDelivered(id, effect));
      if Lands(s, PatchDelivered(id, effect), r) then Says(s', r, s.actors[id].payload) else SameRecord(s, s', r)
  {}

  lemma ProjectionWritesRecord(s: System, id: Id, effect: Effect, r: Record)
    requires Enabled(s, Project(id, effect)) && Fresh(s, s.actors[id])
    ensures var s' := Apply(s, Project(id, effect));
      if Lands(s, Project(id, effect), r) then Says(s', r, s.actors[id].payload) else SameRecord(s, s', r)
  {}

  lemma OthersKeepRecords(s: System, a: Action)
    requires Enabled(s, a) && !a.PatchDelivered? && !a.Project?
    ensures SameConfirmation(s.spm, Apply(s, a).spm) && SameDetails(s.pm, Apply(s, a).pm)
  {}

  lemma WriteStep(s: System, a: Action, r: Record)
    requires Enabled(s, a) && AllFresh(s)
    ensures if Lands(s, a, r) then Says(Apply(s, a), r, s.actors[a.id].payload) else SameRecord(s, Apply(s, a), r)
  {
    if a.PatchDelivered? {
      assert Fresh(s, s.actors[a.id]);
      PatchWritesRecord(s, a.id, a.effect, r);
    } else if a.Project? {
      assert Fresh(s, s.actors[a.id]);
      ProjectionWritesRecord(s, a.id, a.effect, r);
    } else {
      OthersKeepRecords(s, a);
    }
  }

  lemma FreshStep(s: System, a: Action)
    requires Enabled(s, a) && AllFresh(s) && (a.Deliver? ==> NoDelivery(s))
    ensures AllFresh(Apply(s, a))
  {
    var s' := Apply(s, a);
    OneDeliveryStep(s, a);
    if !a.PatchDelivered? && !a.Project? { OthersKeepRecords(s, a); }
    forall id | id in s'.actors ensures Fresh(s', s'.actors[id]) {
      if id != a.id {
        ActorStep(s, a, id);
        assert Fresh(s, s.actors[id]);
      }
    }
  }

  lemma {:induction false} FreshAlong(states: seq<System>, acts: seq<Action>, i: nat)
    requires SerialRun(states, acts) && i <= |acts|
    ensures AllFresh(states[i])
  {
    if i > 0 {
      FreshAlong(states, acts, i - 1);
      FreshStep(states[i - 1], acts[i - 1]);
    }
  }

  /** No patch that carries the record lands among the actions from i up to j. */
  ghost predicate NoneLands(states: seq<System>, acts: seq<Action>, r: Record, i: int, j: int)
    requires Steps(states, acts) && 0 <= i && j <= |acts|
  {
    forall k {:trigger acts[k]} :: i <= k < j ==> !Lands(states[k], acts[k], r)
  }

  lemma {:induction false} NeverWritten(states: seq<System>, acts: seq<Action>, r: Record, i: nat, j: nat)
    requires SerialRun(states, acts) && i <= j <= |acts| && NoneLands(states, acts, r, i, j)
    ensures SameRecord(states[i], states[j], r)
  {
    if i < j {
      NeverWritten(states, acts, r, i, j - 1);
      FreshAlong(states, acts, j - 1);
      WriteStep(states[j - 1], acts[j - 1], r);
    }
  }

  /** At every point, each record is what the last delivery says whose patch landed and carried it. */
  lemma LastWriteStands(states: seq<System>, acts: seq<Action>, r: Record, last: nat, j: nat)
    requires SerialRun(states, acts) && last < j <= |acts|
    requires Lands(states[last], acts[last], r) && NoneLands(states, acts, r, last + 1, j)
    ensures Says(states[j], r, states[last].actors[acts[last].id].payload)
  {
    FreshAlong(states, acts, last);
    WriteStep(states[last], acts[last], r);
    NeverWritten(states, acts, r, last + 1, j);
  }

  /** In any run: a success that lands is recorded, unless its copy had part of it and the server has not. */
  lemma ConfirmationStandsIff(s: System, id: Id, effect: Effect)
    requires Enabled(s, PatchDelivered(id, effect)) && !effect.Refused? && s.actors[id].payload.Succeeded?
    ensures var copy, p := s.actors[id].spm, s.actors[id].payload;
      Says(Apply(s, PatchDelivered(id, effect)), Confirmation, p) <==>
        && (copy.paymentMethodId == p.details.id ==> s.spm.paymentMethodId == p.details.id)
        && (copy.confirmedAt == Some(p.now) ==> s.spm.confirmedAt == Some(p.now))
  {}

  /** Why deliveries must not overlap: the card that confirmed last is not the one recorded. */
  lemma OverlapKeepsOther(s: System, a: Id, p: Payload, b: Id, q: Payload) returns (states: seq<System>)
    requires s.actors == map[] && a != b && p.Succeeded? && q.Succeeded?
    requires s.spm.paymentMethodId == p.details.id != q.details.id
    ensures Steps(states, [Deliver(a, p), Deliver(b, q), PatchDelivered(b, Done), PatchDelivered(a, Done)])
    ensures states[0] == s && states[4].spm.paymentMethodId == q.details.id
  {
    var s1 := Apply(s, Deliver(a, p));
    var s2 := Apply(s1, Deliver(b, q));
    assert s2.actors == map[a := Delivering(p, s.spm), b := Delivering(q, s.spm)];
    var s3 := Apply(s2, PatchDelivered(b, Done));
    assert s3.actors == map[a := Delivering(p, s.spm), b := ProjectionDue(q)];
    var s4 := Apply(s3, PatchDelivered(a, Done));
    FourSteps(s, Deliver(a, p), Deliver(b, q), PatchDelivered(b, Done), PatchDelivered(a, Done), s1, s2, s3, s4);
    states := [s, s1, s2, s3, s4];
  }
}
