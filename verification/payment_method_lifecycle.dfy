/**
 * One payment method under any number of reconcile passes and webhook deliveries. Every read and
 * every patch is its own action, so copies grow stale; every patch may be refused, or applied
 * although its sender saw an error.
 */
module PaymentMethodLifecycle {
  import opened PaymentMethodStatus
  import opened Remote

  type Id = nat

  /** What a pass or a delivery holds between its calls. */
  datatype Actor =
    | NeedsIntent(spm: SpmStatus)
    | ParentDue
    | HoldsParent(pm: PmStatus)
    | Delivering(payload: Payload, spm: SpmStatus)
    | ProjectionDue(payload: Payload)
    | Projecting(payload: Payload, pm: PmStatus)

  datatype System = System(spm: SpmStatus, pm: PmStatus, log: seq<TimelineEvent>, actors: map<Id, Actor>)

  datatype Action =
    | ReconcileRead(id: Id, now: int)
    | PatchIntent(id: Id, intent: NewIntent, effect: Effect)
    | ReadParent(id: Id)
    | PatchAwaiting(id: Id, effect: Effect)
    | Deliver(id: Id, payload: Payload)
    | PatchDelivered(id: Id, effect: Effect)
    | ReadForProjection(id: Id)
    | Project(id: Id, effect: Effect)
    | GiveUp(id: Id)

  predicate Is(s: System, id: Id, a: Action) {
    id in s.actors &&
    match s.actors[id]
    case NeedsIntent(_) => a.PatchIntent?
    case ParentDue => a.ReadParent?
    case HoldsParent(_) => a.PatchAwaiting?
    case Delivering(_, _) => a.PatchDelivered?
    case ProjectionDue(_) => a.ReadForProjection?
    case Projecting(_, _) => a.Project?
  }

  /** Stripe issues a new, non-empty client secret with every SetupIntent. */
  predicate Enabled(s: System, a: Action) {
    match a
    case ReconcileRead(id, _) => id !in s.actors
    case Deliver(id, _) => id !in s.actors
    case GiveUp(id) => id in s.actors
    case PatchIntent(id, n, _) =>
      Is(s, id, a) && n.clientSecret != "" && n.clientSecret != s.actors[id].spm.clientSecret
    case _ => Is(s, a.id, a)
  }

  function Set(s: System, id: Id, actor: Actor): System {
    s.(actors := s.actors[id := actor])
  }

  function Drop(s: System, id: Id): System {
    s.(actors := s.actors - {id})
  }

  /** Reconcile after its Get: terminal phases are sticky, a fresh intent only needs its parent moved. */
  function DoReconcileRead(s: System, id: Id, now: int): System {
    if Terminal(s.spm.phase) then s
    else if s.spm.clientSecret != "" && !Expired(s.spm, now) then Set(s, id, ParentDue)
    else Set(s, id, NeedsIntent(s.spm))
  }

  function DoPatchIntent(s: System, id: Id, n: NewIntent, effect: Effect): System
    requires id in s.actors && s.actors[id].NeedsIntent?
  {
    var base := s.actors[id].spm;
    var s' := if effect.Refused? then s else s.(spm := MergeSpm(base, IntentSpm(base, n), s.spm));
    if effect.Done? then Set(s', id, ParentDue) else Drop(s', id)
  }

  /** ensurePaymentMethodAwaiting leaves a parent alone that already reports one of the three phases. */
  function DoReadParent(s: System, id: Id): System {
    if Settled(s.pm.phase) then Drop(s, id) else Set(s, id, HoldsParent(s.pm))
  }

  function DoPatchAwaiting(s: System, id: Id, effect: Effect): System
    requires id in s.actors && s.actors[id].HoldsParent?
  {
    var base := s.actors[id].pm;
    Drop(if effect.Refused? then s else s.(pm := MergePm(base, AwaitingPm(base), s.pm)), id)
  }

  function DoPatchDelivered(s: System, id: Id, effect: Effect): System
    requires id in s.actors && s.actors[id].Delivering?
  {
    var base, p := s.actors[id].spm, s.actors[id].payload;
    var s' := if effect.Refused? then s else s.(spm := MergeSpm(base, DeliveredSpm(base, p), s.spm));
    if effect.Done? then Set(s', id, ProjectionDue(p)) else Drop(s', id)
  }

  function DoProject(s: System, id: Id, effect: Effect): System
    requires id in s.actors && s.actors[id].Projecting?
  {
    var base, p := s.actors[id].pm, s.actors[id].payload;
    var s' := if effect.Refused? then s else s.(pm := MergePm(base, DeliveredPm(base, p), s.pm));
    Drop(s'.(log := s.log + Recorded(base.phase, p, effect)), id)
  }

  function Apply(s: System, a: Action): System
    requires Enabled(s, a)
  {
    match a
    case ReconcileRead(id, now) => DoReconcileRead(s, id, now)
    case PatchIntent(id, n, effect) => DoPatchIntent(s, id, n, effect)
    case ReadParent(id) => DoReadParent(s, id)
    case PatchAwaiting(id, effect) => DoPatchAwaiting(s, id, effect)
    case Deliver(id, p) => Set(s, id, Delivering(p, s.spm))
    case PatchDelivered(id, effect) => DoPatchDelivered(s, id, effect)
    case ReadForProjection(id) => Set(s, id, Projecting(s.actors[id].payload, s.pm))
    case Project(id, effect) => DoProject(s, id, effect)
    case GiveUp(id) => Drop(s, id)
  }

  /** The states that acts lead through, one by one. */
  ghost predicate Steps(states: seq<System>, acts: seq<Action>) {
    && |states| == |acts| + 1
    && (forall i {:trigger acts[i]} :: 0 <= i < |acts| ==>
          Enabled(states[i], acts[i]) && states[i + 1] == Apply(states[i], acts[i]))
  }

  lemma StepsConcat(states: seq<System>, acts: seq<Action>, more: seq<System>, rest: seq<Action>)
    requires Steps(states, acts) && Steps(more, rest) && more[0] == states[|acts|]
    ensures Steps(states + more[1..], acts + rest)
  {
    var states', acts' := states + more[1..], acts + rest;
    forall i {:trigger acts'[i]} | 0 <= i < |acts'|
      ensures Enabled(states'[i], acts'[i]) && states'[i + 1] == Apply(states'[i], acts'[i])
    {
      if i < |acts| { assert acts'[i] == acts[i]; } else { assert acts'[i] == rest[i - |acts|]; }
    }
  }

  lemma FourSteps(s: System, a: Action, b: Action, c: Action, d: Action,
                  s1: System, s2: System, s3: System, s4: System)
    requires Enabled(s, a) && s1 == Apply(s, a) && Enabled(s1, b) && s2 == Apply(s1, b)
    requires Enabled(s2, c) && s3 == Apply(s2, c) && Enabled(s3, d) && s4 == Apply(s3, d)
    ensures Steps([s, s1, s2, s3, s4], [a, b, c, d])
  {}

  // ----- the timeline -----

  ghost predicate Alternates(log: seq<TimelineEvent>) {
    forall i :: 0 <= i < |log| - 1 ==> log[i] != log[i + 1]
  }

  /** Attached and Failed alternate, and the last one is the parent's phase; none before a terminal phase. */
  ghost predicate Truthful(s: System) {
    && Alternates(s.log)
    && (s.log != [] && s.log[|s.log| - 1].PaymentMethodAttached? <==> s.pm.phase.Active?)
    && (s.log != [] && s.log[|s.log| - 1].PaymentMethodFailed? <==> s.pm.phase.Failed?)
  }

  /**
   * The patches that break the timeline: a projection from a copy that was not there yet, recorded
   * when the parent already was, or not recorded when it was not; and an Awaiting patch that lands
   * on a terminal parent.
   */
  predicate Disturbs(s: System, a: Action)
    requires Enabled(s, a)
  {
    match a
    case Project(id, effect) =>
      var target := Target(s.actors[id].payload);
      s.actors[id].pm.phase != target &&
      ((effect.Done? && s.pm.phase == target) || (effect.Unacknowledged? && s.pm.phase != target))
    case PatchAwaiting(_, effect) => !effect.Refused? && Terminal(s.pm.phase)
    case _ => false
  }

  lemma SnocAlternates(log: seq<TimelineEvent>, e: TimelineEvent)
    requires Alternates(log)
    ensures Alternates(log + [e]) <==> (log == [] || log[|log| - 1] != e)
  {
    var l := log + [e];
    if log != [] {
      assert l[|log| - 1] == log[|log| - 1] && l[|log| - 1 + 1] == e;
    }
  }

  /** Only snapshots that were not settled are ever held for an Awaiting patch. */
  ghost predicate HoldersEarly(s: System) {
    forall id :: id in s.actors && s.actors[id].HoldsParent? ==> !Settled(s.actors[id].pm.phase)
  }

  lemma ProjectStep(s: System, id: Id, effect: Effect)
    requires Truthful(s) && Enabled(s, Project(id, effect))
    ensures Truthful(DoProject(s, id, effect)) <==> !Disturbs(s, Project(id, effect))
  {
    SnocAlternates(s.log, PaymentMethodAttached);
    SnocAlternates(s.log, PaymentMethodFailed);
  }

  lemma EarlyKept(s: System, a: Action)
    requires HoldersEarly(s) && Enabled(s, a)
    ensures HoldersEarly(Apply(s, a))
  {}

  lemma TimelineStep(s: System, a: Action)
    requires Truthful(s) && HoldersEarly(s) && Enabled(s, a)
    ensures Truthful(Apply(s, a)) <==> !Disturbs(s, a)
  {
    match a
    case Project(id, effect) => ProjectStep(s, id, effect);
    case _ =>
  }

  lemma {:induction false} HoldersEarlyAlong(states: seq<System>, acts: seq<Action>, i: nat)
    requires Steps(states, acts) && states[0].actors == map[] && i <= |acts|
    ensures HoldersEarly(states[i])
  {
    if i > 0 {
      HoldersEarlyAlong(states, acts, i - 1);
      EarlyKept(states[i - 1], acts[i - 1]);
    }
  }

  lemma {:induction false} TruthfulUpTo(states: seq<System>, acts: seq<Action>, i: nat)
    requires Steps(states, acts) && states[0].actors == map[] && Truthful(states[0]) && i <= |acts|
    requires forall j {:trigger acts[j]} :: 0 <= j < i ==> !Disturbs(states[j], acts[j])
    ensures Truthful(states[i])
  {
    if i > 0 {
      TruthfulUpTo(states, acts, i - 1);
      HoldersEarlyAlong(states, acts, i - 1);
      TimelineStep(states[i - 1], acts[i - 1]);
    }
  }

  /** Over every run, the timeline stays truthful exactly when no action disturbs it. */
  lemma TimelineIff(states: seq<System>, acts: seq<Action>)
    requires Steps(states, acts) && states[0].actors == map[] && Truthful(states[0])
    ensures (forall i :: 0 <= i <= |acts| ==> Truthful(states[i])) <==>
            (forall i {:trigger acts[i]} :: 0 <= i < |acts| ==> !Disturbs(states[i], acts[i]))
  {
    if forall i {:trigger acts[i]} :: 0 <= i < |acts| ==> !Disturbs(states[i], acts[i]) {
      forall i | 0 <= i <= |acts| ensures Truthful(states[i]) { TruthfulUpTo(states, acts, i); }
    }
    if forall i :: 0 <= i <= |acts| ==> Truthful(states[i]) {
      forall i {:trigger acts[i]} | 0 <= i < |acts| ensures !Disturbs(states[i], acts[i]) {
        HoldersEarlyAlong(states, acts, i);
        assert Truthful(states[i]) && Truthful(states[i + 1]);
        TimelineStep(states[i], acts[i]);
      }
    }
  }

  /** A patch of the parent that lands on the very copy it was computed from, and is acknowledged or refused. */
  predicate Atomic(s: System, a: Action)
    requires Enabled(s, a)
  {
    match a
    case Project(id, effect) => s.actors[id].pm.phase == s.pm.phase && !effect.Unacknowledged?
    case PatchAwaiting(id, _) => s.actors[id].pm.phase == s.pm.phase
    case _ => true
  }

  lemma AtomicNeverDisturbs(s: System, a: Action)
    requires HoldersEarly(s) && Enabled(s, a) && Atomic(s, a)
    ensures !Disturbs(s, a)
  {}

  /** With every read and patch of the parent as one step, the timeline is truthful at every point. */
  lemma AtomicTimeline(states: seq<System>, acts: seq<Action>, i: nat)
    requires Steps(states, acts) && states[0].actors == map[] && Truthful(states[0]) && i <= |acts|
    requires forall j {:trigger acts[j]} :: 0 <= j < |acts| ==> Atomic(states[j], acts[j])
    ensures Truthful(states[i])
  {
    forall j {:trigger acts[j]} | 0 <= j < i ensures !Disturbs(states[j], acts[j]) {
      HoldersEarlyAlong(states, acts, j);
      AtomicNeverDisturbs(states[j], acts[j]);
    }
    TruthfulUpTo(states, acts, i);
  }

  /** Two deliveries of the same outcome, each reading before the other writes. */
  function Patches(a: Id, b: Id, p: Payload): seq<Action> {
    [Deliver(a, p), Deliver(b, p), PatchDelivered(a, Done), PatchDelivered(b, Done)]
  }

  function Projections(a: Id, b: Id): seq<Action> {
    [ReadForProjection(a), ReadForProjection(b), Project(a, Done), Project(b, Done)]
  }

  lemma OverlapPatches(s: System, a: Id, b: Id, p: Payload) returns (states: seq<System>)
    requires s.actors == map[] && a != b
    ensures Steps(states, Patches(a, b, p)) && states[0] == s
    ensures states[4].pm == s.pm && states[4].log == s.log
    ensures states[4].actors == map[a := ProjectionDue(p), b := ProjectionDue(p)]
  {
    var s1 := Apply(s, Deliver(a, p));
    assert s1.actors == map[a := Delivering(p, s.spm)] && s1.spm == s.spm;
    var s2 := Apply(s1, Deliver(b, p));
    var s3 := Apply(s2, PatchDelivered(a, Done));
    assert s2.actors == map[a := Delivering(p, s.spm), b := Delivering(p, s.spm)];
    assert s3.actors == map[a := ProjectionDue(p), b := Delivering(p, s.spm)];
    var s4 := Apply(s3, PatchDelivered(b, Done));
    FourSteps(s, Deliver(a, p), Deliver(b, p), PatchDelivered(a, Done), PatchDelivered(b, Done), s1, s2, s3, s4);
    states := [s, s1, s2, s3, s4];
  }

  lemma OverlapProjects(s: System, a: Id, b: Id, p: Payload) returns (states: seq<System>)
    requires s.actors == map[a := ProjectionDue(p), b := ProjectionDue(p)] && a != b && s.pm.phase != Target(p)
    ensures Steps(states, Projections(a, b)) && states[0] == s
    ensures states[4].log == s.log + Recorded(s.pm.phase, p, Done) + Recorded(s.pm.phase, p, Done)
  {
    var s1 := Apply(s, ReadForProjection(a));
    var s2 := Apply(s1, ReadForProjection(b));
    assert s2.actors == map[a := Projecting(p, s.pm), b := Projecting(p, s.pm)];
    var s3 := Apply(s2, Project(a, Done));
    var s4 := Apply(s3, Project(b, Done));
    FourSteps(s, ReadForProjection(a), ReadForProjection(b), Project(a, Done), Project(b, Done), s1, s2, s3, s4);
    states := [s, s1, s2, s3, s4];
  }

  /** Why reads and patches must not overlap: the outcome is recorded twice, and the timeline stutters. */
  lemma OverlapRecordsTwice(s: System, a: Id, b: Id, p: Payload) returns (states: seq<System>)
    requires s.actors == map[] && a != b && s.pm.phase != Target(p)
    ensures Steps(states, Patches(a, b, p) + Projections(a, b)) && states[0] == s
    ensures states[8].log == s.log + Recorded(s.pm.phase, p, Done) + Recorded(s.pm.phase, p, Done)
    ensures !Truthful(states[8])
  {
    var patches := OverlapPatches(s, a, b, p);
    var projections := OverlapProjects(patches[4], a, b, p);
    StepsConcat(patches, Patches(a, b, p), projections, Projections(a, b));
    states := patches + projections[1..];
    assert states[8] == projections[4];
    var log := states[8].log;
    assert log[|s.log|] == log[|s.log| + 1];
  }

  // ----- what a reconcile pass may overwrite -----

  /** What confirmation writes. */
  ghost predicate SameConfirmation(s: SpmStatus, s': SpmStatus) {
    && s'.paymentMethodId == s.paymentMethodId && s'.confirmedAt == s.confirmedAt
    && s'.instrumentType == s.instrumentType && s'.card == s.card
    && s'.failureReason == s.failureReason && s'.failureMessage == s.failureMessage
  }

  /** A reconcile patch never touches the confirmation, and the phase only from a copy not yet Awaiting. */
  lemma PatchIntentTouches(s: System, id: Id, n: NewIntent, effect: Effect)
    requires Enabled(s, PatchIntent(id, n, effect))
    ensures SameConfirmation(s.spm, DoPatchIntent(s, id, n, effect).spm)
    ensures DoPatchIntent(s, id, n, effect).spm.phase != s.spm.phase <==>
              !effect.Refused? && !s.actors[id].spm.phase.AwaitingConfirmation? && !s.spm.phase.AwaitingConfirmation?
  {}

  lemma SettledStep(s: System, a: Action)
    requires Enabled(s, a) && Settled(s.spm.phase)
    ensures Settled(Apply(s, a).spm.phase)
  {}

  /** Once awaiting, active or failed, always one of these. */
  lemma {:induction false} SettledForever(states: seq<System>, acts: seq<Action>, i: nat, j: nat)
    requires Steps(states, acts) && i <= j <= |acts| && Settled(states[i].spm.phase)
    ensures Settled(states[j].spm.phase)
  {
    if i < j {
      SettledForever(states, acts, i, j - 1);
      SettledStep(states[j - 1], acts[j - 1]);
    }
  }

  lemma ActorStep(s: System, a: Action, id: Id)
    requires Enabled(s, a) && a.id != id
    ensures id in Apply(s, a).actors <==> id in s.actors
    ensures id in s.actors ==> Apply(s, a).actors[id] == s.actors[id]
  {}

  /** The actions with numbers from i up to j are other actors'. */
  predicate Untouched(acts: seq<Action>, id: Id, i: nat, j: nat) {
    forall k :: i <= k < j && k < |acts| ==> acts[k].id != id
  }

  lemma {:induction false} CopyKept(states: seq<System>, acts: seq<Action>, i: nat, j: nat, id: Id)
    requires Steps(states, acts) && i <= j <= |acts| && Untouched(acts, id, i, j)
    ensures id in states[i].actors <==> id in states[j].actors
    ensures id in states[i].actors ==> states[j].actors[id] == states[i].actors[id]
  {
    if i < j {
      CopyKept(states, acts, i, j - 1, id);
      ActorStep(states[j - 1], acts[j - 1], id);
    }
  }

  /**
   * In every interleaving: a reconcile pass that read the object at or after the first
   * AwaitingConfirmation write never changes its phase or anything confirmation wrote.
   */
  lemma ReconcileNeverOverwrites(states: seq<System>, acts: seq<Action>, first: nat, read: nat, patch: nat)
    requires Steps(states, acts) && first <= read < patch < |acts|
    requires states[first].spm.phase.AwaitingConfirmation?
    requires acts[read].ReconcileRead? && acts[patch].PatchIntent? && acts[patch].id == acts[read].id
    requires Untouched(acts, acts[read].id, read + 1, patch)
    ensures states[patch + 1].spm.phase == states[patch].spm.phase
    ensures SameConfirmation(states[patch].spm, states[patch + 1].spm)
  {
    var id := acts[read].id;
    SettledForever(states, acts, first, read);
    CopyKept(states, acts, read + 1, patch, id);
    assert states[patch].actors[id].spm == states[read].spm;
    PatchIntentTouches(states[patch], id, acts[patch].intent, acts[patch].effect);
  }
}
