/**
 * When the StripePaymentMethod and its parent agree: whatever reconcile passes do between the reads
 * and patches of a delivery, and whichever calls of either fail, the exact actions that break
 * agreement. Deliveries do not overlap.
 */
module PaymentMethodAgreement {
  import opened PaymentMethodLifecycle
  import opened PaymentMethodStatus
  import opened Remote

  predicate IsReady(pm: PmStatus) {
    READY in pm.conditions && pm.conditions[READY]
  }

  predicate CardsAgree(s: System) {
    s.spm.instrumentType == s.pm.instrumentType && s.spm.card == s.pm.card
  }

  predicate Coherent(s: System) {
    && (s.spm.phase.Active? <==> s.pm.phase.Active?)
    && (s.spm.phase.Failed? <==> s.pm.phase.Failed?)
    && (IsReady(s.pm) <==> s.pm.phase.Active?)
    && CardsAgree(s)
    && (s.spm.phase.Active? ==> s.spm.clientSecret == "")
  }

  // ----- deliveries among reconcile passes -----

  predicate IsDelivery(actor: Actor) {
    actor.Delivering? || IsPast(actor)
  }

  /** A delivery between its first patch and its last. */
  predicate IsPast(actor: Actor) {
    actor.ProjectionDue? || actor.Projecting?
  }

  ghost predicate NoDelivery(s: System) {
    forall id :: id in s.actors ==> !IsDelivery(s.actors[id])
  }

  ghost predicate NonePast(s: System) {
    forall id :: id in s.actors ==> !IsPast(s.actors[id])
  }

  /** A run in which no two deliveries overlap; any call of anybody may fail. */
  ghost predicate InTurnRun(states: seq<System>, acts: seq<Action>) {
    && Steps(states, acts) && states[0].actors == map[] && Coherent(states[0])
    && (forall i {:trigger acts[i]} :: 0 <= i < |acts| && acts[i].Deliver? ==> NoDelivery(states[i]))
  }

  /** The StripePaymentMethod shows the outcome of a delivery. */
  predicate Shows(spm: SpmStatus, p: Payload) {
    spm.phase == Target(p) && (p.Succeeded? ==> spm.clientSecret == "")
  }

  /** The objects agree, except while a delivery has written one and not yet the other. */
  ghost predicate AgreesAt(s: System) {
    && (NonePast(s) ==> Coherent(s))
    && (forall id :: id in s.actors && IsPast(s.actors[id]) ==> Shows(s.spm, s.actors[id].payload))
  }

  /** The action ends a delivery that has written the StripePaymentMethod, in success or in error. */
  predicate Ends(s: System, a: Action)
    requires Enabled(s, a)
  {
    match a
    case Project(_, _) => true
    case GiveUp(id) => IsPast(s.actors[id])
    case PatchDelivered(_, effect) => effect.Unacknowledged?
    case _ => false
  }

  /** A delivery that ends after it wrote anything shows in both objects. */
  predicate Achieves(s: System, a: Action)
    requires Enabled(s, a)
  {
    Ends(s, a) ==>
      var target := Target(s.actors[a.id].payload);
      Apply(s, a).spm.phase == target && Apply(s, a).pm.phase == target
  }

  ghost predicate Agreement(states: seq<System>, acts: seq<Action>)
    requires Steps(states, acts)
  {
    && (forall i :: 0 <= i <= |acts| ==> AgreesAt(states[i]))
    && (forall i {:trigger acts[i]} :: 0 <= i < |acts| ==> Achieves(states[i], acts[i]))
  }

  // ----- the actions that break agreement -----

  /** A delivery's copy already had the phase, or had no secret, and the server has moved on since. */
  predicate FirstStale(s: System, copy: SpmStatus, p: Payload) {
    || (copy.phase == Target(p) && s.spm.phase != Target(p))
    || (p.Succeeded? && copy.clientSecret == "" && s.spm.clientSecret != "")
  }

  /** The same of its copy of the parent: the phase, or the readiness. */
  predicate SecondStale(s: System, copy: PmStatus, p: Payload) {
    || (copy.phase == Target(p) && s.pm.phase != Target(p))
    || (p.Succeeded? && IsReady(copy) && !IsReady(s.pm))
  }

  /** The parent already says what the delivery would have it say. */
  predicate ParentHas(pm: PmStatus, p: Payload) {
    && pm.phase == Target(p)
    && (p.Succeeded? && p.details.instrumentType == "card" ==> pm.instrumentType == "card" && pm.card == p.details.card)
  }

  /** The parent, as it is, agrees with a StripePaymentMethod that shows the outcome. */
  predicate ParentAgrees(s: System, p: Payload) {
    s.pm.phase == Target(p) && (IsReady(s.pm) <==> p.Succeeded?) && CardsAgree(s)
  }

  /**
   * A delivery's patch from a stale copy. A delivery that ends early while its parent says something
   * else. A new SetupIntent on an object that was confirmed, or was rejected since the copy was read.
   * An Awaiting patch on a terminal parent, unless a delivery is about to write that parent.
   */
  ghost predicate Overtaken(s: System, a: Action)
    requires Enabled(s, a)
  {
    match a
    case PatchDelivered(id, effect) =>
      var copy, p := s.actors[id].spm, s.actors[id].payload;
      !effect.Refused? && (FirstStale(s, copy, p) || (effect.Unacknowledged? && !ParentHas(s.pm, p)))
    case Project(id, effect) =>
      var copy, p := s.actors[id].pm, s.actors[id].payload;
      if effect.Refused? then !ParentAgrees(s, p) else SecondStale(s, copy, p)
    case GiveUp(id) => IsPast(s.actors[id]) && !ParentAgrees(s, s.actors[id].payload)
    case PatchIntent(id, _, effect) =>
      && !effect.Refused?
      && (s.spm.phase.Active? || (s.spm.phase.Failed? && !s.actors[id].spm.phase.AwaitingConfirmation?))
    case PatchAwaiting(_, effect) => !effect.Refused? && Terminal(s.pm.phase) && NonePast(s)
    case _ => false
  }

  // ----- what holds in between -----

  ghost predicate OneDelivery(s: System) {
    forall i, j :: i in s.actors && j in s.actors && IsDelivery(s.actors[i]) && IsDelivery(s.actors[j]) ==> i == j
  }

  /** The first patch of a delivery is in place. */
  predicate Delivered(s: System, p: Payload) {
    && Shows(s.spm, p)
    && (if p.Succeeded? && p.details.instrumentType == "card"
        then s.spm.instrumentType == "card" && s.spm.card == p.details.card else CardsAgree(s))
  }

  /** Nobody else writes the cards, so a delivery's copies of them are current. */
  predicate GoodActor(s: System, actor: Actor) {
    match actor
    case Delivering(_, copy) => copy.card == s.spm.card && copy.instrumentType == s.spm.instrumentType
    case ProjectionDue(p) => Delivered(s, p)
    case Projecting(p, copy) =>
      && Delivered(s, p) && copy.card == s.pm.card && copy.instrumentType == s.pm.instrumentType
      && (IsReady(s.pm) ==> IsReady(copy))
    case HoldsParent(copy) => !Settled(copy.phase)
    case _ => true
  }

  ghost predicate GoodActors(s: System) {
    forall id :: id in s.actors ==> GoodActor(s, s.actors[id])
  }

  ghost predicate Good(s: System) {
    OneDelivery(s) && GoodActors(s) && (NonePast(s) ==> Coherent(s))
  }

  lemma GoodAgrees(s: System)
    requires Good(s)
    ensures AgreesAt(s)
  {
    forall id | id in s.actors && IsPast(s.actors[id]) ensures Shows(s.spm, s.actors[id].payload) {
      assert GoodActor(s, s.actors[id]);
    }
  }

  ghost predicate InTurn(s: System, a: Action) {
    a.Deliver? ==> NoDelivery(s)
  }

  lemma OneDeliveryStep(s: System, a: Action)
    requires OneDelivery(s) && Enabled(s, a) && InTurn(s, a)
    ensures OneDelivery(Apply(s, a))
    ensures Ends(s, a) ==> NoDelivery(Apply(s, a))
  {}

  /** What the action leaves agrees, and what it ends has had its effect. */
  ghost predicate Keeps(s: System, a: Action)
    requires Enabled(s, a)
  {
    AgreesAt(Apply(s, a)) && Achieves(s, a)
  }

  /** Agreement is kept exactly when the action is not overtaken, and then the invariant is too. */
  ghost predicate Decided(s: System, a: Action)
    requires Enabled(s, a)
  {
    (Keeps(s, a) <==> !Overtaken(s, a)) && (!Overtaken(s, a) ==> Good(Apply(s, a)))
  }

  // ----- actions that write neither object -----

  predicate Quiet(s: System, a: Action)
    requires Enabled(s, a)
  {
    match a
    case GiveUp(id) => !IsPast(s.actors[id])
    case PatchDelivered(_, effect) => effect.Refused?
    case PatchIntent(_, _, effect) => effect.Refused?
    case PatchAwaiting(_, effect) => effect.Refused?
    case Project(_, _) => false
    case _ => true
  }

  lemma QuietActors(s: System, a: Action)
    requires Enabled(s, a) && Quiet(s, a)
    ensures Apply(s, a).spm == s.spm && Apply(s, a).pm == s.pm
    ensures NonePast(Apply(s, a)) ==> NonePast(s)
  {
    var s' := Apply(s, a);
    if a.ReadForProjection? { assert IsPast(s'.actors[a.id]); }
    if NonePast(s') {
      forall id | id in s.actors ensures !IsPast(s.actors[id]) {
        if id != a.id { assert id in s'.actors && s'.actors[id] == s.actors[id]; }
      }
    }
  }

  lemma QuietGoodActors(s: System, a: Action)
    requires Good(s) && Enabled(s, a) && Quiet(s, a)
    ensures GoodActors(Apply(s, a))
  {}

  lemma QuietStep(s: System, a: Action)
    requires Good(s) && Enabled(s, a) && InTurn(s, a) && Quiet(s, a)
    ensures Decided(s, a)
  {
    OneDeliveryStep(s, a);
    QuietActors(s, a);
    QuietGoodActors(s, a);
    GoodAgrees(Apply(s, a));
  }

  // ----- a delivery ends early -----

  /** A delivery that stops past its first patch leaves the parent as it is. */
  predicate StopsEarly(s: System, a: Action)
    requires Enabled(s, a)
  {
    (a.GiveUp? && IsPast(s.actors[a.id])) || (a.Project? && a.effect.Refused?)
  }

  lemma StopDrops(s: System, a: Action)
    requires Enabled(s, a) && StopsEarly(s, a)
    ensures Apply(s, a).spm == s.spm && Apply(s, a).pm == s.pm && Apply(s, a).actors == s.actors - {a.id}
    ensures IsPast(s.actors[a.id])
  {}

  lemma StopStep(s: System, a: Action)
    requires Good(s) && Enabled(s, a) && StopsEarly(s, a)
    ensures Decided(s, a)
  {
    var s', p := Apply(s, a), s.actors[a.id].payload;
    StopDrops(s, a);
    OneDeliveryStep(s, a);
    assert GoodActor(s, s.actors[a.id]) && Delivered(s, p);
    NoneLeft(s');
    DroppedGood(s, s', a.id);
  }

  lemma NoneLeft(s: System)
    requires NoDelivery(s)
    ensures NonePast(s) && (AgreesAt(s) <==> Coherent(s))
  {}

  /** With a delivery gone, nobody's copies of the cards matter. */
  lemma DroppedGood(s: System, s': System, id: Id)
    requires GoodActors(s) && OneDelivery(s) && id in s.actors && IsDelivery(s.actors[id])
    requires s'.actors == s.actors - {id}
    ensures GoodActors(s') && OneDelivery(s')
  {
    forall u | u in s'.actors ensures GoodActor(s', s'.actors[u]) {
      assert u in s.actors && GoodActor(s, s.actors[u]) && !IsDelivery(s.actors[u]);
    }
  }

  // ----- the first patch of a delivery -----

  lemma FirstPatch(s: System, id: Id, effect: Effect)
    requires Good(s) && Enabled(s, PatchDelivered(id, effect)) && !effect.Refused?
    ensures var s', p := DoPatchDelivered(s, id, effect), s.actors[id].payload;
      && s'.pm == s.pm && (Shows(s'.spm, p) <==> !FirstStale(s, s.actors[id].spm, p))
      && (p.Succeeded? && p.details.instrumentType == "card" ==>
            s'.spm.instrumentType == "card" && s'.spm.card == p.details.card)
      && (!(p.Succeeded? && p.details.instrumentType == "card") ==>
            s'.spm.instrumentType == s.spm.instrumentType && s'.spm.card == s.spm.card)
  {
    assert GoodActor(s, s.actors[id]);
  }

  /** While a delivery has read and not patched, no other is past its first patch. */
  lemma UnpatchedCoherent(s: System, id: Id)
    requires Good(s) && id in s.actors && s.actors[id].Delivering?
    ensures Coherent(s)
  {
    forall u | u in s.actors ensures !IsPast(s.actors[u]) {
      assert IsDelivery(s.actors[id]);
    }
  }

  lemma FirstPatchStep(s: System, id: Id)
    requires Good(s) && Enabled(s, PatchDelivered(id, Done))
    ensures Decided(s, PatchDelivered(id, Done))
  {
    var s', p := DoPatchDelivered(s, id, Done), s.actors[id].payload;
    UnpatchedCoherent(s, id);
    FirstPatch(s, id, Done);
    OneDeliveryStep(s, PatchDelivered(id, Done));
    assert s'.actors == s.actors[id := ProjectionDue(p)] && IsPast(s'.actors[id]);
    forall u | u in s'.actors && u != id ensures GoodActor(s', s'.actors[u]) && !IsPast(s'.actors[u]) {
      assert GoodActor(s, s.actors[u]) && IsDelivery(s.actors[id]);
    }
  }

  lemma UnnoticedPatchStep(s: System, id: Id)
    requires Good(s) && Enabled(s, PatchDelivered(id, Unacknowledged))
    ensures Decided(s, PatchDelivered(id, Unacknowledged))
  {
    var s' := DoPatchDelivered(s, id, Unacknowledged);
    UnpatchedCoherent(s, id);
    FirstPatch(s, id, Unacknowledged);
    OneDeliveryStep(s, PatchDelivered(id, Unacknowledged));
    NoneLeft(s');
    DroppedGood(s, s', id);
  }

  // ----- the projection -----

  /** A condition is sent only when the copy did not have it. */
  lemma ReadySent(copy: PmStatus, p: Payload)
    ensures DeliveredPm(copy, p).conditions == copy.conditions[READY := p.Succeeded?]
    ensures IsReady(copy) <==> copy.conditions[READY := true] == copy.conditions
    ensures copy.conditions[READY := false] == copy.conditions ==> !IsReady(copy)
  {
    assert READY in copy.conditions[READY := true] && copy.conditions[READY := true][READY];
    assert READY in copy.conditions[READY := false] && !copy.conditions[READY := false][READY];
  }

  lemma ProjectedReady(s: System, id: Id, effect: Effect)
    requires Enabled(s, Project(id, effect)) && !effect.Refused? && (IsReady(s.pm) ==> IsReady(s.actors[id].pm))
    ensures IsReady(DoProject(s, id, effect).pm) <==>
              s.actors[id].payload.Succeeded? && (IsReady(s.actors[id].pm) ==> IsReady(s.pm))
  {
    ReadySent(s.actors[id].pm, s.actors[id].payload);
  }

  lemma SecondPatch(s: System, id: Id, effect: Effect)
    requires Enabled(s, Project(id, effect)) && !effect.Refused? && GoodActor(s, s.actors[id])
    ensures var s', p := DoProject(s, id, effect), s.actors[id].payload;
      && s'.spm == s.spm && s'.actors == s.actors - {id} && CardsAgree(s')
      && (s'.pm.phase == Target(p) <==> s.actors[id].pm.phase != Target(p) || s.pm.phase == Target(p))
  {}

  lemma ProjectStepDecided(s: System, id: Id, effect: Effect)
    requires Good(s) && Enabled(s, Project(id, effect)) && !effect.Refused?
    ensures Decided(s, Project(id, effect))
  {
    var s' := DoProject(s, id, effect);
    assert GoodActor(s, s.actors[id]);
    SecondPatch(s, id, effect);
    ProjectedReady(s, id, effect);
    OneDeliveryStep(s, Project(id, effect));
    NoneLeft(s');
    DroppedGood(s, s', id);
  }

  // ----- reconcile patches -----

  /** A reconcile patch leaves deliveries where they are. */
  lemma ReconcileActors(s: System, a: Action)
    requires Enabled(s, a) && (a.PatchIntent? || a.PatchAwaiting?)
    ensures forall u :: u in Apply(s, a).actors && u != a.id ==> u in s.actors && Apply(s, a).actors[u] == s.actors[u]
    ensures forall u :: u in s.actors && u != a.id ==> u in Apply(s, a).actors
    ensures a.id in Apply(s, a).actors ==> Apply(s, a).actors[a.id].ParentDue?
    ensures !IsDelivery(s.actors[a.id])
    ensures NonePast(Apply(s, a)) <==> NonePast(s)
  {}

  lemma PatchIntentWrites(s: System, id: Id, n: NewIntent, effect: Effect)
    requires Enabled(s, PatchIntent(id, n, effect)) && !effect.Refused?
    ensures var s' := DoPatchIntent(s, id, n, effect);
      && s'.pm == s.pm && s'.spm.card == s.spm.card && s'.spm.instrumentType == s.spm.instrumentType
      && s'.spm.clientSecret == n.clientSecret && n.clientSecret != ""
      && s'.spm.phase == if s.actors[id].spm.phase.AwaitingConfirmation? then s.spm.phase else AwaitingConfirmation
  {}

  /** What a new SetupIntent does to an outcome already written. */
  lemma IntentShows(s: System, id: Id, n: NewIntent, effect: Effect, p: Payload)
    requires Enabled(s, PatchIntent(id, n, effect)) && !effect.Refused? && Shows(s.spm, p)
    ensures Shows(DoPatchIntent(s, id, n, effect).spm, p) <==> !Overtaken(s, PatchIntent(id, n, effect))
  {
    PatchIntentWrites(s, id, n, effect);
  }

  lemma IntentCoherent(s: System, id: Id, n: NewIntent, effect: Effect)
    requires Enabled(s, PatchIntent(id, n, effect)) && !effect.Refused? && Coherent(s)
    ensures Coherent(DoPatchIntent(s, id, n, effect)) <==> !Overtaken(s, PatchIntent(id, n, effect))
  {
    PatchIntentWrites(s, id, n, effect);
  }

  lemma IntentAgrees(s: System, id: Id, n: NewIntent, effect: Effect)
    requires Good(s) && Enabled(s, PatchIntent(id, n, effect)) && !effect.Refused?
    ensures AgreesAt(DoPatchIntent(s, id, n, effect)) <==> !Overtaken(s, PatchIntent(id, n, effect))
  {
    var s' := DoPatchIntent(s, id, n, effect);
    ReconcileActors(s, PatchIntent(id, n, effect));
    if NonePast(s) {
      IntentCoherent(s, id, n, effect);
    } else {
      var u :| u in s.actors && IsPast(s.actors[u]);
      assert GoodActor(s, s.actors[u]);
      IntentShows(s, id, n, effect, s.actors[u].payload);
      assert u in s'.actors && s'.actors[u] == s.actors[u];
      forall v | v in s'.actors && IsPast(s'.actors[v]) ensures v == u {
        assert IsDelivery(s.actors[u]) && IsDelivery(s.actors[v]);
      }
    }
  }

  lemma IntentGoodActors(s: System, id: Id, n: NewIntent, effect: Effect)
    requires Good(s) && Enabled(s, PatchIntent(id, n, effect)) && !effect.Refused?
    requires !Overtaken(s, PatchIntent(id, n, effect))
    ensures GoodActors(DoPatchIntent(s, id, n, effect))
  {
    var s' := DoPatchIntent(s, id, n, effect);
    ReconcileActors(s, PatchIntent(id, n, effect));
    PatchIntentWrites(s, id, n, effect);
    forall u | u in s'.actors ensures GoodActor(s', s'.actors[u]) {
      if u != id {
        assert GoodActor(s, s.actors[u]);
        if IsPast(s.actors[u]) { IntentShows(s, id, n, effect, s.actors[u].payload); }
      }
    }
  }

  lemma IntentStep(s: System, id: Id, n: NewIntent, effect: Effect)
    requires Good(s) && Enabled(s, PatchIntent(id, n, effect)) && !effect.Refused?
    ensures Decided(s, PatchIntent(id, n, effect))
  {
    OneDeliveryStep(s, PatchIntent(id, n, effect));
    IntentAgrees(s, id, n, effect);
    if !Overtaken(s, PatchIntent(id, n, effect)) { IntentGoodActors(s, id, n, effect); }
  }

  lemma PatchAwaitingWrites(s: System, id: Id, effect: Effect)
    requires Enabled(s, PatchAwaiting(id, effect)) && !Settled(s.actors[id].pm.phase) && !effect.Refused?
    ensures var s' := DoPatchAwaiting(s, id, effect);
      && s'.spm == s.spm && s'.pm.card == s.pm.card && s'.pm.instrumentType == s.pm.instrumentType
      && (IsReady(s'.pm) ==> IsReady(s.pm)) && s'.pm.phase.AwaitingConfirmation?
  {}

  lemma AwaitingStep(s: System, id: Id, effect: Effect)
    requires Good(s) && Enabled(s, PatchAwaiting(id, effect)) && !effect.Refused?
    ensures Decided(s, PatchAwaiting(id, effect))
  {
    var s' := DoPatchAwaiting(s, id, effect);
    assert GoodActor(s, s.actors[id]);
    ReconcileActors(s, PatchAwaiting(id, effect));
    PatchAwaitingWrites(s, id, effect);
    OneDeliveryStep(s, PatchAwaiting(id, effect));
    forall u | u in s'.actors ensures GoodActor(s', s'.actors[u]) {
      assert GoodActor(s, s.actors[u]);
    }
    GoodAgrees(s);
  }

  /** Every action keeps agreement exactly when it is not overtaken. */
  lemma AgreementStep(s: System, a: Action)
    requires Good(s) && Enabled(s, a) && InTurn(s, a)
    ensures Keeps(s, a) <==> !Overtaken(s, a)
    ensures !Overtaken(s, a) ==> Good(Apply(s, a))
  {
    if Quiet(s, a) {
      QuietStep(s, a);
    } else if StopsEarly(s, a) {
      StopStep(s, a);
    } else if a.PatchDelivered? {
      if a.effect.Done? { FirstPatchStep(s, a.id); } else { UnnoticedPatchStep(s, a.id); }
    } else if a.Project? {
      ProjectStepDecided(s, a.id, a.effect);
    } else if a.PatchIntent? {
      IntentStep(s, a.id, a.intent, a.effect);
    } else {
      AwaitingStep(s, a.id, a.effect);
    }
  }

  // ----- whole runs -----

  ghost predicate UntouchedUpTo(states: seq<System>, acts: seq<Action>, i: nat)
    requires Steps(states, acts)
  {
    forall j {:trigger acts[j]} :: 0 <= j < i && j < |acts| ==> !Overtaken(states[j], acts[j])
  }

  lemma {:induction false} GoodUpTo(states: seq<System>, acts: seq<Action>, i: nat)
    requires InTurnRun(states, acts) && i <= |acts| && UntouchedUpTo(states, acts, i)
    ensures Good(states[i]) && AgreesAt(states[i])
    ensures forall j {:trigger acts[j]} :: 0 <= j < i ==> Achieves(states[j], acts[j])
  {
    if i > 0 {
      GoodUpTo(states, acts, i - 1);
      AgreementStep(states[i - 1], acts[i - 1]);
    }
    GoodAgrees(states[i]);
  }

  lemma {:induction false} AgreementUntouched(states: seq<System>, acts: seq<Action>, i: nat)
    requires InTurnRun(states, acts) && i <= |acts| && Agreement(states, acts)
    ensures UntouchedUpTo(states, acts, i)
  {
    if i > 0 {
      AgreementUntouched(states, acts, i - 1);
      GoodUpTo(states, acts, i - 1);
      AgreementStep(states[i - 1], acts[i - 1]);
      assert AgreesAt(states[i]) && Achieves(states[i - 1], acts[i - 1]);
    }
  }

  /**
   * In every run without overlapping deliveries, whichever calls fail and whatever reconcile passes do
   * in between: the objects agree at every point, and every outcome shows where it was written,
   * exactly when no action is overtaken.
   */
  lemma AgreementIff(states: seq<System>, acts: seq<Action>)
    requires InTurnRun(states, acts)
    ensures Agreement(states, acts) <==>
            (forall i {:trigger acts[i]} :: 0 <= i < |acts| ==> !Overtaken(states[i], acts[i]))
  {
    if Agreement(states, acts) {
      AgreementUntouched(states, acts, |acts|);
    }
    if forall i {:trigger acts[i]} :: 0 <= i < |acts| ==> !Overtaken(states[i], acts[i]) {
      GoodUpTo(states, acts, |acts|);
      forall i | 0 <= i <= |acts| ensures AgreesAt(states[i]) { GoodUpTo(states, acts, i); }
    }
  }

  // ----- once broken, broken until the delivery ends -----

  /** Nothing is asked while a delivery has written one object and not the other. */
  ghost predicate AgreementBetween(states: seq<System>, acts: seq<Action>)
    requires Steps(states, acts)
  {
    && (forall i :: 0 <= i <= |acts| && NonePast(states[i]) ==> Coherent(states[i]))
    && (forall i {:trigger acts[i]} :: 0 <= i < |acts| ==> Achieves(states[i], acts[i]))
  }

  /** A delivery is past its first patch, but its outcome is not what the object shows. */
  ghost predicate Spoiled(s: System) {
    exists id :: id in s.actors && IsPast(s.actors[id]) && !Shows(s.spm, s.actors[id].payload)
  }

  lemma SpoiledStays(s: System, a: Action)
    requires Spoiled(s) && OneDelivery(s) && Enabled(s, a) && InTurn(s, a) && !Ends(s, a)
    ensures Spoiled(Apply(s, a))
  {
    var id :| id in s.actors && IsPast(s.actors[id]) && !Shows(s.spm, s.actors[id].payload);
    var s' := Apply(s, a);
    assert IsDelivery(s.actors[id]);
    if a.PatchIntent? && !a.effect.Refused? { PatchIntentWrites(s, a.id, a.intent, a.effect); }
    assert id in s'.actors && IsPast(s'.actors[id]) && !Shows(s'.spm, s'.actors[id].payload);
  }

  lemma SpoiledShows(s: System, a: Action)
    requires Spoiled(s) && OneDelivery(s) && Enabled(s, a) && Ends(s, a)
    ensures !(Coherent(Apply(s, a)) && Achieves(s, a))
  {
    var id :| id in s.actors && IsPast(s.actors[id]) && !Shows(s.spm, s.actors[id].payload);
    assert IsDelivery(s.actors[id]) && IsDelivery(s.actors[a.id]);
  }

  lemma {:induction false} OneDeliveryAlong(states: seq<System>, acts: seq<Action>, i: nat)
    requires InTurnRun(states, acts) && i <= |acts|
    ensures OneDelivery(states[i])
  {
    if i > 0 {
      OneDeliveryAlong(states, acts, i - 1);
      OneDeliveryStep(states[i - 1], acts[i - 1]);
    }
  }

  lemma SpoiledIsPast(s: System)
    requires Spoiled(s)
    ensures !NonePast(s)
  {}

  /** A spoiled delivery breaks agreement when it ends, whatever comes before. */
  lemma {:induction false} SpoiledBreaks(states: seq<System>, acts: seq<Action>, i: nat)
    requires InTurnRun(states, acts) && NonePast(states[|acts|]) && i <= |acts| && Spoiled(states[i])
    ensures !AgreementBetween(states, acts)
    decreases |acts| - i
  {
    SpoiledIsPast(states[i]);
    if i < |acts| {
      OneDeliveryAlong(states, acts, i);
      if Ends(states[i], acts[i]) {
        SpoiledShows(states[i], acts[i]);
        OneDeliveryStep(states[i], acts[i]);
        NoneLeft(states[i + 1]);
      } else {
        SpoiledStays(states[i], acts[i]);
        SpoiledBreaks(states, acts, i + 1);
      }
    }
  }

  /** What an overtaken action breaks shows at once, or when the delivery it spoiled ends. */
  lemma OvertakenBreaks(states: seq<System>, acts: seq<Action>, i: nat)
    requires InTurnRun(states, acts) && NonePast(states[|acts|]) && i < |acts| && Good(states[i])
    requires Enabled(states[i], acts[i]) && Overtaken(states[i], acts[i])
    ensures !AgreementBetween(states, acts)
  {
    AgreementStep(states[i], acts[i]);
    if Achieves(states[i], acts[i]) && (NonePast(states[i + 1]) ==> Coherent(states[i + 1])) {
      assert Spoiled(states[i + 1]);
      SpoiledBreaks(states, acts, i + 1);
    }
  }

  lemma BetweenNext(states: seq<System>, acts: seq<Action>, i: nat)
    requires InTurnRun(states, acts) && NonePast(states[|acts|]) && i < |acts| && Good(states[i])
    requires AgreementBetween(states, acts)
    ensures Enabled(states[i], acts[i]) && !Overtaken(states[i], acts[i])
  {
    if Overtaken(states[i], acts[i]) { OvertakenBreaks(states, acts, i); }
  }

  lemma {:induction false} BetweenUntouched(states: seq<System>, acts: seq<Action>, i: nat)
    requires InTurnRun(states, acts) && NonePast(states[|acts|]) && i <= |acts| && AgreementBetween(states, acts)
    ensures UntouchedUpTo(states, acts, i)
  {
    if i > 0 {
      BetweenUntouched(states, acts, i - 1);
      GoodUpTo(states, acts, i - 1);
      BetweenNext(states, acts, i - 1);
    }
  }

  /**
   * The same when nothing is asked of a delivery under way, for runs that do not stop in the middle of
   * one: what is overtaken cannot be put right.
   */
  lemma AgreementBetweenIff(states: seq<System>, acts: seq<Action>)
    requires InTurnRun(states, acts) && NonePast(states[|acts|])
    ensures AgreementBetween(states, acts) <==>
            (forall i {:trigger acts[i]} :: 0 <= i < |acts| ==> !Overtaken(states[i], acts[i]))
  {
    if AgreementBetween(states, acts) {
      BetweenUntouched(states, acts, |acts|);
    }
    if forall i {:trigger acts[i]} :: 0 <= i < |acts| ==> !Overtaken(states[i], acts[i]) {
      AgreementIff(states, acts);
      forall i | 0 <= i <= |acts| && NonePast(states[i]) ensures Coherent(states[i]) {
        assert AgreesAt(states[i]);
      }
    }
  }

  // ----- deliveries that nothing interrupts -----

  function DeliveryActions(id: Id, p: Payload): seq<Action> {
    [Deliver(id, p), PatchDelivered(id, Done), ReadForProjection(id), Project(id, Done)]
  }

  /** The four actions of a delivery, one after the other, from the state each leaves. */
  function AfterDelivery(s: System, id: Id, p: Payload): System
    requires id !in s.actors
  {
    var s1 := Apply(s, Deliver(id, p));
    var s2 := Apply(s1, PatchDelivered(id, Done));
    var s3 := Apply(s2, ReadForProjection(id));
    Apply(s3, Project(id, Done))
  }

  lemma DeliveryIsRun(s: System, id: Id, p: Payload) returns (states: seq<System>)
    requires id !in s.actors
    ensures Steps(states, DeliveryActions(id, p)) && states[0] == s && states[4] == AfterDelivery(s, id, p)
  {
    var s1 := Apply(s, Deliver(id, p));
    var s2 := Apply(s1, PatchDelivered(id, Done));
    var s3 := Apply(s2, ReadForProjection(id));
    var s4 := Apply(s3, Project(id, Done));
    FourSteps(s, Deliver(id, p), PatchDelivered(id, Done), ReadForProjection(id), Project(id, Done), s1, s2, s3, s4);
    states := [s, s1, s2, s3, s4];
  }

  lemma DeliveryWrites(s: System, id: Id, p: Payload)
    requires id !in s.actors
    ensures var s' := AfterDelivery(s, id, p);
      && s'.spm == DeliveredSpm(s.spm, p) && s'.pm == DeliveredPm(s.pm, p) && s'.actors == s.actors
      && s'.log == s.log + Recorded(s.pm.phase, p, Done)
  {
    MergeFromCurrent(s.spm, DeliveredSpm(s.spm, p), s.pm, DeliveredPm(s.pm, p));
  }

  /**
   * An uninterrupted delivery repairs whatever came before it: from any state it ends in agreement,
   * unless it brings no card and the cards already differed.
   */
  lemma DeliveryCoherentIff(s: System, id: Id, p: Payload)
    requires id !in s.actors
    ensures Coherent(AfterDelivery(s, id, p)) <==>
            (p.Succeeded? && p.details.instrumentType == "card") || CardsAgree(s)
  {
    DeliveryWrites(s, id, p);
  }

  /** A delivery that ends after its first patch leaves agreement exactly when it had nothing new to say. */
  lemma HalfDeliveredIff(s: System, id: Id, p: Payload)
    requires id !in s.actors && Coherent(s)
    ensures Coherent(Apply(Apply(Apply(s, Deliver(id, p)), PatchDelivered(id, Done)), GiveUp(id))) <==>
            s.spm.phase == Target(p) &&
            (p.Succeeded? && p.details.instrumentType == "card" ==>
               s.spm.instrumentType == "card" && s.spm.card == p.details.card)
  {
    MergeFromCurrent(s.spm, DeliveredSpm(s.spm, p), s.pm, s.pm);
  }

  // ----- runs that break agreement -----

  lemma OneStep(s: System, a: Action)
    requires Enabled(s, a)
    ensures Steps([s, Apply(s, a)], [a])
  {}

  /** A pass that finds the SetupIntent expired, and the confirmation that gets there first. */
  lemma ConfirmedMeanwhile(s: System, r: Id, now: int, c: Id, p: Payload) returns (states: seq<System>)
    requires Coherent(s) && s.actors == map[] && r != c && p.Succeeded?
    requires s.spm.phase.AwaitingConfirmation? && Expired(s.spm, now)
    ensures Steps(states, [ReconcileRead(r, now)] + DeliveryActions(c, p)) && states[0] == s
    ensures Coherent(states[5]) && states[5].spm.phase.Active? && states[5].actors == map[r := NeedsIntent(s.spm)]
  {
    var s1 := Apply(s, ReconcileRead(r, now));
    assert s1.actors == map[r := NeedsIntent(s.spm)] && s1.spm == s.spm && s1.pm == s.pm;
    OneStep(s, ReconcileRead(r, now));
    var delivery := DeliveryIsRun(s1, c, p);
    DeliveryWrites(s1, c, p);
    StepsConcat([s, s1], [ReconcileRead(r, now)], delivery, DeliveryActions(c, p));
    states := [s, s1] + delivery[1..];
    assert states[5] == delivery[4];
  }

  /**
   * A pass that finds the SetupIntent expired, and is overtaken by its confirmation, gives an Active
   * StripePaymentMethod a client secret again.
   */
  lemma ExpiredIntentOvertaken(s: System, r: Id, now: int, d: Id, p: Payload, n: NewIntent)
    returns (states: seq<System>)
    requires Coherent(s) && s.actors == map[] && r != d && p.Succeeded?
    requires s.spm.phase.AwaitingConfirmation? && Expired(s.spm, now)
    requires n.clientSecret != "" && n.clientSecret != s.spm.clientSecret
    ensures Steps(states, [ReconcileRead(r, now)] + DeliveryActions(d, p) + [PatchIntent(r, n, Done)])
    ensures states[0] == s && NoDelivery(states[6])
    ensures states[6].spm.phase.Active? && states[6].spm.clientSecret == n.clientSecret && !Coherent(states[6])
  {
    var first := ConfirmedMeanwhile(s, r, now, d, p);
    var s5 := first[5];
    OneStep(s5, PatchIntent(r, n, Done));
    var s6 := Apply(s5, PatchIntent(r, n, Done));
    StepsConcat(first, [ReconcileRead(r, now)] + DeliveryActions(d, p), [s5, s6], [PatchIntent(r, n, Done)]);
    states := first + [s5, s6][1..];
    assert states[6] == s6;
  }

  /** A rejection whose first patch is refused, around a pass that holds its copy of an expired intent. */
  function RefusedRejection(r: Id, d: Id, q: Payload, n: NewIntent): seq<Action> {
    [Deliver(d, q), PatchIntent(r, n, Done), PatchDelivered(d, Refused), ReadParent(r)]
  }

  /** The pass writes its new secret on an object confirmed meanwhile. */
  lemma SecretOnActive(s: System, r: Id, d: Id, q: Payload, n: NewIntent) returns (states: seq<System>)
    requires s.spm.phase.Active? && r != d && s.actors.Keys == {r} && s.actors[r].NeedsIntent?
    requires s.actors[r].spm.phase.AwaitingConfirmation?
    requires n.clientSecret != "" && n.clientSecret != s.actors[r].spm.clientSecret
    ensures Steps(states, [Deliver(d, q), PatchIntent(r, n, Done)]) && states[0] == s && states[2].pm == s.pm
    ensures states[2].actors == map[r := ParentDue, d := Delivering(q, s.spm)]
    ensures states[2].spm.phase.Active? && states[2].spm.clientSecret == n.clientSecret
  {
    var s1 := Apply(s, Deliver(d, q));
    assert s1.actors == s.actors[d := Delivering(q, s.spm)] && s1.spm == s.spm && s1.pm == s.pm;
    PatchIntentWrites(s1, r, n, Done);
    var s2 := Apply(s1, PatchIntent(r, n, Done));
    states := [s, s1, s2];
    var acts := [Deliver(d, q), PatchIntent(r, n, Done)];
    assert acts[0] == Deliver(d, q) && acts[1] == PatchIntent(r, n, Done);
  }

  lemma BothEnd(s: System, r: Id, d: Id, q: Payload, copy: SpmStatus) returns (states: seq<System>)
    requires s.actors == map[r := ParentDue, d := Delivering(q, copy)] && r != d && s.pm.phase.Active?
    ensures Steps(states, [PatchDelivered(d, Refused), ReadParent(r)]) && states[0] == s
    ensures states[2].spm == s.spm && states[2].actors == map[]
  {
    var s1 := Apply(s, PatchDelivered(d, Refused));
    assert s1.actors == map[r := ParentDue] && s1.spm == s.spm && s1.pm == s.pm;
    var s2 := Apply(s1, ReadParent(r));
    states := [s, s1, s2];
    var acts := [PatchDelivered(d, Refused), ReadParent(r)];
    assert acts[0] == PatchDelivered(d, Refused) && acts[1] == ReadParent(r);
  }

  lemma RejectionRefused(s: System, r: Id, d: Id, q: Payload, n: NewIntent) returns (states: seq<System>)
    requires Coherent(s) && s.spm.phase.Active? && r != d && s.actors.Keys == {r} && s.actors[r].NeedsIntent?
    requires s.actors[r].spm.phase.AwaitingConfirmation?
    requires n.clientSecret != "" && n.clientSecret != s.actors[r].spm.clientSecret
    ensures Steps(states, RefusedRejection(r, d, q, n)) && states[0] == s && states[4].actors == map[]
    ensures states[4].spm.phase.Active? && states[4].spm.clientSecret == n.clientSecret
  {
    var first := SecretOnActive(s, r, d, q, n);
    var second := BothEnd(first[2], r, d, q, s.spm);
    var acts, rest := [Deliver(d, q), PatchIntent(r, n, Done)], [PatchDelivered(d, Refused), ReadParent(r)];
    StepsConcat(first, acts, second, rest);
    assert acts + rest == RefusedRejection(r, d, q, n);
    states := first + second[1..];
    assert states[4] == second[2];
  }

  /**
   * A later delivery that fails before it writes anything does not excuse the pass: the object stays
   * Active, with a client secret again.
   */
  lemma RefusedRejectionOvertaken(s: System, r: Id, now: int, c: Id, p: Payload, d: Id, q: Payload, n: NewIntent)
    returns (states: seq<System>)
    requires Coherent(s) && s.actors == map[] && r != c && r != d && p.Succeeded?
    requires s.spm.phase.AwaitingConfirmation? && Expired(s.spm, now)
    requires n.clientSecret != "" && n.clientSecret != s.spm.clientSecret
    ensures Steps(states, [ReconcileRead(r, now)] + DeliveryActions(c, p) + RefusedRejection(r, d, q, n))
    ensures states[0] == s && states[9].actors == map[] && states[9].spm.phase.Active?
    ensures states[9].spm.clientSecret == n.clientSecret && !Coherent(states[9])
  {
    var first := ConfirmedMeanwhile(s, r, now, c, p);
    var second := RejectionRefused(first[5], r, d, q, n);
    StepsConcat(first, [ReconcileRead(r, now)] + DeliveryActions(c, p), second, RefusedRejection(r, d, q, n));
    states := first + second[1..];
    assert states[9] == second[4];
  }

  /** The first SetupIntent is recorded between a delivery's read and its patch. */
  function LateIntent(r: Id, now: int, d: Id, p: Payload, n: NewIntent): seq<Action> {
    [ReconcileRead(r, now), Deliver(d, p), PatchIntent(r, n, Done), PatchDelivered(d, Done)]
  }

  /** The delivery's copy had no secret to clear, so the one just written stays. */
  lemma SecretWritten(s: System, r: Id, now: int, d: Id, p: Payload, n: NewIntent) returns (states: seq<System>)
    requires s.actors == map[] && r != d && !Settled(s.spm.phase)
    requires s.spm.clientSecret == "" && n.clientSecret != ""
    ensures Steps(states, LateIntent(r, now, d, p, n)[..3]) && states[0] == s
    ensures states[3].spm.clientSecret == n.clientSecret && states[3].pm == s.pm
    ensures states[3].actors == map[r := ParentDue, d := Delivering(p, s.spm)]
  {
    var s1 := Apply(s, ReconcileRead(r, now));
    var s2 := Apply(s1, Deliver(d, p));
    assert s2.actors == map[r := NeedsIntent(s.spm), d := Delivering(p, s.spm)] && s2.spm == s.spm;
    var s3 := Apply(s2, PatchIntent(r, n, Done));
    states := [s, s1, s2, s3];
    var acts := LateIntent(r, now, d, p, n)[..3];
    assert acts[0] == ReconcileRead(r, now) && acts[1] == Deliver(d, p) && acts[2] == PatchIntent(r, n, Done);
  }

  /** The delivery's copy had no secret to clear, so the one just written stays. */
  lemma SecretLands(s: System, r: Id, now: int, d: Id, p: Payload, n: NewIntent) returns (states: seq<System>)
    requires s.actors == map[] && r != d && p.Succeeded? && !Settled(s.spm.phase)
    requires s.spm.clientSecret == "" && n.clientSecret != ""
    ensures Steps(states, LateIntent(r, now, d, p, n)) && states[0] == s
    ensures states[4].spm.phase.Active? && states[4].spm.clientSecret == n.clientSecret
    ensures states[4].actors == map[r := ParentDue, d := ProjectionDue(p)] && states[4].pm == s.pm
  {
    var written := SecretWritten(s, r, now, d, p, n);
    var s3 := written[3];
    OneStep(s3, PatchDelivered(d, Done));
    var s4 := Apply(s3, PatchDelivered(d, Done));
    StepsConcat(written, LateIntent(r, now, d, p, n)[..3], [s3, s4], [PatchDelivered(d, Done)]);
    assert LateIntent(r, now, d, p, n)[..3] + [PatchDelivered(d, Done)] == LateIntent(r, now, d, p, n);
    states := written + [s3, s4][1..];
    assert states[4] == s4;
  }

  function Projection(r: Id, d: Id): seq<Action> {
    [ReadForProjection(d), Project(d, Done), ReadParent(r)]
  }

  lemma ProjectsAlone(s: System, id: Id, p: Payload) returns (states: seq<System>)
    requires id in s.actors && s.actors[id] == ProjectionDue(p)
    ensures Steps(states, [ReadForProjection(id), Project(id, Done)]) && states[0] == s
    ensures states[2].spm == s.spm && states[2].pm.phase == Target(p) && states[2].actors == s.actors - {id}
  {
    var s1 := Apply(s, ReadForProjection(id));
    assert s1.actors[id] == Projecting(p, s.pm) && s1.spm == s.spm && s1.pm == s.pm;
    var s2 := Apply(s1, Project(id, Done));
    states := [s, s1, s2];
    var acts := [ReadForProjection(id), Project(id, Done)];
    assert acts[0] == ReadForProjection(id) && acts[1] == Project(id, Done);
  }

  lemma ProjectionEnds(s: System, r: Id, d: Id, p: Payload) returns (states: seq<System>)
    requires s.actors == map[r := ParentDue, d := ProjectionDue(p)] && r != d && p.Succeeded?
    ensures Steps(states, Projection(r, d)) && states[0] == s && states[3].actors == map[] && states[3].spm == s.spm
  {
    var projects := ProjectsAlone(s, d, p);
    var s2 := projects[2];
    assert s2.actors == map[r := ParentDue];
    OneStep(s2, ReadParent(r));
    var s3 := Apply(s2, ReadParent(r));
    StepsConcat(projects, [ReadForProjection(d), Project(d, Done)], [s2, s3], [ReadParent(r)]);
    assert [ReadForProjection(d), Project(d, Done)] + [ReadParent(r)] == Projection(r, d);
    states := projects + [s2, s3][1..];
    assert states[3] == s3;
  }

  /**
   * A confirmation that was read before the pass recorded its SetupIntent, and patched after, leaves
   * an Active StripePaymentMethod with a client secret. Deliveries do not overlap here, and no patch
   * of the pass lands on a settled object.
   */
  lemma LateIntentOvertaken(s: System, r: Id, now: int, d: Id, p: Payload, n: NewIntent)
    returns (states: seq<System>)
    requires Coherent(s) && s.actors == map[] && r != d && p.Succeeded? && !Settled(s.spm.phase)
    requires s.spm.clientSecret == "" && n.clientSecret != ""
    ensures Steps(states, LateIntent(r, now, d, p, n) + Projection(r, d)) && states[0] == s
    ensures states[7].actors == map[] && states[7].spm.phase.Active?
    ensures states[7].spm.clientSecret == n.clientSecret && !Coherent(states[7])
  {
    var first := SecretLands(s, r, now, d, p, n);
    var second := ProjectionEnds(first[4], r, d, p);
    StepsConcat(first, LateIntent(r, now, d, p, n), second, Projection(r, d));
    states := first + second[1..];
    assert states[7] == second[3];
  }

  /** A rejection delivered while a success is under way. */
  function Crossing(a: Id, p: Payload, b: Id, q: Payload): seq<Action> {
    [Deliver(a, p), PatchDelivered(a, Done), Deliver(b, q), PatchDelivered(b, Done)]
  }

  function CrossedProjections(a: Id, b: Id): seq<Action> {
    [ReadForProjection(b), Project(b, Done), ReadForProjection(a), Project(a, Done)]
  }

  lemma PatchesAlone(s: System, id: Id, p: Payload) returns (states: seq<System>)
    requires id !in s.actors
    ensures Steps(states, [Deliver(id, p), PatchDelivered(id, Done)]) && states[0] == s
    ensures states[2].spm.phase == Target(p) && states[2].pm == s.pm
    ensures states[2].actors == s.actors[id := ProjectionDue(p)]
  {
    var s1 := Apply(s, Deliver(id, p));
    assert s1.actors == s.actors[id := Delivering(p, s.spm)] && s1.spm == s.spm;
    var s2 := Apply(s1, PatchDelivered(id, Done));
    states := [s, s1, s2];
    var acts := [Deliver(id, p), PatchDelivered(id, Done)];
    assert acts[0] == Deliver(id, p) && acts[1] == PatchDelivered(id, Done);
  }

  lemma CrossingPatches(s: System, a: Id, p: Payload, b: Id, q: Payload) returns (states: seq<System>)
    requires s.actors == map[] && a != b
    ensures Steps(states, Crossing(a, p, b, q)) && states[0] == s && states[4].spm.phase == Target(q)
    ensures states[4].actors == map[a := ProjectionDue(p), b := ProjectionDue(q)]
  {
    var first := PatchesAlone(s, a, p);
    var second := PatchesAlone(first[2], b, q);
    var acts, rest := [Deliver(a, p), PatchDelivered(a, Done)], [Deliver(b, q), PatchDelivered(b, Done)];
    StepsConcat(first, acts, second, rest);
    assert acts + rest == Crossing(a, p, b, q);
    states := first + second[1..];
    assert states[4] == second[2];
  }

  lemma CrossingProjects(s: System, a: Id, p: Payload, b: Id, q: Payload) returns (states: seq<System>)
    requires s.actors == map[a := ProjectionDue(p), b := ProjectionDue(q)] && a != b
    ensures Steps(states, CrossedProjections(a, b)) && states[0] == s && states[4].pm.phase == Target(p)
    ensures states[4].spm == s.spm && states[4].actors == map[]
  {
    var first := ProjectsAlone(s, b, q);
    var second := ProjectsAlone(first[2], a, p);
    var acts, rest := [ReadForProjection(b), Project(b, Done)], [ReadForProjection(a), Project(a, Done)];
    StepsConcat(first, acts, second, rest);
    assert acts + rest == CrossedProjections(a, b);
    states := first + second[1..];
    assert states[4] == second[2];
  }

  /** Why deliveries must come in turn: two that cross leave the objects in different phases. */
  lemma CrossingDisagrees(s: System, a: Id, p: Payload, b: Id, q: Payload) returns (states: seq<System>)
    requires s.actors == map[] && a != b && Target(p) != Target(q)
    ensures Steps(states, Crossing(a, p, b, q) + CrossedProjections(a, b)) && states[0] == s
    ensures states[8].actors == map[] && states[8].spm.phase == Target(q) && states[8].pm.phase == Target(p)
    ensures !Coherent(states[8])
  {
    var first := CrossingPatches(s, a, p, b, q);
    var second := CrossingProjects(first[4], a, p, b, q);
    StepsConcat(first, Crossing(a, p, b, q), second, CrossedProjections(a, b));
    states := first + second[1..];
    assert states[8] == second[4];
  }
}
