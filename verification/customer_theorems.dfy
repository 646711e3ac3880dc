/**
 * What holds over every run of any number of Ensure passes: how many customers an account can
 * get, that a published ID is permanent, and that the lock excludes without ever wedging.
 */
module CustomerTheorems {
  import opened Wrappers
  import opened KeyLocks
  import opened CustomerProtocol
  import opened Remote
  import opened CustomerInvariants

  // ----- one customer per account -----

  datatype Kind = Mint | Orphan | Loss

  /** Customers created for uid, creations whose ID was not published, deletions of a published object. */
  predicate Counts(kind: Kind, uid: string, e: Event) {
    match kind
    case Mint => e.Minted? && e.uid == uid
    case Orphan => e.Orphaned? && e.uid == uid
    case Loss => e.Deleted? && e.owner == Some(uid) && e.id != ""
  }

  function Tally(log: seq<Event>, kind: Kind, uid: string): nat {
    if log == [] then 0 else
    Tally(log[..|log| - 1], kind, uid) + (if Counts(kind, uid, log[|log| - 1]) then 1 else 0)
  }

  lemma TallySnoc(log: seq<Event>, e: Event, kind: Kind, uid: string)
    ensures Tally(log + [e], kind, uid) == Tally(log, kind, uid) + (if Counts(kind, uid, e) then 1 else 0)
  {
    assert (log + [e])[..|log + [e]| - 1] == log;
  }

  lemma LogEvent(log: seq<Event>, e: Event, uid: string)
    ensures Tally(log + [e], Mint, uid) == Tally(log, Mint, uid) + (if Counts(Mint, uid, e) then 1 else 0)
    ensures Tally(log + [e], Orphan, uid) == Tally(log, Orphan, uid) + (if Counts(Orphan, uid, e) then 1 else 0)
    ensures Tally(log + [e], Loss, uid) == Tally(log, Loss, uid) + (if Counts(Loss, uid, e) then 1 else 0)
  {
    TallySnoc(log, e, Mint, uid);
    TallySnoc(log, e, Orphan, uid);
    TallySnoc(log, e, Loss, uid);
  }

  ghost predicate PublishedFor(s: State, uid: string) {
    uid in s.registry && s.registry[uid] in s.objects &&
    s.objects[s.registry[uid]].owner == Some(uid) && s.objects[s.registry[uid]].status.id != ""
  }

  ghost predicate InFlight(s: State, uid: string) {
    exists t :: t in s.passes && s.passes[t].minted && s.passes[t].account.uid == uid
  }

  /** The one customer an account may hold without a failure: published, or on its way. */
  ghost predicate Taken(s: State, uid: string) {
    PublishedFor(s, uid) || InFlight(s, uid)
  }

  ghost predicate Bounded(s: State, uid: string) {
    Tally(s.log, Mint, uid) <=
      Tally(s.log, Orphan, uid) + Tally(s.log, Loss, uid) + (if Taken(s, uid) then 1 else 0)
  }

  /** A pass about to create for uid is the only claim on uid's slot. */
  lemma SlotFree(s: State, t: Tid, id: CusId, effect: Effect)
    requires CoreInv(s) && Enabled(s, Create(t, id, effect))
    ensures !Taken(s, s.passes[t].account.uid)
  {
    var p := s.passes[t];
    assert PassInv(s, p);
    forall u | u in s.passes && s.passes[u].minted && s.passes[u].account.uid == p.account.uid ensures false {
      assert PassInv(s, s.passes[u]);
      if u != t { OneHolder(s, t, u); }
    }
  }

  lemma CreationTally(log: seq<Event>, own: string, id: CusId, effect: Effect, uid: string)
    ensures var log' := log + Creation(own, id, effect);
      && Tally(log', Mint, uid) == Tally(log, Mint, uid) + (if !effect.Refused? && own == uid then 1 else 0)
      && Tally(log', Orphan, uid) == Tally(log, Orphan, uid) + (if effect.Unacknowledged? && own == uid then 1 else 0)
      && Tally(log', Loss, uid) == Tally(log, Loss, uid)
  {
    match effect
    case Refused => assert log + [] == log;
    case Done => LogEvent(log, Minted(own, id), uid);
    case Unacknowledged =>
      LogEvent(log, Minted(own, id), uid);
      LogEvent(log + [Minted(own, id)], Orphaned(own, id), uid);
      assert log + [Minted(own, id)] + [Orphaned(own, id)] == log + [Minted(own, id), Orphaned(own, id)];
  }

  /** What a creation leaves: the pass holds its customer only when the call was acknowledged. */
  ghost predicate Creates(s: State, s': State, t: Tid, effect: Effect) {
    && t in s.passes && t in s'.passes && s'.registry == s.registry && s'.objects == s.objects
    && (forall u :: u in s.passes && u != t ==> u in s'.passes && s'.passes[u] == s.passes[u])
    && s'.passes[t].account == s.passes[t].account && (s'.passes[t].minted <==> s.passes[t].minted || effect.Done?)
  }

  lemma CreateCreates(s: State, t: Tid, id: CusId, effect: Effect)
    requires Enabled(s, Create(t, id, effect))
    ensures Creates(s, DoCreate(s, t, id, effect), t, effect)
    ensures DoCreate(s, t, id, effect).log == s.log + Creation(s.passes[t].account.uid, id, effect)
  {}

  lemma CreateBounded(s: State, t: Tid, id: CusId, effect: Effect, uid: string)
    requires CoreInv(s) && Enabled(s, Create(t, id, effect)) && Bounded(s, uid)
    ensures Bounded(DoCreate(s, t, id, effect), uid)
  {
    CreateCreates(s, t, id, effect);
    SlotFree(s, t, id, effect);
    CreationTally(s.log, s.passes[t].account.uid, id, effect, uid);
    CreatesTaken(s, DoCreate(s, t, id, effect), t, effect, uid);
  }

  lemma CreatesTaken(s: State, s': State, t: Tid, effect: Effect, uid: string)
    requires Creates(s, s', t, effect)
    ensures Taken(s, uid) ==> Taken(s', uid)
    ensures effect.Done? && s.passes[t].account.uid == uid ==> Taken(s', uid)
  {
    KeepsTaken(s, s', t, uid);
  }

  /** A step that disturbs no published object and clears no minted pass keeps the slot taken. */
  lemma KeepsTaken(s: State, s': State, t: Tid, uid: string)
    requires s'.registry == s.registry
    requires PublishedFor(s, uid) ==> PublishedFor(s', uid)
    requires forall u :: u in s.passes && s.passes[u].minted && u != t ==> u in s'.passes && s'.passes[u] == s.passes[u]
    requires t in s.passes && s.passes[t].minted ==>
               t in s'.passes && s'.passes[t].minted && s'.passes[t].account == s.passes[t].account
    ensures Taken(s, uid) ==> Taken(s', uid)
  {
    if InFlight(s, uid) {
      var u :| u in s.passes && s.passes[u].minted && s.passes[u].account.uid == uid;
      assert u in s'.passes && s'.passes[u].minted && s'.passes[u].account.uid == uid;
    }
  }

  /** As KeepsTaken, but pass t may give up its minted claim when its account is then published or is another. */
  lemma HandsOverTaken(s: State, s': State, t: Tid, uid: string)
    requires s'.registry == s.registry && t in s.passes
    requires PublishedFor(s, uid) ==> PublishedFor(s', uid)
    requires forall u :: u in s.passes && s.passes[u].minted && u != t ==> u in s'.passes && s'.passes[u] == s.passes[u]
    requires s.passes[t].minted && s.passes[t].account.uid == uid ==> PublishedFor(s', uid)
    ensures Taken(s, uid) ==> Taken(s', uid)
  {
    if InFlight(s, uid) {
      var u :| u in s.passes && s.passes[u].minted && s.passes[u].account.uid == uid;
      if u != t { assert u in s'.passes && s'.passes[u].minted && s'.passes[u].account.uid == uid; }
    }
  }

  /** A landed patch leaves every published account published, and publishes what the pass created. */
  lemma LandedPublishes(s: State, s': State, p: Pass, uid: string)
    requires PassInv(s, p) && p.pc == Publishing && Landed(s, s', p) && s'.registry == s.registry
    requires p.account.key in s.objects
    ensures PublishedFor(s, uid) ==> PublishedFor(s', uid)
    ensures p.minted ==> PublishedFor(s', p.account.uid)
  {}

  lemma LandedBounded(s: State, s': State, t: Tid, uid: string)
    requires t in s.passes && PassInv(s, s.passes[t]) && s.passes[t].pc == Publishing
    requires s.passes[t].account.key in s.objects
    requires Landed(s, s', s.passes[t]) && HolderMoves(s, s', t) && Bounded(s, uid)
    ensures Bounded(s', uid)
  {
    var p := s.passes[t];
    LandedPublishes(s, s', p, uid);
    LogEvent(s.log, Published(p.account.uid, p.obj, SyncedStatus(p).id), uid);
    HandsOverTaken(s, s', t, uid);
  }

  lemma LandBounded(s: State, t: Tid, effect: Effect, uid: string)
    requires CoreInv(s) && Enabled(s, Publish(t, effect)) && Bounded(s, uid) && Lands(s.passes[t], effect)
    ensures Bounded(DoPublish(s, t, effect), uid)
  {
    assert PassInv(s, s.passes[t]);
    PatchLands(s, t, effect);
    PublishMoves(s, t, effect);
    LandedBounded(s, DoPublish(s, t, effect), t, uid);
  }

  /** One more event, or none. */
  lemma EventsTally(log: seq<Event>, events: seq<Event>, kind: Kind, uid: string)
    requires |events| <= 1
    ensures Tally(log + events, kind, uid) ==
            Tally(log, kind, uid) + (if events != [] && Counts(kind, uid, events[0]) then 1 else 0)
  {
    if events == [] {
      assert log + events == log;
    } else {
      assert events == [events[0]];
      TallySnoc(log, events[0], kind, uid);
    }
  }

  lemma MissedBounded(s: State, s': State, t: Tid, uid: string)
    requires t in s.passes && HolderMoves(s, s', t) && s'.objects == s.objects && Bounded(s, uid)
    requires s'.log == s.log + AbandonEvents(s.passes[t])
    ensures Bounded(s', uid)
  {
    var events := AbandonEvents(s.passes[t]);
    EventsTally(s.log, events, Mint, uid);
    EventsTally(s.log, events, Orphan, uid);
    EventsTally(s.log, events, Loss, uid);
    if !(s.passes[t].minted && s.passes[t].account.uid == uid) { HandsOverTaken(s, s', t, uid); }
  }

  lemma MissBounded(s: State, t: Tid, effect: Effect, uid: string)
    requires CoreInv(s) && Enabled(s, Publish(t, effect)) && Bounded(s, uid) && !Lands(s.passes[t], effect)
    ensures Bounded(DoPublish(s, t, effect), uid)
  {
    PublishMoves(s, t, effect);
    PatchMisses(s, t, effect);
    MissedBounded(s, DoPublish(s, t, effect), t, uid);
  }

  lemma PublishBounded(s: State, t: Tid, effect: Effect, uid: string)
    requires CoreInv(s) && Enabled(s, Publish(t, effect)) && Bounded(s, uid)
    ensures Bounded(DoPublish(s, t, effect), uid)
  {
    if Lands(s.passes[t], effect) { LandBounded(s, t, effect, uid); } else { MissBounded(s, t, effect, uid); }
  }

  /** A pass ends; if it had created a customer, that creation is now an orphan. */
  lemma LeavesBounded(s: State, s': State, t: Tid, uid: string)
    requires t in s.passes && s'.passes == s.passes - {t} && s'.registry == s.registry && s'.objects == s.objects
    requires Bounded(s, uid)
    requires Tally(s'.log, Mint, uid) == Tally(s.log, Mint, uid) && Tally(s'.log, Loss, uid) == Tally(s.log, Loss, uid)
    requires Tally(s'.log, Orphan, uid) == Tally(s.log, Orphan, uid) +
               (if s.passes[t].minted && s.passes[t].account.uid == uid then 1 else 0)
    ensures Bounded(s', uid)
  {
    if !(s.passes[t].minted && s.passes[t].account.uid == uid) { HandsOverTaken(s, s', t, uid); }
  }

  lemma LeftBounded(s: State, s': State, t: Tid, events: seq<Event>, uid: string)
    requires Left(s, s', t) && Bounded(s, uid) && s'.log == s.log + events && |events| <= 1
    requires events != [] ==> events[0].Returned? || events[0].Orphaned?
    requires s.passes[t].minted ==> events == [Orphaned(s.passes[t].account.uid, s.passes[t].target)]
    requires !s.passes[t].minted && events != [] ==> events[0].Returned?
    ensures Bounded(s', uid)
  {
    EventsTally(s.log, events, Mint, uid);
    EventsTally(s.log, events, Orphan, uid);
    EventsTally(s.log, events, Loss, uid);
    LeavesBounded(s, s', t, uid);
  }

  lemma ReturnBounded(s: State, t: Tid, uid: string)
    requires CoreInv(s) && Enabled(s, Return(t)) && Bounded(s, uid)
    ensures Bounded(DoReturn(s, t), uid)
  {
    assert PassInv(s, s.passes[t]);
    ReturnLeaves(s, t);
    LeftBounded(s, DoReturn(s, t), t, ReturnEvents(s.passes[t]), uid);
  }

  lemma AbandonBounded(s: State, t: Tid, uid: string)
    requires Enabled(s, Abandon(t)) && Bounded(s, uid)
    ensures Bounded(DoAbandon(s, t), uid)
  {
    AbandonLeaves(s, t);
    LeftBounded(s, DoAbandon(s, t), t, AbandonEvents(s.passes[t]), uid);
  }

  lemma DeleteBounded(s: State, key: Key, uid: string)
    requires CoreInv(s) && Enabled(s, DeleteObject(key)) && Bounded(s, uid)
    ensures Bounded(DoDelete(s, key), uid)
  {
    var sc, s' := s.objects[key], DoDelete(s, key);
    LogEvent(s.log, Deleted(sc.owner, sc.obj, sc.status.id), uid);
    if InFlight(s, uid) {
      var u :| u in s.passes && s.passes[u].minted && s.passes[u].account.uid == uid;
      assert u in s'.passes && s'.passes[u].minted && s'.passes[u].account.uid == uid;
    }
  }

  /** A step that logs nothing and leaves every claim in place. */
  lemma SilentBounded(s: State, s': State, t: Tid, uid: string)
    requires Bounded(s, uid) && s'.log == s.log && HolderMoves(s, s', t)
    requires PublishedFor(s, uid) ==> PublishedFor(s', uid)
    requires s.passes[t].minted ==> s'.passes[t].minted
    ensures Bounded(s', uid)
  {
    KeepsTaken(s, s', t, uid);
  }

  lemma MakeIsSilent(s: State, t: Tid, effect: Effect, uid: string)
    requires Enabled(s, Make(t, effect)) && PassInv(s, s.passes[t])
    ensures DoMake(s, t, effect).log == s.log && t in DoMake(s, t, effect).passes
    ensures DoMake(s, t, effect).passes[t].minted == s.passes[t].minted
    ensures PublishedFor(s, uid) ==> PublishedFor(DoMake(s, t, effect), uid)
  {}

  lemma MakeBounded(s: State, t: Tid, effect: Effect, uid: string)
    requires CoreInv(s) && Enabled(s, Make(t, effect)) && Bounded(s, uid)
    ensures Bounded(DoMake(s, t, effect), uid)
  {
    assert PassInv(s, s.passes[t]);
    MakeIsSilent(s, t, effect, uid);
    MakeQuiet(s, t, effect);
    SilentBounded(s, DoMake(s, t, effect), t, uid);
  }

  lemma BeginBounded(s: State, t: Tid, a: Account, uid: string)
    requires Enabled(s, Begin(t, a)) && Bounded(s, uid)
    ensures Bounded(DoBegin(s, t, a), uid)
  {
    KeepsTaken(s, DoBegin(s, t, a), t, uid);
  }

  lemma LockBounded(s: State, t: Tid, uid: string)
    requires Enabled(s, Lock(t)) && Bounded(s, uid)
    ensures Bounded(DoLock(s, t), uid)
  {
    LockAdvances(s, t);
    KeepsTaken(s, DoLock(s, t), t, uid);
  }

  /** The calls between the read and the patch, other than the creation. */
  predicate Between(a: Action) {
    OnlyReads(a) || a.Update?
  }

  lemma NextKeepsHand(s: State, a: Action)
    requires OnlyReads(a) && a.t in s.passes
    ensures NextPass(s, a).minted == s.passes[a.t].minted
  {}

  lemma BetweenIsSilent(s: State, a: Action)
    requires Between(a) && Enabled(s, a)
    ensures Apply(s, a).log == s.log
    ensures a.t in Apply(s, a).passes && Apply(s, a).passes[a.t].minted == s.passes[a.t].minted
  {
    if a.Update? {
      assert DoUpdate(s, a.t, a.effect).log == s.log;
    } else {
      NextKeepsHand(s, a);
      NextPassApplies(s, a);
    }
  }

  lemma BetweenBounded(s: State, a: Action, uid: string)
    requires CoreInv(s) && Between(a) && Enabled(s, a) && Bounded(s, uid)
    ensures Bounded(Apply(s, a), uid)
  {
    BetweenIsSilent(s, a);
    MoveHolds(s, a);
    SilentBounded(s, Apply(s, a), a.t, uid);
  }

  lemma EnterOrLeaveBounded(s: State, a: Action, uid: string)
    requires CoreInv(s) && Enabled(s, a) && EntersOrLeaves(a) && Bounded(s, uid)
    ensures Bounded(Apply(s, a), uid)
  {
    if a.Begin? {
      BeginBounded(s, a.t, a.account, uid);
    } else if a.Lock? {
      LockBounded(s, a.t, uid);
    } else if a.Return? {
      ReturnBounded(s, a.t, uid);
    } else {
      AbandonBounded(s, a.t, uid);
    }
  }

  lemma BoundedStep(s: State, a: Action, uid: string)
    requires CoreInv(s) && Enabled(s, a) && Bounded(s, uid)
    ensures Bounded(Apply(s, a), uid)
  {
    if EntersOrLeaves(a) {
      EnterOrLeaveBounded(s, a, uid);
    } else if a.Create? {
      CreateBounded(s, a.t, a.id, a.effect, uid);
    } else if a.Publish? {
      PublishBounded(s, a.t, a.effect, uid);
    } else if a.DeleteObject? {
      DeleteBounded(s, a.key, uid);
    } else if a.Make? {
      MakeBounded(s, a.t, a.effect, uid);
    } else if Between(a) {
      BetweenBounded(s, a, uid);
    } else {
      RecordBounded(s, a.event, uid);
    }
  }

  lemma RecordBounded(s: State, e: Event, uid: string)
    requires Enabled(s, RecordSibling(e)) && Bounded(s, uid)
    ensures Bounded(DoRecord(s, e), uid)
  {
    var s' := DoRecord(s, e);
    if InFlight(s, uid) {
      var u :| u in s.passes && s.passes[u].minted && s.passes[u].account.uid == uid;
      assert u in s'.passes && s'.passes[u].minted && s'.passes[u].account.uid == uid;
    }
  }

  lemma {:induction false} RunBounded(states: seq<State>, acts: seq<Action>, i: nat, uid: string)
    requires Execution(states, acts) && i <= |acts|
    ensures Bounded(states[i], uid)
  {
    if i > 0 {
      RunInv(states, acts, i - 1);
      RunBounded(states, acts, i - 1, uid);
      BoundedStep(states[i - 1], acts[i - 1], uid);
    }
  }

  /**
   * At every point of every run, the customers created for one account number at most one, plus the
   * creations whose ID never reached the StripeCustomer, plus the deletions of its published
   * StripeCustomer.
   */
  lemma CustomersPerAccount(states: seq<State>, acts: seq<Action>, i: nat, uid: string)
    requires Execution(states, acts) && i <= |acts|
    ensures var log := states[i].log;
      Tally(log, Mint, uid) <= 1 + Tally(log, Orphan, uid) + Tally(log, Loss, uid)
  {
    RunBounded(states, acts, i, uid);
  }

  ghost predicate LogsNewCustomers(s: State, s': State) {
    && (forall e :: e in s.log ==> e in s'.log)
    && (forall id :: id in s'.customers && id !in s.customers ==> exists uid :: Minted(uid, id) in s'.log)
  }

  lemma CreateIsLogged(s: State, t: Tid, id: CusId, effect: Effect)
    requires Enabled(s, Create(t, id, effect))
    ensures LogsNewCustomers(s, DoCreate(s, t, id, effect))
  {
    var s' := DoCreate(s, t, id, effect);
    if !effect.Refused? { assert Minted(s.passes[t].account.uid, id) in s'.log; }
  }

  lemma UpdateIsLogged(s: State, t: Tid, effect: Effect)
    requires Enabled(s, Update(t, effect))
    ensures LogsNewCustomers(s, DoUpdate(s, t, effect))
  {}

  lemma WriteIsLogged(s: State, a: Action)
    requires Enabled(s, a) && (a.Make? || a.Publish?)
    ensures LogsNewCustomers(s, Apply(s, a))
  {}

  lemma RestIsLogged(s: State, a: Action)
    requires Enabled(s, a) && !(a.Create? || a.Update? || a.Make? || a.Publish? || Between(a))
    ensures LogsNewCustomers(s, Apply(s, a))
  {}

  lemma ReadOnlyIsLogged(s: State, a: Action)
    requires Enabled(s, a) && OnlyReads(a)
    ensures LogsNewCustomers(s, Apply(s, a))
  {
    NextPassApplies(s, a);
  }

  lemma CustomerLogged(s: State, a: Action)
    requires Enabled(s, a)
    ensures LogsNewCustomers(s, Apply(s, a))
  {
    if a.Create? {
      CreateIsLogged(s, a.t, a.id, a.effect);
    } else if a.Update? {
      UpdateIsLogged(s, a.t, a.effect);
    } else if a.Make? || a.Publish? {
      WriteIsLogged(s, a);
    } else if Between(a) {
      ReadOnlyIsLogged(s, a);
    } else {
      RestIsLogged(s, a);
    }
  }

  /** The tally misses nothing: every customer that a run adds to Stripe is logged as created. */
  lemma {:induction false} NewCustomersAreLogged(states: seq<State>, acts: seq<Action>, i: nat, id: CusId)
    requires Execution(states, acts) && i <= |acts|
    ensures id in states[i].customers && id !in states[0].customers ==> exists uid :: Minted(uid, id) in states[i].log
  {
    if i > 0 {
      NewCustomersAreLogged(states, acts, i - 1, id);
      CustomerLogged(states[i - 1], acts[i - 1]);
      if uid :| Minted(uid, id) in states[i - 1].log {
        assert Minted(uid, id) in states[i].log;
      }
    }
  }

  // ----- a published ID is permanent -----

  lemma PublishNames(s: State, t: Tid, effect: Effect)
    requires CoreInv(s) && Enabled(s, Publish(t, effect))
    ensures forall o :: o in s.named ==>
              o in DoPublish(s, t, effect).named && DoPublish(s, t, effect).named[o] == s.named[o]
  {
    assert PassInv(s, s.passes[t]);
    if Lands(s.passes[t], effect) {
      PatchLands(s, t, effect);
      LandedNames(s, DoPublish(s, t, effect), s.passes[t]);
    } else {
      PatchMisses(s, t, effect);
    }
  }

  lemma LandedNames(s: State, s': State, p: Pass)
    requires ObjectInv(s) && SnapshotCurrent(s, p) && Landed(s, s', p)
    ensures forall o :: o in s.named ==> o in s'.named && s'.named[o] == s.named[o]
  {}

  lemma EnterOrLeaveNames(s: State, a: Action)
    requires Enabled(s, a) && EntersOrLeaves(a)
    ensures Apply(s, a).named == s.named
  {
    if a.Begin? {
      BeginEnters(s, a.t, a.account);
    } else if a.Lock? {
      LockAdvances(s, a.t);
    } else if a.Return? {
      ReturnLeaves(s, a.t);
    } else {
      AbandonLeaves(s, a.t);
    }
  }

  lemma MakeNames(s: State, t: Tid, effect: Effect)
    requires Enabled(s, Make(t, effect))
    ensures DoMake(s, t, effect).named == s.named
  {}

  /** No step but a patch names anything. */
  lemma NamedSame(s: State, a: Action)
    requires CoreInv(s) && Enabled(s, a) && !a.Publish?
    ensures Apply(s, a).named == s.named
  {
    if EntersOrLeaves(a) {
      EnterOrLeaveNames(s, a);
    } else if a.Make? {
      MakeNames(s, a.t, a.effect);
    } else if a.Create? || Between(a) {
      MoveHolds(s, a);
    }
  }

  lemma NamedStep(s: State, a: Action)
    requires CoreInv(s) && Enabled(s, a)
    ensures forall o :: o in s.named ==> o in Apply(s, a).named && Apply(s, a).named[o] == s.named[o]
  {
    if a.Publish? { PublishNames(s, a.t, a.effect); } else { NamedSame(s, a); }
  }

  /** What an object has published, it has published for good. */
  lemma {:induction false} NamedForever(states: seq<State>, acts: seq<Action>, i: nat, j: nat)
    requires Execution(states, acts) && i <= j <= |acts|
    ensures forall o :: o in states[i].named ==> o in states[j].named && states[j].named[o] == states[i].named[o]
  {
    if i < j {
      NamedForever(states, acts, i, j - 1);
      RunInv(states, acts, j - 1);
      NamedStep(states[j - 1], acts[j - 1]);
    }
  }

  /** The ID an object publishes at some point, or "". */
  function IdOf(s: State, o: Object): CusId {
    if o.key in s.objects && s.objects[o.key].obj == o then s.objects[o.key].status.id else ""
  }

  lemma IdIsNamed(states: seq<State>, acts: seq<Action>, i: nat, o: Object)
    requires Execution(states, acts) && i <= |acts| && IdOf(states[i], o) != ""
    ensures o in states[i].named && states[i].named[o] == IdOf(states[i], o)
  {
    RunInv(states, acts, i);
    assert ObjectOk(states[i], o.key, states[i].objects[o.key]);
  }

  /** As long as an object lives, its non-empty ID does not change, whichever call fails. */
  lemma PublishedIdPermanent(states: seq<State>, acts: seq<Action>, i: nat, j: nat, o: Object)
    requires Execution(states, acts) && i <= j <= |acts|
    requires o.key in states[j].objects && states[j].objects[o.key].obj == o && IdOf(states[i], o) != ""
    ensures IdOf(states[j], o) == IdOf(states[i], o)
  {
    NamedForever(states, acts, i, j);
    IdIsNamed(states, acts, i, o);
    RunInv(states, acts, j);
    assert ObjectOk(states[j], o.key, states[j].objects[o.key]);
  }

  lemma ReturnedIsNamed(states: seq<State>, acts: seq<Action>, j: nat, e: Event)
    requires Execution(states, acts) && j <= |acts| && e.Returned? && e in states[j].log
    ensures e.obj in states[j].named && states[j].named[e.obj] == e.id && e.id != ""
  {
    RunInv(states, acts, j);
  }

  /** Every Ensure that returns an ID for an object returns the ID the object publishes, at any time. */
  lemma ReturnsAgree(states: seq<State>, acts: seq<Action>, i: nat, j: nat, e: Event)
    requires Execution(states, acts) && i <= |acts| && j <= |acts| && e.Returned? && e in states[j].log
    ensures e.id != "" && IdOf(states[i], e.obj) in {"", e.id}
    ensures forall e' :: e' in states[i].log && e'.Returned? && e'.obj == e.obj ==> e'.id == e.id
  {
    ReturnedIsNamed(states, acts, j, e);
    if i <= j { NamedForever(states, acts, i, j); } else { NamedForever(states, acts, j, i); }
    if IdOf(states[i], e.obj) != "" { IdIsNamed(states, acts, i, e.obj); }
    forall e' | e' in states[i].log && e'.Returned? && e'.obj == e.obj ensures e'.id == e.id {
      ReturnedIsNamed(states, acts, i, e');
    }
  }

  /** Ready is True only on a StripeCustomer that names its customer. */
  lemma ReadyIsHonest(states: seq<State>, acts: seq<Action>, i: nat, k: Key)
    requires Execution(states, acts) && i <= |acts|
    ensures k in states[i].objects ==> ReadyNamesCustomer(states[i].objects[k].status)
  {
    RunInv(states, acts, i);
    if k in states[i].objects { assert ObjectOk(states[i], k, states[i].objects[k]); }
  }

  // ----- the lock -----

  /** A key keeps the mutex it was first given, whoever asks. */
  lemma {:induction false} OneMutexPerKey(states: seq<State>, acts: seq<Action>, i: nat, j: nat, k: Key)
    requires Execution(states, acts) && i <= j <= |acts|
    ensures k in states[i].locks.table ==>
              k in states[j].locks.table && states[j].locks.table[k] == states[i].locks.table[k]
  {
    if i < j {
      OneMutexPerKey(states, acts, i, j - 1, k);
      RunInv(states, acts, j - 1);
      TableStep(states[j - 1], acts[j - 1], k);
    }
  }

  lemma TableStep(s: State, a: Action, k: Key)
    requires CoreInv(s) && Enabled(s, a)
    ensures k in s.locks.table ==> k in Apply(s, a).locks.table && Apply(s, a).locks.table[k] == s.locks.table[k]
  {
    if EntersOrLeaves(a) {
      EnterOrLeaveTable(s, a, k);
    } else if a.Make? {
      MakeQuiet(s, a.t, a.effect);
    } else if a.Publish? {
      PublishMoves(s, a.t, a.effect);
    } else if a.Create? || Between(a) {
      MoveHolds(s, a);
    }
  }

  lemma LeaveTable(s: State, s': State, t: Tid)
    requires LockInv(s) && Left(s, s', t)
    ensures s'.locks.table == s.locks.table
  {
    DropInv(s.locks, t);
  }

  lemma EnterOrLeaveTable(s: State, a: Action, k: Key)
    requires CoreInv(s) && Enabled(s, a) && EntersOrLeaves(a)
    ensures k in s.locks.table ==> k in Apply(s, a).locks.table && Apply(s, a).locks.table[k] == s.locks.table[k]
  {
    if a.Begin? {
      BeginEnters(s, a.t, a.account);
    } else if a.Lock? {
      LockAdvances(s, a.t);
      AdvanceInv(s.locks, a.t);
    } else if a.Return? {
      ReturnLeaves(s, a.t);
      LeaveTable(s, DoReturn(s, a.t), a.t);
    } else {
      AbandonLeaves(s, a.t);
      LeaveTable(s, DoAbandon(s, a.t), a.t);
    }
  }

  /** No two passes between lock and unlock work on the same key. */
  lemma OnePassPerKey(states: seq<State>, acts: seq<Action>, i: nat, t: Tid, u: Tid)
    requires Execution(states, acts) && i <= |acts| && t != u
    requires t in states[i].passes && u in states[i].passes
    requires states[i].passes[t].pc != Locking && states[i].passes[u].pc != Locking
    ensures states[i].passes[t].account.key != states[i].passes[u].account.key
  {
    RunInv(states, acts, i);
    OneHolder(states[i], t, u);
  }

  /** A next action of a pass past the lock; each call here fails, and a failing call is always possible. */
  function NextAction(s: State, t: Tid): Action
    requires t in s.passes
  {
    match s.passes[t].pc
    case Locking => Lock(t)
    case Reading => Read(t, false)
    case Making => Make(t, Refused)
    case LookingUp => Lookup(t, false, "")
    case Detailing => Details(t, false)
    case SearchingUid => SearchUid(t, false, "")
    case SearchingName => SearchName(t, false, "")
    case Writing => if s.passes[t].target == "" then Create(t, "", Refused) else Update(t, Refused)
    case SyncingTaxIds => SyncTaxIds(t, false)
    case Publishing => Publish(t, Refused)
    case Returning => Return(t)
  }

  lemma HolderNeverStuck(s: State, t: Tid)
    requires t in s.passes && t in s.locks.stages && (s.passes[t].pc != Locking || CanAdvance(s.locks, t))
    ensures Enabled(s, NextAction(s, t))
  {}

  /** t cannot go on before u: u owns the table mutex t wants, or works under t's own key. */
  predicate WaitsOn(s: State, t: Tid, u: Tid) {
    && At(s, t, Locking) && t in s.locks.stages && u in s.passes && u != t
    && (if s.locks.stages[t].WantTable? then s.locks.mu == Some(u)
        else s.passes[u].pc != Locking && s.passes[u].account.key == s.passes[t].account.key)
  }

  /** At every point of every run, each unfinished pass can go on, or waits on a pass that can. */
  lemma NoDeadlock(states: seq<State>, acts: seq<Action>, i: nat, t: Tid)
    requires Execution(states, acts) && i <= |acts| && t in states[i].passes
    ensures Enabled(states[i], NextAction(states[i], t)) ||
            exists u :: WaitsOn(states[i], t, u) && Enabled(states[i], NextAction(states[i], u))
  {
    var s := states[i];
    RunInv(states, acts, i);
    assert t in s.locks.stages;
    if s.passes[t].pc != Locking || CanAdvance(s.locks, t) {
      HolderNeverStuck(s, t);
    } else {
      WaitsFor(s.locks, t);
      var stage := s.locks.stages[t];
      var u: Tid := if stage.WantTable? then s.locks.mu.value else s.locks.held[stage.mutex];
      HolderNeverStuck(s, u);
      assert WaitsOn(s, t, u);
    }
  }

  function StageRank(stage: Stage): nat {
    match stage
    case WantTable(_) => 13
    case InTable(_) => 12
    case WantKey(_, _) => 11
    case Held(_, _) => 10
  }

  function PcRank(pc: Pc): nat {
    match pc
    case Locking => 11
    case Reading => 10
    case Making => 9
    case LookingUp => 8
    case Detailing => 7
    case SearchingUid => 6
    case SearchingName => 5
    case Writing => 4
    case SyncingTaxIds => 3
    case Publishing => 2
    case Returning => 1
  }

  /** How many more actions a pass can take. */
  function Rank(s: State, t: Tid): nat {
    if t !in s.passes then 0
    else if s.passes[t].pc == Locking && t in s.locks.stages then StageRank(s.locks.stages[t])
    else PcRank(s.passes[t].pc)
  }

  predicate ActsFor(a: Action, t: Tid) {
    !a.DeleteObject? && !a.RecordSibling? && a.t == t
  }

  /** No call of t starts with the actions numbered from i up to j. */
  predicate NoBegin(acts: seq<Action>, t: Tid, i: nat, j: nat) {
    forall k :: i <= k < j && k < |acts| ==> !(acts[k].Begin? && acts[k].t == t)
  }

  /** The actions of t among the first n, other than starting a call. */
  function Moves(acts: seq<Action>, n: nat, t: Tid): nat
    requires n <= |acts|
  {
    if n == 0 then 0 else
    Moves(acts, n - 1, t) + (if ActsFor(acts[n - 1], t) && !acts[n - 1].Begin? then 1 else 0)
  }

  lemma AdvanceLowers(l: Locks, t: Tid)
    requires CanAdvance(l, t)
    ensures StageRank(Advance(l, t).stages[t]) < StageRank(l.stages[t])
  {}

  lemma AdvancesRank(s: State, s': State, t: Tid)
    requires LockInv(s) && Advances(s, s', t)
    requires s'.locks.stages.Keys == s.locks.stages.Keys
    requires forall u :: u in s.locks.stages && u != t ==> s'.locks.stages[u] == s.locks.stages[u]
    requires StageRank(s'.locks.stages[t]) < StageRank(s.locks.stages[t])
    ensures Rank(s', t) < Rank(s, t)
    ensures forall u :: u != t ==> Rank(s', u) == Rank(s, u)
  {}

  lemma LockRank(s: State, t: Tid)
    requires LockInv(s) && Enabled(s, Lock(t))
    ensures Rank(DoLock(s, t), t) < Rank(s, t)
    ensures forall u :: u != t ==> Rank(DoLock(s, t), u) == Rank(s, u)
  {
    LockAdvances(s, t);
    AdvanceInv(s.locks, t);
    AdvanceLowers(s.locks, t);
    AdvancesRank(s, DoLock(s, t), t);
  }

  /** Leaving takes t's remaining actions to zero. */
  lemma LeaveRank(s: State, s': State, t: Tid)
    requires Left(s, s', t) && LockInv(s)
    ensures Rank(s', t) < Rank(s, t)
    ensures forall u :: u != t ==> Rank(s', u) == Rank(s, u)
  {
    DropInv(s.locks, t);
  }

  lemma HolderRank(s: State, s': State, t: Tid)
    requires HolderMoves(s, s', t)
    ensures forall u :: u != t ==> Rank(s', u) == Rank(s, u)
    ensures Rank(s', t) == PcRank(s'.passes[t].pc) && Rank(s, t) == PcRank(s.passes[t].pc)
  {}

  /** Every call moves its pass on. */
  lemma NextRank(s: State, a: Action)
    requires Enabled(s, a) && OnlyReads(a)
    ensures PcRank(NextPass(s, a).pc) < PcRank(s.passes[a.t].pc)
  {}

  lemma WriteRank(p: Pass, obj: Object, id: CusId, effect: Effect)
    ensures p.pc == Making ==> PcRank(MakePass(p, obj, effect).pc) < PcRank(p.pc)
    ensures p.pc == Writing ==> PcRank(CreatePass(p, id, effect).pc) < PcRank(p.pc)
    ensures p.pc == Writing ==> PcRank(UpdatePass(p, effect).pc) < PcRank(p.pc)
    ensures p.pc == Publishing ==> PcRank(Finished(p, effect).pc) < PcRank(p.pc)
  {}

  lemma WriteMoves(s: State, a: Action)
    requires Enabled(s, a) && (a.Make? || a.Create? || a.Update? || a.Publish?)
    ensures a.t in Apply(s, a).passes && PcRank(Apply(s, a).passes[a.t].pc) < PcRank(s.passes[a.t].pc)
  {
    var p := s.passes[a.t];
    if a.Make? {
      WriteRank(p, Object(p.account.key, s.nextSerial), "", a.effect);
    } else if a.Create? {
      WriteRank(p, p.obj, a.id, a.effect);
    } else {
      WriteRank(p, p.obj, "", a.effect);
    }
  }

  lemma HolderStays(s: State, a: Action)
    requires CoreInv(s) && Enabled(s, a) && (a.Make? || a.Publish? || a.Create? || Between(a))
    ensures HolderMoves(s, Apply(s, a), a.t)
  {
    if a.Make? {
      MakeQuiet(s, a.t, a.effect);
    } else if a.Publish? {
      PublishMoves(s, a.t, a.effect);
    } else {
      MoveHolds(s, a);
    }
  }

  lemma HolderRankStep(s: State, a: Action)
    requires CoreInv(s) && Enabled(s, a) && (a.Make? || a.Publish? || a.Create? || Between(a))
    ensures Rank(Apply(s, a), a.t) < Rank(s, a.t)
    ensures forall u :: u != a.t ==> Rank(Apply(s, a), u) == Rank(s, u)
  {
    HolderStays(s, a);
    HolderRank(s, Apply(s, a), a.t);
    if OnlyReads(a) {
      NextRank(s, a);
      NextPassApplies(s, a);
    } else {
      WriteMoves(s, a);
    }
  }

  lemma LeaverRankStep(s: State, a: Action)
    requires CoreInv(s) && Enabled(s, a) && (a.Return? || a.Abandon?)
    ensures Rank(Apply(s, a), a.t) < Rank(s, a.t)
    ensures forall u :: u != a.t ==> Rank(Apply(s, a), u) == Rank(s, u)
  {
    if a.Return? { ReturnLeaves(s, a.t); } else { AbandonLeaves(s, a.t); }
    LeaveRank(s, Apply(s, a), a.t);
  }

  lemma RankStep(s: State, a: Action)
    requires CoreInv(s) && Enabled(s, a) && !a.Begin? && !a.DeleteObject? && !a.RecordSibling?
    ensures Rank(Apply(s, a), a.t) < Rank(s, a.t)
    ensures forall u :: u != a.t ==> Rank(Apply(s, a), u) == Rank(s, u)
  {
    if a.Lock? {
      LockRank(s, a.t);
    } else if a.Return? || a.Abandon? {
      LeaverRankStep(s, a);
    } else {
      HolderRankStep(s, a);
    }
  }

  lemma OutsideRank(s: State, a: Action, t: Tid)
    requires Enabled(s, a) && (a.Begin? || a.DeleteObject? || a.RecordSibling?)
    ensures if a.Begin? && a.t == t then Rank(Apply(s, a), t) == 13 else Rank(Apply(s, a), t) <= Rank(s, t)
  {}

  /** One action of anybody: t's own uses up rank, and nobody else's adds any. */
  lemma RankFalls(s: State, a: Action, t: Tid)
    requires CoreInv(s) && Enabled(s, a) && !(a.Begin? && a.t == t)
    ensures Rank(Apply(s, a), t) + (if ActsFor(a, t) && !a.Begin? then 1 else 0) <= Rank(s, t)
  {
    if a.Begin? || a.DeleteObject? || a.RecordSibling? { OutsideRank(s, a, t); } else { RankStep(s, a); }
  }

  /** While t starts no other call, its actions use up its rank. */
  lemma {:induction false} MovesBounded(states: seq<State>, acts: seq<Action>, i: nat, j: nat, t: Tid)
    requires Execution(states, acts) && i <= j <= |acts| && NoBegin(acts, t, i, j)
    ensures Moves(acts, j, t) + Rank(states[j], t) <= Moves(acts, i, t) + Rank(states[i], t)
  {
    if i < j {
      MovesBounded(states, acts, i, j - 1, t);
      RunInv(states, acts, j - 1);
      RankFalls(states[j - 1], acts[j - 1], t);
    }
  }

  /** Every single Ensure call ends: it takes at most thirteen actions, however calls interleave. */
  lemma PassesEnd(states: seq<State>, acts: seq<Action>, b: nat, j: nat, t: Tid)
    requires Execution(states, acts) && b < j <= |acts|
    requires acts[b].Begin? && acts[b].t == t && NoBegin(acts, t, b + 1, j)
    ensures Moves(acts, j, t) - Moves(acts, b, t) + Rank(states[j], t) <= 13
  {
    OutsideRank(states[b], acts[b], t);
    MovesBounded(states, acts, b + 1, j, t);
  }
}
