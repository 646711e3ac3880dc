/**
 * What became of every customer ever created for an account: a pass still has it in hand, the
 * account's live StripeCustomer publishes it, its ID was never published, or the StripeCustomer that
 * published it was deleted. This decides exactly when an account gets another customer.
 */
module CustomerAccounting {
  import opened Wrappers
  import opened KeyLocks
  import opened CustomerProtocol
  import opened CustomerInvariants
  import opened CustomerTheorems
  import opened Remote

  ghost predicate InHand(s: State, uid: string, id: CusId) {
    exists t :: t in s.passes && s.passes[t].minted && s.passes[t].account.uid == uid && s.passes[t].target == id
  }

  ghost predicate Live(s: State, uid: string, id: CusId) {
    PublishedFor(s, uid) && s.objects[s.registry[uid]].status.id == id
  }

  /** The creation was never acknowledged or never published, or the object that published it is gone. */
  ghost predicate Lost(log: seq<Event>, uid: string, id: CusId) {
    Orphaned(uid, id) in log || exists o :: Deleted(Some(uid), o, id) in log
  }

  ghost predicate Accounted(s: State, uid: string, id: CusId) {
    InHand(s, uid, id) || Live(s, uid, id) || Lost(s.log, uid, id)
  }

  ghost predicate AllAccounted(s: State) {
    forall uid, id :: Minted(uid, id) in s.log ==> Accounted(s, uid, id)
  }

  /** A step of pass t that keeps what the others hold, and loses nothing of its own. */
  ghost predicate Preserves(s: State, s': State, t: Tid) {
    && (forall e :: e in s.log ==> e in s'.log)
    && (forall u :: u in s.passes && s.passes[u].minted && u != t ==> u in s'.passes && s'.passes[u] == s.passes[u])
  }

  lemma Kept(s: State, s': State, t: Tid, uid: string, id: CusId)
    requires Accounted(s, uid, id) && Preserves(s, s', t)
    requires Live(s, uid, id) ==> Accounted(s', uid, id)
    requires t in s.passes && s.passes[t].minted && s.passes[t].account.uid == uid && s.passes[t].target == id ==>
               Accounted(s', uid, id)
    ensures Accounted(s', uid, id)
  {
    if InHand(s, uid, id) {
      var u :| u in s.passes && s.passes[u].minted && s.passes[u].account.uid == uid && s.passes[u].target == id;
      if u != t { assert u in s'.passes && s'.passes[u] == s.passes[u]; }
    } else if Lost(s.log, uid, id) && Orphaned(uid, id) !in s.log {
      var o :| Deleted(Some(uid), o, id) in s.log;
      assert Deleted(Some(uid), o, id) in s'.log;
    }
  }

  lemma LiveStays(s: State, s': State, uid: string, id: CusId)
    requires s'.objects == s.objects && s'.registry == s.registry
    ensures Live(s, uid, id) ==> Live(s', uid, id)
  {}

  // ----- the creating call -----

  lemma CreateTarget(s: State, t: Tid, id: CusId, effect: Effect)
    requires Enabled(s, Create(t, id, effect)) && effect.Done?
    ensures t in DoCreate(s, t, id, effect).passes && DoCreate(s, t, id, effect).passes[t].target == id
  {}

  lemma CreatePreserves(s: State, s': State, t: Tid, id: CusId, effect: Effect)
    requires Creates(s, s', t, effect) && s'.log == s.log + Creation(s.passes[t].account.uid, id, effect)
    ensures Preserves(s, s', t)
  {}

  lemma CreateAccounted(s: State, t: Tid, id: CusId, effect: Effect)
    requires CoreInv(s) && AllAccounted(s) && Enabled(s, Create(t, id, effect))
    ensures AllAccounted(DoCreate(s, t, id, effect))
  {
    var s', own := DoCreate(s, t, id, effect), s.passes[t].account.uid;
    CreateCreates(s, t, id, effect);
    CreatePreserves(s, s', t, id, effect);
    if effect.Done? { CreateTarget(s, t, id, effect); }
    CreatesAccounted(s, s', t, id, effect);
  }

  lemma CreatesAccounted(s: State, s': State, t: Tid, id: CusId, effect: Effect)
    requires Creates(s, s', t, effect) && Preserves(s, s', t) && AllAccounted(s)
    requires s'.log == s.log + Creation(s.passes[t].account.uid, id, effect)
    requires PassInv(s, s.passes[t]) && s.passes[t].pc == Writing
    requires effect.Done? ==> s'.passes[t].target == id
    ensures AllAccounted(s')
  {
    forall uid, i | Minted(uid, i) in s'.log ensures Accounted(s', uid, i) {
      if Minted(uid, i) in s.log {
        LiveStays(s, s', uid, i);
        Kept(s, s', t, uid, i);
      } else if effect.Done? {
        assert s'.passes[t].minted;
      } else {
        assert Orphaned(uid, i) in s'.log;
      }
    }
  }

  // ----- the other calls mint nothing -----

  ghost predicate MintsNothing(s: State, s': State) {
    forall uid, id :: Minted(uid, id) in s'.log ==> Minted(uid, id) in s.log
  }

  lemma BetweenTarget(s: State, a: Action)
    requires Between(a) && Enabled(s, a) && PassInv(s, s.passes[a.t]) && s.passes[a.t].minted
    ensures a.t in Apply(s, a).passes && Apply(s, a).passes[a.t].minted
    ensures Apply(s, a).passes[a.t].account == s.passes[a.t].account
    ensures Apply(s, a).passes[a.t].target == s.passes[a.t].target
  {
    assert a.SyncTaxIds?;
  }

  lemma BetweenKeepsHand(s: State, a: Action)
    requires CoreInv(s) && Between(a) && Enabled(s, a)
    ensures HolderMoves(s, Apply(s, a), a.t) && Apply(s, a).objects == s.objects
    ensures s.passes[a.t].minted ==> Apply(s, a).passes[a.t].minted
    ensures s.passes[a.t].minted ==> Apply(s, a).passes[a.t].target == s.passes[a.t].target
  {
    assert PassInv(s, s.passes[a.t]);
    MoveHolds(s, a);
    if s.passes[a.t].minted { BetweenTarget(s, a); }
  }

  lemma BetweenAccounted(s: State, a: Action)
    requires CoreInv(s) && AllAccounted(s) && Between(a) && Enabled(s, a)
    ensures AllAccounted(Apply(s, a))
  {
    BetweenIsSilent(s, a);
    BetweenKeepsHand(s, a);
    MovedAccounted(s, Apply(s, a), a.t);
  }

  /** Pass t moves without a change of stores, and keeps what it has in hand. */
  lemma MovedAccounted(s: State, s': State, t: Tid)
    requires AllAccounted(s) && HolderMoves(s, s', t) && s'.objects == s.objects && s'.log == s.log
    requires s.passes[t].minted ==> s'.passes[t].minted && s'.passes[t].target == s.passes[t].target
    ensures AllAccounted(s')
  {
    forall uid, id | Minted(uid, id) in s'.log ensures Accounted(s', uid, id) {
      LiveStays(s, s', uid, id);
      Kept(s, s', t, uid, id);
    }
  }

  lemma LandedAccounted(s: State, s': State, t: Tid)
    requires AllAccounted(s) && HolderMoves(s, s', t) && Landed(s, s', s.passes[t])
    requires PassInv(s, s.passes[t]) && s.passes[t].pc == Publishing && s.passes[t].account.key in s.objects
    ensures AllAccounted(s')
  {
    var p := s.passes[t];
    forall uid, id | Minted(uid, id) in s'.log ensures Accounted(s', uid, id) {
      LandedLive(s, s', p, uid, id);
      Kept(s, s', t, uid, id);
    }
  }

  /** What was live stays live, and what the pass had in hand is live now. */
  lemma LandedLive(s: State, s': State, p: Pass, uid: string, id: CusId)
    requires Landed(s, s', p) && PassInv(s, p) && p.pc == Publishing && p.account.key in s.objects
    requires s'.registry == s.registry
    ensures Live(s, uid, id) ==> Live(s', uid, id)
    ensures p.minted && p.account.uid == uid && p.target == id ==> Live(s', uid, id)
  {}

  lemma MissedAccounted(s: State, s': State, t: Tid)
    requires AllAccounted(s) && HolderMoves(s, s', t) && s'.objects == s.objects
    requires s'.log == s.log + AbandonEvents(s.passes[t])
    ensures AllAccounted(s')
  {
    forall uid, id | Minted(uid, id) in s'.log ensures Accounted(s', uid, id) {
      LiveStays(s, s', uid, id);
      Kept(s, s', t, uid, id);
    }
  }

  lemma PublishAccounted(s: State, t: Tid, effect: Effect)
    requires CoreInv(s) && AllAccounted(s) && Enabled(s, Publish(t, effect))
    ensures AllAccounted(DoPublish(s, t, effect))
  {
    var s' := DoPublish(s, t, effect);
    assert PassInv(s, s.passes[t]);
    PublishMoves(s, t, effect);
    if Lands(s.passes[t], effect) {
      PatchLands(s, t, effect);
      LandedAccounted(s, s', t);
    } else {
      PatchMisses(s, t, effect);
      MissedAccounted(s, s', t);
    }
  }

  /** A pass ends, and what it still had in hand is an orphan. */
  lemma LeavesAccounted(s: State, s': State, t: Tid)
    requires AllAccounted(s) && t in s.passes && s'.passes == s.passes - {t}
    requires s'.registry == s.registry && s'.objects == s.objects && MintsNothing(s, s')
    requires forall e :: e in s.log ==> e in s'.log
    requires s.passes[t].minted ==> Orphaned(s.passes[t].account.uid, s.passes[t].target) in s'.log
    ensures AllAccounted(s')
  {
    forall uid, id | Minted(uid, id) in s'.log ensures Accounted(s', uid, id) {
      LiveStays(s, s', uid, id);
      Kept(s, s', t, uid, id);
    }
  }

  lemma LeftAccounted(s: State, s': State, t: Tid, events: seq<Event>)
    requires AllAccounted(s) && Left(s, s', t) && s'.log == s.log + events
    requires forall e :: e in events ==> !e.Minted?
    requires s.passes[t].minted ==> Orphaned(s.passes[t].account.uid, s.passes[t].target) in events
    ensures AllAccounted(s')
  {
    LeavesAccounted(s, s', t);
  }

  lemma ReturnAccounted(s: State, t: Tid)
    requires CoreInv(s) && AllAccounted(s) && Enabled(s, Return(t))
    ensures AllAccounted(DoReturn(s, t))
  {
    assert PassInv(s, s.passes[t]);
    ReturnLeaves(s, t);
    assert !s.passes[t].minted;
    LeftAccounted(s, DoReturn(s, t), t, ReturnEvents(s.passes[t]));
  }

  lemma AbandonAccounted(s: State, t: Tid)
    requires AllAccounted(s) && Enabled(s, Abandon(t))
    ensures AllAccounted(DoAbandon(s, t))
  {
    AbandonLeaves(s, t);
    LeftAccounted(s, DoAbandon(s, t), t, AbandonEvents(s.passes[t]));
  }

  lemma MakeLive(s: State, t: Tid, effect: Effect, uid: string, id: CusId)
    requires Enabled(s, Make(t, effect)) && PassInv(s, s.passes[t])
    ensures Live(s, uid, id) ==> Live(DoMake(s, t, effect), uid, id)
  {}

  lemma MakeAccounted(s: State, t: Tid, effect: Effect)
    requires CoreInv(s) && AllAccounted(s) && Enabled(s, Make(t, effect))
    ensures AllAccounted(DoMake(s, t, effect))
  {
    var s' := DoMake(s, t, effect);
    assert PassInv(s, s.passes[t]);
    MakeQuiet(s, t, effect);
    forall uid, id | Minted(uid, id) in s'.log ensures Accounted(s', uid, id) {
      MakeIsSilent(s, t, effect, uid);
      MakeLive(s, t, effect, uid, id);
      Kept(s, s', t, uid, id);
    }
  }

  /** Deleting the object that publishes a customer loses the customer. */
  lemma DeleteAccounted(s: State, key: Key)
    requires AllAccounted(s) && Enabled(s, DeleteObject(key))
    ensures AllAccounted(DoDelete(s, key))
  {
    var sc, s' := s.objects[key], DoDelete(s, key);
    var e := Deleted(sc.owner, sc.obj, sc.status.id);
    assert s'.log == s.log + [e] && s'.passes == s.passes;
    forall uid, id | Minted(uid, id) in s'.log ensures Accounted(s', uid, id) {
      if Live(s, uid, id) && s.registry[uid] == key { assert Deleted(Some(uid), sc.obj, id) in s'.log; }
      if InHand(s, uid, id) { assert InHand(s', uid, id); }
      if Lost(s.log, uid, id) { LostStays(s.log, e, uid, id); }
    }
  }

  lemma LostStays(log: seq<Event>, e: Event, uid: string, id: CusId)
    requires Lost(log, uid, id)
    ensures Lost(log + [e], uid, id)
  {
    if Orphaned(uid, id) !in log {
      var o :| Deleted(Some(uid), o, id) in log;
      assert Deleted(Some(uid), o, id) in log + [e];
    }
  }

  /** Passes stay as they were, but for one that has nothing in hand. */
  lemma QuietAccounted(s: State, s': State, t: Tid)
    requires AllAccounted(s) && s'.objects == s.objects && s'.registry == s.registry && s'.log == s.log
    requires forall u :: u in s.passes && u != t ==> u in s'.passes && s'.passes[u] == s.passes[u]
    requires t in s.passes ==> !s.passes[t].minted
    ensures AllAccounted(s')
  {
    forall uid, id | Minted(uid, id) in s'.log ensures Accounted(s', uid, id) {
      LiveStays(s, s', uid, id);
      Kept(s, s', t, uid, id);
    }
  }

  lemma BeginAccounted(s: State, t: Tid, a: Account)
    requires AllAccounted(s) && Enabled(s, Begin(t, a))
    ensures AllAccounted(DoBegin(s, t, a))
  {
    BeginEnters(s, t, a);
    QuietAccounted(s, DoBegin(s, t, a), t);
  }

  lemma LockAccounted(s: State, t: Tid)
    requires PassesInv(s) && AllAccounted(s) && Enabled(s, Lock(t))
    ensures AllAccounted(DoLock(s, t))
  {
    assert PassInv(s, s.passes[t]);
    LockAdvances(s, t);
    QuietAccounted(s, DoLock(s, t), t);
  }

  lemma RecordAccounted(s: State, e: Event)
    requires AllAccounted(s) && Enabled(s, RecordSibling(e))
    ensures AllAccounted(DoRecord(s, e))
  {
    forall uid, id | Minted(uid, id) in s.log ensures Accounted(DoRecord(s, e), uid, id) {
      LiveStays(s, DoRecord(s, e), uid, id);
      if InHand(s, uid, id) { assert InHand(DoRecord(s, e), uid, id); }
    }
  }

  lemma EnterOrLeaveAccounted(s: State, a: Action)
    requires CoreInv(s) && AllAccounted(s) && Enabled(s, a) && EntersOrLeaves(a)
    ensures AllAccounted(Apply(s, a))
  {
    if a.Begin? {
      BeginAccounted(s, a.t, a.account);
    } else if a.Lock? {
      LockAccounted(s, a.t);
    } else if a.Return? {
      ReturnAccounted(s, a.t);
    } else {
      AbandonAccounted(s, a.t);
    }
  }

  lemma AccountedStep(s: State, a: Action)
    requires CoreInv(s) && AllAccounted(s) && Enabled(s, a)
    ensures AllAccounted(Apply(s, a))
  {
    if EntersOrLeaves(a) {
      EnterOrLeaveAccounted(s, a);
    } else if a.Create? {
      CreateAccounted(s, a.t, a.id, a.effect);
    } else if a.Publish? {
      PublishAccounted(s, a.t, a.effect);
    } else if a.Make? {
      MakeAccounted(s, a.t, a.effect);
    } else if a.DeleteObject? {
      DeleteAccounted(s, a.key);
    } else if a.RecordSibling? {
      RecordAccounted(s, a.event);
    } else {
      BetweenAccounted(s, a);
    }
  }

  /** At every point of every run, each customer ever created for an account is accounted for. */
  lemma {:induction false} EveryCustomerAccounted(states: seq<State>, acts: seq<Action>, i: nat)
    requires Execution(states, acts) && i <= |acts|
    ensures AllAccounted(states[i])
  {
    if i > 0 {
      RunInv(states, acts, i - 1);
      EveryCustomerAccounted(states, acts, i - 1);
      AccountedStep(states[i - 1], acts[i - 1]);
    }
  }

  /** When another customer is about to be created for an account, every earlier one was lost. */
  lemma EarlierAreLost(states: seq<State>, acts: seq<Action>, i: nat, t: Tid, id: CusId, effect: Effect)
    requires Execution(states, acts) && i <= |acts| && Enabled(states[i], Create(t, id, effect))
    ensures forall earlier :: Minted(states[i].passes[t].account.uid, earlier) in states[i].log ==>
              Lost(states[i].log, states[i].passes[t].account.uid, earlier)
  {
    var s, uid := states[i], states[i].passes[t].account.uid;
    EveryCustomerAccounted(states, acts, i);
    RunInv(states, acts, i);
    SlotFree(s, t, id, effect);
    forall earlier | Minted(uid, earlier) in s.log ensures Lost(s.log, uid, earlier) {
      HeldIsTaken(s, uid, earlier);
      assert Accounted(s, uid, earlier);
    }
  }

  lemma HeldIsTaken(s: State, uid: string, id: CusId)
    ensures InHand(s, uid, id) || Live(s, uid, id) ==> Taken(s, uid)
  {}

  /**
   * Exactly when a creation gives an account another customer: when the ID of one it created was
   * never published, or the StripeCustomer that published it was deleted.
   */
  lemma CreatesAnotherIff(states: seq<State>, acts: seq<Action>, i: nat, t: Tid, id: CusId, effect: Effect)
    requires Execution(states, acts) && i <= |acts|
    requires Enabled(states[i], Create(t, id, effect)) && !effect.Refused?
    ensures var uid, log := states[i].passes[t].account.uid, states[i].log;
      Tally(log + Creation(uid, id, effect), Mint, uid) >= 2 <==>
        exists earlier :: Minted(uid, earlier) in log && Lost(log, uid, earlier)
  {
    var uid, log := states[i].passes[t].account.uid, states[i].log;
    EarlierAreLost(states, acts, i, t, id, effect);
    CreationTally(log, uid, id, effect, uid);
    TallyPositive(log, uid);
  }

  lemma {:induction false} TallyPositive(log: seq<Event>, uid: string)
    ensures Tally(log, Mint, uid) > 0 <==> exists id :: Minted(uid, id) in log
  {
    if log != [] {
      var init, last := log[..|log| - 1], log[|log| - 1];
      TallyPositive(init, uid);
      assert log == init + [last];
      if Counts(Mint, uid, last) { assert last == Minted(uid, last.id) && last in log; }
      if id :| Minted(uid, id) in init { assert Minted(uid, id) in log; }
      if id :| Minted(uid, id) in log { assert last == Minted(uid, id) || Minted(uid, id) in init; }
    }
  }
}
