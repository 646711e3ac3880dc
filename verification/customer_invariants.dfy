/**
 * What every step of every pass keeps: the lock discipline, the agreement between a pass's
 * snapshot and the server, and the permanence of a published customer ID.
 */
module CustomerInvariants {
  import opened Wrappers
  import opened KeyLocks
  import opened CustomerProtocol
  import opened Remote

  // ----- the invariant -----

  /** The snapshot of a pass that has read or created its StripeCustomer is still the server's. */
  ghost predicate SnapshotCurrent(s: State, p: Pass) {
    && p.obj.key == p.account.key && p.obj.serial < s.nextSerial
    && (p.account.key in s.objects ==>
          s.objects[p.account.key] == StripeCustomer(p.obj, Some(p.account.uid), p.base))
    && p.base.id == NamedId(s, p.obj)
    && ReadyNamesCustomer(p.base)
  }

  ghost predicate Unchosen(s: State, p: Pass) {
    SnapshotCurrent(s, p) && p.base.id == "" && p.existing == "" && !p.minted
  }

  ghost predicate Chosen(s: State, p: Pass) {
    SnapshotCurrent(s, p) && (p.base.id != "" ==> p.existing == p.base.id)
  }

  ghost predicate Synced(s: State, p: Pass) {
    && Chosen(s, p) && p.target != ""
    && (p.existing != "" ==> p.target == p.existing)
    && (p.minted ==> p.existing == "")
  }

  ghost predicate FrameInv(s: State, p: Pass) {
    match p.pc
    case Locking => !p.minted
    case Reading => !p.minted
    case Making => !p.minted && p.account.key !in s.objects
    case LookingUp => Unchosen(s, p)
    case Detailing => Chosen(s, p) && !p.minted
    case SearchingUid => Unchosen(s, p)
    case SearchingName => Unchosen(s, p)
    case Writing => Chosen(s, p) && !p.minted && (p.existing != "" ==> p.target == p.existing)
    case SyncingTaxIds => Synced(s, p)
    case Publishing => if p.error.StripeFailed? then Chosen(s, p) && !p.minted else Synced(s, p)
    case Returning =>
      !p.minted && (p.result.Ensured? ==>
        p.obj.key == p.account.key && p.result.id != "" && NamedId(s, p.obj) == p.result.id)
  }

  ghost predicate PassInv(s: State, p: Pass) {
    Registered(s, p.account) && FrameInv(s, p)
  }

  ghost predicate LockInv(s: State) {
    && Inv(s.locks)
    && s.passes.Keys == s.locks.stages.Keys
    && (forall t :: t in s.passes ==>
          s.locks.stages[t].key == s.passes[t].account.key &&
          (s.locks.stages[t].Held? <==> s.passes[t].pc != Locking))
  }

  ghost predicate ObjectOk(s: State, k: Key, sc: StripeCustomer) {
    && sc.obj.key == k && sc.obj.serial < s.nextSerial
    && sc.status.id == NamedId(s, sc.obj) && ReadyNamesCustomer(sc.status)
  }

  ghost predicate ObjectInv(s: State) {
    && (forall k :: k in s.objects ==> ObjectOk(s, k, s.objects[k]))
    && (forall o :: o in s.named ==> o.serial < s.nextSerial && s.named[o] != "")
  }

  ghost predicate LogInv(s: State) {
    forall e :: e in s.log && (e.Published? || e.Returned?) ==> e.obj in s.named && s.named[e.obj] == e.id
  }

  ghost predicate PassesInv(s: State) {
    forall t :: t in s.passes ==> PassInv(s, s.passes[t])
  }

  ghost predicate CoreInv(s: State) {
    LockInv(s) && ObjectInv(s) && LogInv(s) && PassesInv(s)
  }

  // ----- one step -----

  /** Two passes that have both got past the lock work on different keys. */
  lemma OneHolder(s: State, t: Tid, u: Tid)
    requires LockInv(s) && t in s.passes && u in s.passes && t != u
    requires s.passes[t].pc != Locking && s.passes[u].pc != Locking
    ensures s.passes[t].account.key != s.passes[u].account.key
  {
    if s.passes[t].account.key == s.passes[u].account.key { MutualExclusion(s.locks, t, u); }
  }

  /** The other passes stay where they are, and pass t keeps its account and stays past the lock. */
  ghost predicate HolderMoves(s: State, s': State, t: Tid) {
    && s'.passes.Keys == s.passes.Keys && t in s.passes
    && (forall u :: u in s.passes && u != t ==> s'.passes[u] == s.passes[u])
    && s'.passes[t].account == s.passes[t].account
    && s.passes[t].pc != Locking && s'.passes[t].pc != Locking
    && s'.registry == s.registry && s'.locks == s.locks && s'.siblings == s.siblings && s.nextSerial <= s'.nextSerial
  }

  /** A key at which no object appears or changes, and nothing is published. */
  ghost predicate Quiet(s: State, s': State, k: Key) {
    && (k in s'.objects ==> k in s.objects && s'.objects[k] == s.objects[k])
    && (forall o: Object :: o.key == k ==> NamedId(s', o) == NamedId(s, o))
  }

  /** A pass's invariant looks at nothing but its own key. */
  lemma Frame(s: State, s': State, p: Pass)
    requires PassInv(s, p) && s'.registry == s.registry && s.nextSerial <= s'.nextSerial
    requires p.pc == Locking || Quiet(s, s', p.account.key)
    ensures PassInv(s', p)
  {}

  lemma HolderKeepsLocks(s: State, s': State, t: Tid)
    requires LockInv(s) && HolderMoves(s, s', t)
    ensures LockInv(s')
  {
    forall u | u in s'.passes
      ensures s'.locks.stages[u].key == s'.passes[u].account.key &&
              (s'.locks.stages[u].Held? <==> s'.passes[u].pc != Locking)
    {
      assert u in s.passes && s'.locks.stages[u] == s.locks.stages[u];
    }
  }

  /** Only the holder of a key's lock adds or changes the key's object. */
  lemma HolderKeepsPasses(s: State, s': State, t: Tid)
    requires LockInv(s) && PassesInv(s) && HolderMoves(s, s', t)
    requires forall k :: k != s.passes[t].account.key ==> Quiet(s, s', k)
    requires PassInv(s', s'.passes[t])
    ensures PassesInv(s')
  {
    forall u | u in s'.passes ensures PassInv(s', s'.passes[u]) {
      if u != t {
        if s.passes[u].pc != Locking { OneHolder(s, t, u); }
        Frame(s, s', s.passes[u]);
      }
    }
  }

  /** When no key is disturbed, every pass that did not move keeps its invariant. */
  lemma BystandersKeep(s: State, s': State)
    requires PassesInv(s) && s'.registry == s.registry && s.nextSerial <= s'.nextSerial
    requires forall k :: Quiet(s, s', k)
    ensures forall u :: u in s.passes ==> PassInv(s', s.passes[u])
  {
    forall u | u in s.passes ensures PassInv(s', s.passes[u]) {
      Frame(s, s', s.passes[u]);
    }
  }

  /** A new pass asks for the lock; nothing else happens. */
  ghost predicate Entered(s: State, s': State, t: Tid, a: Account) {
    && t !in s.passes && t in s'.passes && s'.passes == s.passes[t := s'.passes[t]]
    && s'.passes[t].account == a && s'.passes[t].pc == Locking && !s'.passes[t].minted
    && s'.registry == s.registry && s'.objects == s.objects && s'.nextSerial == s.nextSerial
    && s'.customers == s.customers && s'.siblings == s.siblings && s'.named == s.named && s'.log == s.log
  }

  lemma BeginEnters(s: State, t: Tid, a: Account)
    requires Enabled(s, Begin(t, a))
    ensures Entered(s, DoBegin(s, t, a), t, a) && DoBegin(s, t, a).locks == Request(s.locks, t, a.key)
  {}

  lemma EnteredKeepsLocks(s: State, s': State, t: Tid, a: Account)
    requires LockInv(s) && Entered(s, s', t, a) && t !in s.locks.stages && s'.locks == Request(s.locks, t, a.key)
    ensures LockInv(s')
  {
    RequestInv(s.locks, t, a.key);
    assert s'.locks.stages.Keys == s.locks.stages.Keys + {t};
    assert s'.passes.Keys == s.passes.Keys + {t};
  }

  lemma EnteredKeepsStores(s: State, s': State, t: Tid, a: Account)
    requires ObjectInv(s) && LogInv(s) && Entered(s, s', t, a)
    ensures ObjectInv(s') && LogInv(s')
  {
    forall k | k in s'.objects ensures ObjectOk(s', k, s'.objects[k]) { assert ObjectOk(s, k, s.objects[k]); }
  }

  lemma BeginStep(s: State, t: Tid, a: Account)
    requires CoreInv(s) && Enabled(s, Begin(t, a))
    ensures CoreInv(DoBegin(s, t, a))
  {
    var s' := DoBegin(s, t, a);
    BeginEnters(s, t, a);
    EnteredKeepsLocks(s, s', t, a);
    EnteredKeepsStores(s, s', t, a);
    BystandersKeep(s, s');
  }

  /** What one action of a pass inside `lock` does: it moves on in the lock table and nowhere else. */
  ghost predicate Advances(s: State, s': State, t: Tid) {
    && t in s.passes && s.passes[t].pc == Locking && t in s'.locks.stages
    && s'.passes == s.passes[t := LockPass(s.passes[t], s'.locks.stages[t])]
    && s'.registry == s.registry && s'.objects == s.objects && s'.nextSerial == s.nextSerial
    && s'.customers == s.customers && s'.siblings == s.siblings && s'.named == s.named && s'.log == s.log
  }

  lemma LockAdvances(s: State, t: Tid)
    requires Enabled(s, Lock(t))
    ensures Advances(s, DoLock(s, t), t) && DoLock(s, t).locks == Advance(s.locks, t)
  {}

  lemma AdvancesKeepsLocks(s: State, s': State, t: Tid)
    requires LockInv(s) && Advances(s, s', t) && Inv(s'.locks)
    requires s'.locks.stages.Keys == s.locks.stages.Keys && s'.locks.stages[t].key == s.locks.stages[t].key
    requires forall u :: u in s.locks.stages && u != t ==> s'.locks.stages[u] == s.locks.stages[u]
    ensures LockInv(s')
  {
    assert s'.passes.Keys == s.passes.Keys;
    forall u | u in s'.passes
      ensures s'.locks.stages[u].key == s'.passes[u].account.key &&
              (s'.locks.stages[u].Held? <==> s'.passes[u].pc != Locking)
    {
      assert u in s.passes && u in s.locks.stages;
    }
  }

  lemma AdvancesKeepsPasses(s: State, s': State, t: Tid)
    requires PassesInv(s) && Advances(s, s', t)
    ensures PassesInv(s')
  {
    BystandersKeep(s, s');
    assert PassInv(s, s.passes[t]);
  }

  lemma AdvancesKeepsStores(s: State, s': State, t: Tid)
    requires ObjectInv(s) && LogInv(s) && Advances(s, s', t)
    ensures ObjectInv(s') && LogInv(s')
  {
    forall k | k in s'.objects ensures ObjectOk(s', k, s'.objects[k]) { assert ObjectOk(s, k, s.objects[k]); }
  }

  lemma LockStep(s: State, t: Tid)
    requires CoreInv(s) && Enabled(s, Lock(t))
    ensures CoreInv(DoLock(s, t))
  {
    var s' := DoLock(s, t);
    LockAdvances(s, t);
    AdvanceInv(s.locks, t);
    AdvancesKeepsLocks(s, s', t);
    AdvancesKeepsPasses(s, s', t);
    AdvancesKeepsStores(s, s', t);
  }

  /** Pass t is gone, and with it its place in the lock table; no store changes. */
  ghost predicate Left(s: State, s': State, t: Tid) {
    && t in s.passes && t in s.locks.stages && s'.passes == s.passes - {t} && s'.locks == Drop(s.locks, t)
    && s'.registry == s.registry && s'.objects == s.objects && s'.nextSerial == s.nextSerial
    && s'.customers == s.customers && s'.siblings == s.siblings && s'.named == s.named
  }

  lemma ReturnLeaves(s: State, t: Tid)
    requires Enabled(s, Return(t))
    ensures Left(s, DoReturn(s, t), t) && DoReturn(s, t).log == s.log + ReturnEvents(s.passes[t])
  {}

  lemma AbandonLeaves(s: State, t: Tid)
    requires Enabled(s, Abandon(t))
    ensures Left(s, DoAbandon(s, t), t) && DoAbandon(s, t).log == s.log + AbandonEvents(s.passes[t])
  {}

  lemma LeftKeepsLocks(s: State, s': State, t: Tid)
    requires LockInv(s) && Left(s, s', t)
    ensures LockInv(s')
  {
    DropInv(s.locks, t);
    assert s'.passes.Keys == s.passes.Keys - {t};
    forall u | u in s'.passes
      ensures s'.locks.stages[u].key == s'.passes[u].account.key &&
              (s'.locks.stages[u].Held? <==> s'.passes[u].pc != Locking)
    {
      assert u in s.passes && s'.locks.stages[u] == s.locks.stages[u];
    }
  }

  lemma LeftKeepsObjects(s: State, s': State, t: Tid)
    requires ObjectInv(s) && Left(s, s', t)
    ensures ObjectInv(s')
  {
    forall k | k in s'.objects ensures ObjectOk(s', k, s'.objects[k]) { assert ObjectOk(s, k, s.objects[k]); }
  }

  lemma LeaveStep(s: State, s': State, t: Tid)
    requires CoreInv(s) && Left(s, s', t) && LogInv(s')
    ensures CoreInv(s')
  {
    LeftKeepsLocks(s, s', t);
    LeftKeepsObjects(s, s', t);
    BystandersKeep(s, s');
  }

  /** What a pass returns is what its object has published. */
  lemma LeftKeepsLog(s: State, s': State, t: Tid, events: seq<Event>)
    requires ObjectInv(s) && LogInv(s) && Left(s, s', t) && s'.log == s.log + events
    requires forall e :: e in events && (e.Published? || e.Returned?) ==> e.obj in s.named && s.named[e.obj] == e.id
    ensures LogInv(s')
  {}

  lemma ReturnsNamed(s: State, p: Pass)
    requires PassInv(s, p) && p.pc == Returning
    ensures forall e :: e in ReturnEvents(p) ==> e.Returned? && e.obj in s.named && s.named[e.obj] == e.id
  {}

  lemma ReturnStep(s: State, t: Tid)
    requires CoreInv(s) && Enabled(s, Return(t))
    ensures CoreInv(DoReturn(s, t))
  {
    assert PassInv(s, s.passes[t]);
    ReturnLeaves(s, t);
    ReturnsNamed(s, s.passes[t]);
    LeftKeepsLog(s, DoReturn(s, t), t, ReturnEvents(s.passes[t]));
    LeaveStep(s, DoReturn(s, t), t);
  }

  lemma AbandonStep(s: State, t: Tid)
    requires CoreInv(s) && Enabled(s, Abandon(t))
    ensures CoreInv(DoAbandon(s, t))
  {
    AbandonLeaves(s, t);
    LeftKeepsLog(s, DoAbandon(s, t), t, AbandonEvents(s.passes[t]));
    LeaveStep(s, DoAbandon(s, t), t);
  }

  lemma MakeKeepsObjects(s: State, t: Tid, effect: Effect)
    requires ObjectInv(s) && LogInv(s) && Enabled(s, Make(t, effect)) && PassInv(s, s.passes[t])
    ensures ObjectInv(DoMake(s, t, effect)) && LogInv(DoMake(s, t, effect))
    ensures PassInv(DoMake(s, t, effect), DoMake(s, t, effect).passes[t])
  {}

  lemma MakeQuiet(s: State, t: Tid, effect: Effect)
    requires Enabled(s, Make(t, effect))
    ensures HolderMoves(s, DoMake(s, t, effect), t)
    ensures forall k :: k != s.passes[t].account.key ==> Quiet(s, DoMake(s, t, effect), k)
  {}

  lemma MakeStep(s: State, t: Tid, effect: Effect)
    requires CoreInv(s) && Enabled(s, Make(t, effect))
    ensures CoreInv(DoMake(s, t, effect))
  {
    assert PassInv(s, s.passes[t]);
    MakeKeepsObjects(s, t, effect);
    MakeQuiet(s, t, effect);
    HolderKeepsLocks(s, DoMake(s, t, effect), t);
    HolderKeepsPasses(s, DoMake(s, t, effect), t);
  }

  /** With the server still at the snapshot, the patch leaves exactly what the pass computed. */
  lemma PatchFromCurrent(base: Status, modified: Status)
    ensures MergePatch(base, modified, base) == modified
  {}

  /** What landing a patch does: the object takes the pass's status, and its ID is now named. */
  ghost predicate Landed(s: State, s': State, p: Pass) {
    && s'.objects == s.objects[p.account.key := StripeCustomer(p.obj, Some(p.account.uid), SyncedStatus(p))]
    && s'.nextSerial == s.nextSerial
    && (p.base.id != "" ==> SyncedStatus(p).id == p.base.id)
    && ReadyNamesCustomer(SyncedStatus(p))
    && s'.named == (if SyncedStatus(p).id == "" then s.named else s.named[p.obj := SyncedStatus(p).id])
    && s'.log == (if SyncedStatus(p).id == "" then s.log
                  else s.log + [Published(p.account.uid, p.obj, SyncedStatus(p).id)])
  }

  lemma PatchLands(s: State, t: Tid, effect: Effect)
    requires Enabled(s, Publish(t, effect)) && PassInv(s, s.passes[t]) && Lands(s.passes[t], effect)
    ensures Landed(s, DoPublish(s, t, effect), s.passes[t])
  {
    PatchFromCurrent(s.passes[t].base, SyncedStatus(s.passes[t]));
  }

  lemma LandedKeepsPass(s: State, s': State, p: Pass, effect: Effect)
    requires PassInv(s, p) && p.pc == Publishing && Landed(s, s', p) && s'.registry == s.registry
    ensures PassInv(s', Finished(p, effect))
  {}

  /** Without a patch, the ID returned is one that was published before. */
  lemma MissedKeepsPass(s: State, s': State, p: Pass, effect: Effect)
    requires PassInv(s, p) && p.pc == Publishing && !Lands(p, effect)
    requires s'.named == s.named && s'.registry == s.registry
    ensures PassInv(s', Finished(p, effect))
  {}

  lemma LandedKeepsObjects(s: State, s': State, p: Pass)
    requires ObjectInv(s) && SnapshotCurrent(s, p) && Landed(s, s', p)
    ensures ObjectInv(s')
  {
    forall k | k in s'.objects ensures ObjectOk(s', k, s'.objects[k]) {
      if k != p.account.key { assert ObjectOk(s, k, s.objects[k]); }
    }
  }

  lemma LandedKeepsLog(s: State, s': State, p: Pass)
    requires ObjectInv(s) && LogInv(s) && SnapshotCurrent(s, p) && Landed(s, s', p)
    ensures LogInv(s')
  {}

  lemma LandedQuiet(s: State, s': State, p: Pass)
    requires SnapshotCurrent(s, p) && Landed(s, s', p)
    ensures forall k :: k != p.account.key ==> Quiet(s, s', k)
  {}

  /** What a patch leaves alone, landed or not. */
  ghost predicate PatchKeeps(s: State, s': State) {
    && s'.registry == s.registry && s'.locks == s.locks && s'.siblings == s.siblings
    && s'.nextSerial == s.nextSerial && s'.customers == s.customers
  }

  lemma LandKeeps(s: State, p: Pass)
    requires p.account.key in s.objects
    ensures PatchKeeps(s, Land(s, p)) && Land(s, p).passes == s.passes
  {}

  lemma MissKeeps(s: State, p: Pass)
    ensures PatchKeeps(s, Miss(s, p)) && Miss(s, p).passes == s.passes
  {}

  lemma PublishMoves(s: State, t: Tid, effect: Effect)
    requires Enabled(s, Publish(t, effect))
    ensures HolderMoves(s, DoPublish(s, t, effect), t) && PatchKeeps(s, DoPublish(s, t, effect))
    ensures DoPublish(s, t, effect).passes == s.passes[t := Finished(s.passes[t], effect)]
  {
    var p := s.passes[t];
    if Lands(p, effect) { LandKeeps(s, p); } else { MissKeeps(s, p); }
  }

  /** A patch that is skipped or refused changes neither the objects nor what they have named. */
  lemma PatchMisses(s: State, t: Tid, effect: Effect)
    requires Enabled(s, Publish(t, effect)) && !Lands(s.passes[t], effect)
    ensures var s' := DoPublish(s, t, effect);
      && s'.objects == s.objects && s'.named == s.named && s'.nextSerial == s.nextSerial
      && s'.log == s.log + AbandonEvents(s.passes[t])
  {}

  lemma PublishKeepsRest(s: State, t: Tid, effect: Effect)
    requires ObjectInv(s) && LogInv(s) && Enabled(s, Publish(t, effect)) && PassInv(s, s.passes[t])
    ensures ObjectInv(DoPublish(s, t, effect)) && LogInv(DoPublish(s, t, effect))
    ensures forall k :: k != s.passes[t].account.key ==> Quiet(s, DoPublish(s, t, effect), k)
  {
    var s', p := DoPublish(s, t, effect), s.passes[t];
    if Lands(p, effect) {
      PatchLands(s, t, effect);
      LandedKeepsObjects(s, s', p);
      LandedKeepsLog(s, s', p);
      LandedQuiet(s, s', p);
    } else {
      PatchMisses(s, t, effect);
    }
  }

  lemma PublishKeepsPass(s: State, t: Tid, effect: Effect)
    requires Enabled(s, Publish(t, effect)) && PassInv(s, s.passes[t])
    ensures PassInv(DoPublish(s, t, effect), Finished(s.passes[t], effect))
  {
    PublishMoves(s, t, effect);
    if Lands(s.passes[t], effect) {
      PatchLands(s, t, effect);
      LandedKeepsPass(s, DoPublish(s, t, effect), s.passes[t], effect);
    } else {
      PatchMisses(s, t, effect);
      MissedKeepsPass(s, DoPublish(s, t, effect), s.passes[t], effect);
    }
  }

  lemma PublishStep(s: State, t: Tid, effect: Effect)
    requires CoreInv(s) && Enabled(s, Publish(t, effect))
    ensures CoreInv(DoPublish(s, t, effect))
  {
    assert PassInv(s, s.passes[t]);
    PublishKeepsPass(s, t, effect);
    PublishKeepsRest(s, t, effect);
    PublishMoves(s, t, effect);
    HolderKeepsLocks(s, DoPublish(s, t, effect), t);
    HolderKeepsPasses(s, DoPublish(s, t, effect), t);
  }

  lemma DeleteStep(s: State, key: Key)
    requires CoreInv(s) && Enabled(s, DeleteObject(key))
    ensures CoreInv(DoDelete(s, key))
  {
    BystandersKeep(s, DoDelete(s, key));
  }

  lemma RecordStep(s: State, e: Event)
    requires CoreInv(s) && Enabled(s, RecordSibling(e))
    ensures CoreInv(DoRecord(s, e))
  {
    BystandersKeep(s, DoRecord(s, e));
  }

  /** What the calls between the read and the patch do: pass t moves on, no object or published ID changes. */
  ghost predicate LocalMove(s: State, s': State, t: Tid) {
    && HolderMoves(s, s', t) && PassInv(s', s'.passes[t])
    && s'.objects == s.objects && s'.named == s.named && s'.nextSerial == s.nextSerial
    && (forall e :: e in s'.log && (e.Published? || e.Returned?) ==> e in s.log)
  }

  lemma LocalKeepsStores(s: State, s': State, t: Tid)
    requires ObjectInv(s) && LogInv(s) && LocalMove(s, s', t)
    ensures ObjectInv(s') && LogInv(s')
  {
    forall k | k in s'.objects ensures ObjectOk(s', k, s'.objects[k]) {
      assert ObjectOk(s, k, s.objects[k]);
    }
  }

  lemma LocalKeepsPasses(s: State, s': State, t: Tid)
    requires LockInv(s) && PassesInv(s) && LocalMove(s, s', t)
    ensures PassesInv(s')
  {
    forall k ensures Quiet(s, s', k) {}
    HolderKeepsPasses(s, s', t);
  }

  lemma LocalStep(s: State, s': State, t: Tid)
    requires CoreInv(s) && LocalMove(s, s', t)
    ensures CoreInv(s')
  {
    LocalKeepsStores(s, s', t);
    HolderKeepsLocks(s, s', t);
    LocalKeepsPasses(s, s', t);
  }

  /** No object, publication or lock changes. */
  ghost predicate ApiSame(s: State, s': State) {
    && s'.passes == s.passes && s'.registry == s.registry && s'.locks == s.locks && s'.siblings == s.siblings
    && s'.objects == s.objects && s'.named == s.named && s'.nextSerial == s.nextSerial
    && (forall e :: e in s'.log && (e.Published? || e.Returned?) ==> e in s.log)
  }

  /** Pass t becomes p, in stores that the API server's invariants do not look at. */
  lemma PutIsLocal(s: State, s': State, t: Tid, p: Pass)
    requires ApiSame(s, s') && t in s.passes && s.passes[t].pc != Locking && p.pc != Locking
    requires p.account == s.passes[t].account && PassInv(s, p)
    ensures LocalMove(s, Put(s', t, p), t)
  {
    Frame(s, Put(s', t, p), p);
  }

  /** What the read finds is the pass's snapshot, and it is the server's. */
  lemma ReadKeepsPass(s: State, p: Pass, ok: bool)
    requires PassInv(s, p) && p.pc == Reading && ObjectInv(s)
    ensures PassInv(s, ReadPass(s, p, ok))
  {
    var k := p.account.key;
    if k in s.objects { assert ObjectOk(s, k, s.objects[k]); }
  }

  lemma LookupKeepsPass(s: State, p: Pass, ok: bool, hit: CusId)
    requires PassInv(s, p) && p.pc == LookingUp
    ensures PassInv(s, LookupPass(p, ok, hit))
  {}

  lemma DetailsKeepsPass(s: State, p: Pass, ok: bool)
    requires PassInv(s, p) && p.pc == Detailing
    ensures PassInv(s, DetailsPass(p, ok))
  {
    if ok && p.existing == "" { assert p.base.id == ""; }
  }

  lemma SearchUidKeepsPass(s: State, p: Pass, ok: bool, hit: CusId)
    requires PassInv(s, p) && p.pc == SearchingUid
    ensures PassInv(s, SearchUidPass(p, ok, hit))
  {}

  lemma SearchNameKeepsPass(s: State, p: Pass, ok: bool, hit: CusId)
    requires PassInv(s, p) && p.pc == SearchingName
    ensures PassInv(s, SearchNamePass(p, ok, hit))
  {}

  lemma CreateKeepsPass(s: State, p: Pass, id: CusId, effect: Effect)
    requires PassInv(s, p) && p.pc == Writing && p.target == "" && (effect.Done? ==> id != "")
    ensures PassInv(s, CreatePass(p, id, effect))
  {}

  lemma UpdateKeepsPass(s: State, p: Pass, effect: Effect)
    requires PassInv(s, p) && p.pc == Writing && p.target != ""
    ensures PassInv(s, UpdatePass(p, effect))
  {}

  lemma TaxIdsKeepsPass(s: State, p: Pass, ok: bool)
    requires PassInv(s, p) && p.pc == SyncingTaxIds
    ensures PassInv(s, TaxIdsPass(p, ok))
  {}

  /** The calls between the read and the patch that only read. */
  predicate OnlyReads(a: Action) {
    a.Read? || a.Lookup? || a.Details? || a.SearchUid? || a.SearchName? || a.SyncTaxIds?
  }

  /** What such a call makes of the pass. */
  function NextPass(s: State, a: Action): Pass
    requires OnlyReads(a) && a.t in s.passes
  {
    var p := s.passes[a.t];
    if a.Read? then ReadPass(s, p, a.ok)
    else if a.Lookup? then LookupPass(p, a.ok, a.hit)
    else if a.Details? then DetailsPass(p, a.ok)
    else if a.SearchUid? then SearchUidPass(p, a.ok, a.hit)
    else if a.SearchName? then SearchNamePass(p, a.ok, a.hit)
    else TaxIdsPass(p, a.ok)
  }

  lemma NextPassApplies(s: State, a: Action)
    requires Enabled(s, a) && OnlyReads(a)
    ensures Apply(s, a) == Put(s, a.t, NextPass(s, a))
  {}

  lemma NextPassInv(s: State, a: Action)
    requires Enabled(s, a) && OnlyReads(a) && PassInv(s, s.passes[a.t]) && ObjectInv(s)
    ensures PassInv(s, NextPass(s, a))
    ensures NextPass(s, a).account == s.passes[a.t].account && NextPass(s, a).pc != Locking
    ensures s.passes[a.t].pc != Locking
  {
    var p := s.passes[a.t];
    if a.Read? {
      ReadKeepsPass(s, p, a.ok);
    } else if a.Lookup? {
      LookupKeepsPass(s, p, a.ok, a.hit);
    } else if a.Details? {
      DetailsKeepsPass(s, p, a.ok);
    } else if a.SearchUid? {
      SearchUidKeepsPass(s, p, a.ok, a.hit);
    } else if a.SearchName? {
      SearchNameKeepsPass(s, p, a.ok, a.hit);
    } else {
      TaxIdsKeepsPass(s, p, a.ok);
    }
  }

  lemma OnlyReadsMoves(s: State, a: Action)
    requires Enabled(s, a) && OnlyReads(a) && PassInv(s, s.passes[a.t]) && ObjectInv(s)
    ensures LocalMove(s, Apply(s, a), a.t)
  {
    NextPassInv(s, a);
    NextPassApplies(s, a);
    PutIsLocal(s, s, a.t, NextPass(s, a));
  }

  lemma CreateMoves(s: State, t: Tid, id: CusId, effect: Effect)
    requires Enabled(s, Create(t, id, effect)) && PassInv(s, s.passes[t])
    ensures LocalMove(s, DoCreate(s, t, id, effect), t)
  {
    var p := s.passes[t];
    var s' := if effect.Refused? then s
              else Stamp(s, id, p.account).(log := s.log + Creation(p.account.uid, id, effect));
    CreateKeepsPass(s, p, id, effect);
    PutIsLocal(s, s', t, CreatePass(p, id, effect));
  }

  lemma UpdateMoves(s: State, t: Tid, effect: Effect)
    requires Enabled(s, Update(t, effect)) && PassInv(s, s.passes[t])
    ensures LocalMove(s, DoUpdate(s, t, effect), t)
  {
    var p := s.passes[t];
    UpdateKeepsPass(s, p, effect);
    PutIsLocal(s, if effect.Refused? then s else Stamp(s, p.target, p.account), t, UpdatePass(p, effect));
  }

  lemma MoveHolds(s: State, a: Action)
    requires Enabled(s, a) && PassesInv(s) && ObjectInv(s)
    requires OnlyReads(a) || a.Create? || a.Update?
    ensures LocalMove(s, Apply(s, a), a.t)
  {
    assert PassInv(s, s.passes[a.t]);
    if OnlyReads(a) {
      OnlyReadsMoves(s, a);
    } else if a.Create? {
      CreateMoves(s, a.t, a.id, a.effect);
    } else {
      UpdateMoves(s, a.t, a.effect);
    }
  }

  predicate EntersOrLeaves(a: Action) {
    a.Begin? || a.Lock? || a.Return? || a.Abandon?
  }

  lemma EnterOrLeaveStep(s: State, a: Action)
    requires CoreInv(s) && Enabled(s, a) && EntersOrLeaves(a)
    ensures CoreInv(Apply(s, a))
  {
    if a.Begin? {
      BeginStep(s, a.t, a.account);
    } else if a.Lock? {
      LockStep(s, a.t);
    } else if a.Return? {
      ReturnStep(s, a.t);
    } else {
      AbandonStep(s, a.t);
    }
  }

  /** Every action of any pass, and every outside deletion, keeps the invariant. */
  lemma CoreStep(s: State, a: Action)
    requires CoreInv(s) && Enabled(s, a)
    ensures CoreInv(Apply(s, a))
  {
    if EntersOrLeaves(a) {
      EnterOrLeaveStep(s, a);
    } else if a.Make? {
      MakeStep(s, a.t, a.effect);
    } else if a.Publish? {
      PublishStep(s, a.t, a.effect);
    } else if a.DeleteObject? {
      DeleteStep(s, a.key);
    } else if a.RecordSibling? {
      RecordStep(s, a.event);
    } else {
      MoveHolds(s, a);
      LocalStep(s, Apply(s, a), a.t);
    }
  }

  lemma InitInv(s: State)
    requires Init(s)
    ensures CoreInv(s)
  {}

  /** The invariant holds at every point of every run. */
  lemma {:induction false} RunInv(states: seq<State>, acts: seq<Action>, i: nat)
    requires Execution(states, acts) && i <= |acts|
    ensures CoreInv(states[i])
  {
    if i == 0 {
      InitInv(states[0]);
    } else {
      RunInv(states, acts, i - 1);
      CoreStep(states[i - 1], acts[i - 1]);
    }
  }
}
