/**
 * When accounts keep their Stripe Customers apart: from an untangled start in which no two accounts
 * share a namespace and name, the uid stamped on a customer never changes and no customer is
 * published for two accounts.
 */
module CustomerIsolation {
  import opened Wrappers
  import opened KeyLocks
  import opened CustomerProtocol
  import opened Remote
  import opened CustomerInvariants

  ghost predicate Carries(s: State, id: CusId, uid: string) {
    uid != "" && id in s.customers && s.customers[id].uid == uid
  }

  /** Tagged for the account, or untagged and naming exactly this account and namespace. */
  ghost predicate Belongs(s: State, id: CusId, a: Account) {
    id in s.customers &&
    (s.customers[id].uid == a.uid ||
     (s.customers[id].uid == "" && s.customers[id].account == a.key.name &&
      s.customers[id].organizations == [a.key.namespace]))
  }

  ghost predicate PassIso(s: State, p: Pass) {
    && (p.existing != "" ==> Carries(s, p.existing, p.account.uid))
    && match p.pc
       case Writing => p.target == "" || Belongs(s, p.target, p.account)
       case SyncingTaxIds => Carries(s, p.target, p.account.uid)
       case Publishing => p.error.StripeFailed? || Carries(s, p.target, p.account.uid)
       case Returning => p.result.Ensured? ==> Carries(s, p.result.id, p.account.uid)
       case _ => true
  }

  /** Untagged customers come from before the uid key existed and name one organization each. */
  ghost predicate LegacyCustomers(s: State) {
    forall id :: id in s.customers && s.customers[id].uid == "" ==> |s.customers[id].organizations| == 1
  }

  ghost predicate ObjectsIso(s: State) {
    forall k :: k in s.objects && s.objects[k].owner.Some? && s.objects[k].status.id != "" ==>
      Carries(s, s.objects[k].status.id, s.objects[k].owner.value)
  }

  /** Nobody but a registered account's own customer is ever published or returned for it. */
  ghost predicate EventIso(s: State, e: Event) {
    && (e.Published? ==> Carries(s, e.id, e.uid))
    && (e.Returned? ==> Carries(s, e.id, e.account.uid) && Registered(s, e.account))
  }

  ghost predicate LogIso(s: State) {
    forall e :: e in s.log ==> EventIso(s, e)
  }

  ghost predicate PassesIso(s: State) {
    forall t :: t in s.passes ==> PassIso(s, s.passes[t])
  }

  /** What the StripePaymentMethods under a key have recorded belongs to the accounts of that key. */
  ghost predicate SiblingsIso(s: State) {
    forall a: Account, id :: Registered(s, a) && id in Siblings(s, a.key) ==> Carries(s, id, a.uid)
  }

  /** No account was ever deleted and made again under its namespace and name. */
  ghost predicate OneAccountPerKey(s: State) {
    forall a: Account, b: Account :: Registered(s, a) && Registered(s, b) && a.key == b.key ==> a.uid == b.uid
  }

  ghost predicate IsoInv(s: State) {
    LegacyCustomers(s) && ObjectsIso(s) && LogIso(s) && PassesIso(s) && SiblingsIso(s)
  }

  /** Objects, siblings and untagged customers each belong to one account. */
  ghost predicate Untangled(s: State) {
    LegacyCustomers(s) && ObjectsIso(s) && SiblingsIso(s)
  }

  ghost predicate TagsKept(s: State, s': State) {
    forall id :: id in s.customers ==>
      id in s'.customers && (s.customers[id].uid != "" ==> s'.customers[id].uid == s.customers[id].uid)
  }

  // ----- steps that leave Stripe alone -----

  lemma SameCustomers(s: State, s': State, p: Pass)
    requires PassIso(s, p) && s'.customers == s.customers
    ensures PassIso(s', p)
  {}

  /** Neither Stripe nor what the siblings recorded changes, and nothing is published or returned. */
  ghost predicate StoresSame(s: State, s': State) {
    && s'.customers == s.customers && s'.siblings == s.siblings && s'.registry == s.registry
    && (forall e :: e in s'.log && (e.Published? || e.Returned?) ==> e in s.log)
  }

  lemma StoresSameIso(s: State, s': State)
    requires StoresSame(s, s') && LegacyCustomers(s) && LogIso(s) && SiblingsIso(s)
    ensures LegacyCustomers(s') && LogIso(s') && SiblingsIso(s') && TagsKept(s, s')
  {
    forall e | e in s'.log ensures EventIso(s', e) {
      if e.Published? || e.Returned? { assert EventIso(s, e); }
    }
    forall a: Account, id | Registered(s', a) && id in Siblings(s', a.key) ensures Carries(s', id, a.uid) {
      assert Registered(s, a) && id in Siblings(s, a.key);
    }
  }

  /** Pass t moves; customers, objects and publications stay. */
  lemma ReaderIso(s: State, s': State, t: Tid)
    requires IsoInv(s) && LocalMove(s, s', t) && s'.customers == s.customers
    requires PassIso(s', s'.passes[t])
    ensures IsoInv(s') && TagsKept(s, s')
  {
    StoresSameIso(s, s');
    forall u | u in s'.passes ensures PassIso(s', s'.passes[u]) {
      if u != t { SameCustomers(s, s', s.passes[u]); }
    }
  }

  lemma ReadIso(s: State, p: Pass, ok: bool)
    requires ObjectsIso(s) && PassIso(s, p) && p.pc == Reading
    ensures PassIso(s, ReadPass(s, p, ok))
  {}

  lemma LookupIso(s: State, p: Pass, ok: bool, hit: CusId)
    requires SiblingsIso(s) && PassInv(s, p) && PassIso(s, p) && p.pc == LookingUp
    requires hit == "" || hit in Siblings(s, p.account.key)
    ensures PassIso(s, LookupPass(p, ok, hit))
  {
    assert hit != "" ==> Carries(s, hit, p.account.uid);
  }

  lemma DetailsIso(s: State, p: Pass, ok: bool)
    requires PassIso(s, p) && p.pc == Detailing
    ensures PassIso(s, DetailsPass(p, ok))
  {}

  lemma SearchUidIso(s: State, p: Pass, ok: bool, hit: CusId)
    requires PassIso(s, p) && p.pc == SearchingUid && UidHit(s, p.account, hit)
    ensures PassIso(s, SearchUidPass(p, ok, hit))
  {}

  lemma SearchNameIso(s: State, p: Pass, ok: bool, hit: CusId)
    requires LegacyCustomers(s) && PassIso(s, p) && p.pc == SearchingName && NameHit(s, p.account, hit)
    ensures PassIso(s, SearchNamePass(p, ok, hit))
  {
    if ok && hit != "" && s.customers[hit].uid == "" {
      assert s.customers[hit].organizations == [p.account.key.namespace];
    }
  }

  lemma NextIso(s: State, a: Action)
    requires IsoInv(s) && Enabled(s, a) && OnlyReads(a) && PassInv(s, s.passes[a.t])
    ensures PassIso(s, NextPass(s, a))
  {
    var p := s.passes[a.t];
    assert PassIso(s, p);
    if a.Read? {
      ReadIso(s, p, a.ok);
    } else if a.Lookup? {
      LookupIso(s, p, a.ok, a.hit);
    } else if a.Details? {
      DetailsIso(s, p, a.ok);
    } else if a.SearchUid? {
      SearchUidIso(s, p, a.ok, a.hit);
    } else if a.SearchName? {
      SearchNameIso(s, p, a.ok, a.hit);
    }
  }

  lemma OnlyReadsIso(s: State, a: Action)
    requires CoreInv(s) && IsoInv(s) && Enabled(s, a) && OnlyReads(a)
    ensures IsoInv(Apply(s, a)) && TagsKept(s, Apply(s, a))
  {
    assert PassInv(s, s.passes[a.t]);
    NextIso(s, a);
    NextPassApplies(s, a);
    OnlyReadsMoves(s, a);
    SameCustomers(s, Apply(s, a), NextPass(s, a));
    ReaderIso(s, Apply(s, a), a.t);
  }

  // ----- steps that write to Stripe -----

  /** Stamping a customer that carries no other account's uid disturbs nobody's claim. */
  ghost predicate Stamps(s: State, s': State, id: CusId, a: Account) {
    && s'.customers == s.customers[id := Tagged(a)] && s'.objects == s.objects
    && s'.siblings == s.siblings && s'.registry == s.registry
    && (id in s.customers ==> Belongs(s, id, a)) && a.uid != ""
    && (forall e :: e in s'.log && (e.Published? || e.Returned?) ==> e in s.log)
  }

  lemma StampKeepsCarried(s: State, s': State, id: CusId, a: Account, other: CusId, uid: string)
    requires Stamps(s, s', id, a) && Carries(s, other, uid)
    ensures Carries(s', other, uid)
  {}

  lemma StampSiblings(s: State, s': State, id: CusId, a: Account)
    requires SiblingsIso(s) && Stamps(s, s', id, a)
    ensures SiblingsIso(s')
  {
    forall b: Account, other | Registered(s', b) && other in Siblings(s', b.key) ensures Carries(s', other, b.uid) {
      assert Registered(s, b) && other in Siblings(s, b.key);
      StampKeepsCarried(s, s', id, a, other, b.uid);
    }
  }

  lemma StampIso(s: State, s': State, id: CusId, a: Account)
    requires LegacyCustomers(s) && ObjectsIso(s) && LogIso(s) && Stamps(s, s', id, a)
    ensures LegacyCustomers(s') && ObjectsIso(s') && LogIso(s') && TagsKept(s, s')
  {
    forall e | e in s'.log ensures EventIso(s', e) {
      if e.Published? || e.Returned? { assert EventIso(s, e); }
    }
  }

  lemma CreateStamps(s: State, t: Tid, id: CusId, effect: Effect)
    requires Enabled(s, Create(t, id, effect)) && PassInv(s, s.passes[t]) && !effect.Refused?
    ensures Stamps(s, DoCreate(s, t, id, effect), id, s.passes[t].account)
  {}

  lemma CreatePassesIso(s: State, t: Tid, id: CusId, effect: Effect)
    requires PassesIso(s) && Enabled(s, Create(t, id, effect)) && PassInv(s, s.passes[t])
    ensures PassesIso(DoCreate(s, t, id, effect))
  {
    var s' := DoCreate(s, t, id, effect);
    CreateAddsCustomer(s, t, id, effect);
    assert PassIso(s, s.passes[t]);
    forall u | u in s'.passes ensures PassIso(s', s'.passes[u]) {
      assert PassIso(s, s.passes[u]);
    }
  }

  lemma CreateAddsCustomer(s: State, t: Tid, id: CusId, effect: Effect)
    requires Enabled(s, Create(t, id, effect))
    ensures forall i :: i in s.customers ==>
              i in DoCreate(s, t, id, effect).customers && DoCreate(s, t, id, effect).customers[i] == s.customers[i]
  {}

  /** A write Stripe refused changes neither stores nor log. */
  lemma RefusedWrite(s: State, s': State)
    requires IsoInv(s) && StoresSame(s, s') && s'.objects == s.objects
    ensures LegacyCustomers(s') && ObjectsIso(s') && LogIso(s') && SiblingsIso(s') && TagsKept(s, s')
  {
    StoresSameIso(s, s');
  }

  lemma CreateIso(s: State, t: Tid, id: CusId, effect: Effect)
    requires CoreInv(s) && IsoInv(s) && Enabled(s, Create(t, id, effect))
    ensures IsoInv(DoCreate(s, t, id, effect)) && TagsKept(s, DoCreate(s, t, id, effect))
  {
    assert PassInv(s, s.passes[t]);
    CreatePassesIso(s, t, id, effect);
    if !effect.Refused? {
      CreateStamps(s, t, id, effect);
      StampIso(s, DoCreate(s, t, id, effect), id, s.passes[t].account);
      StampSiblings(s, DoCreate(s, t, id, effect), id, s.passes[t].account);
    } else {
      RefusedWrite(s, DoCreate(s, t, id, effect));
    }
  }

  ghost predicate MayStamp(s: State, s': State, id: CusId, a: Account) {
    s'.customers == s.customers || s'.customers == s.customers[id := Tagged(a)]
  }

  /** Stamping leaves alone what another account already carries, or a claim on another key. */
  lemma StampKeepsClaims(s: State, s': State, id: CusId, a: Account, other: CusId, b: Account)
    requires Belongs(s, id, a) && MayStamp(s, s', id, a) && a.uid != "" && b.uid != ""
    ensures Carries(s, other, b.uid) ==> Carries(s', other, b.uid)
    ensures Belongs(s, other, b) && a.key != b.key ==> Belongs(s', other, b)
  {
    if id == other && Belongs(s, other, b) && s.customers[id].uid == "" {
      assert s.customers[id].organizations[0] == a.key.namespace == b.key.namespace;
    }
  }

  lemma BystanderIso(s: State, s': State, id: CusId, a: Account, q: Pass)
    requires Belongs(s, id, a) && MayStamp(s, s', id, a) && a.uid != "" && q.account.uid != ""
    requires PassIso(s, q) && (q.pc == Writing ==> a.key != q.account.key)
    ensures PassIso(s', q)
  {
    StampKeepsClaims(s, s', id, a, q.existing, q.account);
    StampKeepsClaims(s, s', id, a, q.target, q.account);
    if q.result.Ensured? { StampKeepsClaims(s, s', id, a, q.result.id, q.account); }
  }

  /** The customer a pass is about to update has no other owner, and no other pass after it. */
  lemma UpdateTarget(s: State, s': State, t: Tid, u: Tid)
    requires LockInv(s) && PassesInv(s) && PassesIso(s)
    requires At(s, t, Writing) && s.passes[t].target != "" && u in s.passes && u != t
    requires MayStamp(s, s', s.passes[t].target, s.passes[t].account)
    ensures PassIso(s', s.passes[u])
  {
    var p, q := s.passes[t], s.passes[u];
    assert PassIso(s, p) && PassIso(s, q) && PassInv(s, p) && PassInv(s, q);
    if q.pc == Writing { OneHolder(s, t, u); }
    BystanderIso(s, s', p.target, p.account, q);
  }

  lemma UpdateMayStamp(s: State, t: Tid, effect: Effect)
    requires Enabled(s, Update(t, effect))
    ensures MayStamp(s, DoUpdate(s, t, effect), s.passes[t].target, s.passes[t].account)
    ensures DoUpdate(s, t, effect).passes.Keys == s.passes.Keys
    ensures forall u :: u in s.passes && u != t ==> DoUpdate(s, t, effect).passes[u] == s.passes[u]
  {}

  lemma UpdateOwnIso(s: State, t: Tid, effect: Effect)
    requires Enabled(s, Update(t, effect)) && PassIso(s, s.passes[t]) && PassInv(s, s.passes[t])
    ensures PassIso(DoUpdate(s, t, effect), DoUpdate(s, t, effect).passes[t])
  {}

  lemma UpdatePassesIso(s: State, t: Tid, effect: Effect)
    requires CoreInv(s) && IsoInv(s) && Enabled(s, Update(t, effect))
    ensures PassesIso(DoUpdate(s, t, effect))
  {
    var s' := DoUpdate(s, t, effect);
    assert PassIso(s, s.passes[t]) && PassInv(s, s.passes[t]);
    UpdateMayStamp(s, t, effect);
    UpdateOwnIso(s, t, effect);
    forall u | u in s'.passes ensures PassIso(s', s'.passes[u]) {
      if u != t { UpdateTarget(s, s', t, u); }
    }
  }

  lemma UpdateStamps(s: State, t: Tid, effect: Effect)
    requires CoreInv(s) && IsoInv(s) && Enabled(s, Update(t, effect)) && !effect.Refused?
    ensures Stamps(s, DoUpdate(s, t, effect), s.passes[t].target, s.passes[t].account)
  {
    assert PassIso(s, s.passes[t]) && PassInv(s, s.passes[t]);
  }

  lemma UpdateIso(s: State, t: Tid, effect: Effect)
    requires CoreInv(s) && IsoInv(s) && Enabled(s, Update(t, effect))
    ensures IsoInv(DoUpdate(s, t, effect)) && TagsKept(s, DoUpdate(s, t, effect))
  {
    UpdatePassesIso(s, t, effect);
    if !effect.Refused? {
      UpdateStamps(s, t, effect);
      StampIso(s, DoUpdate(s, t, effect), s.passes[t].target, s.passes[t].account);
      StampSiblings(s, DoUpdate(s, t, effect), s.passes[t].target, s.passes[t].account);
    } else {
      RefusedWrite(s, DoUpdate(s, t, effect));
    }
  }

  // ----- steps that write to the API server -----

  /** What lands belongs to the pass's account, in the object and in the log. */
  lemma LandedIso(s: State, s': State, t: Tid)
    requires t in s.passes && PassIso(s, s.passes[t]) && s.passes[t].pc == Publishing
    requires PassInv(s, s.passes[t]) && ObjectsIso(s) && LogIso(s)
    requires Landed(s, s', s.passes[t]) && s'.customers == s.customers && s'.registry == s.registry
    ensures ObjectsIso(s') && LogIso(s')
  {
    var p := s.passes[t];
    forall e | e in s'.log ensures EventIso(s', e) {
      if e in s.log { assert EventIso(s, e); }
    }
  }

  lemma FinishedIso(s: State, p: Pass, effect: Effect)
    requires PassIso(s, p) && p.pc == Publishing
    ensures PassIso(s, Finished(p, effect))
  {}

  lemma PublishPassesIso(s: State, t: Tid, effect: Effect)
    requires PassesIso(s) && Enabled(s, Publish(t, effect))
    ensures PassesIso(DoPublish(s, t, effect))
  {
    var s' := DoPublish(s, t, effect);
    assert PassIso(s, s.passes[t]);
    PublishMoves(s, t, effect);
    FinishedIso(s, s.passes[t], effect);
    forall u | u in s'.passes ensures PassIso(s', s'.passes[u]) {
      SameCustomers(s, s', if u == t then Finished(s.passes[t], effect) else s.passes[u]);
    }
  }

  lemma MissedIso(s: State, s': State, p: Pass)
    requires ObjectsIso(s) && LegacyCustomers(s) && LogIso(s) && SiblingsIso(s)
    requires PatchKeeps(s, s') && s'.objects == s.objects && s'.log == s.log + AbandonEvents(p)
    ensures ObjectsIso(s') && LogIso(s')
  {
    StoresSameIso(s, s');
  }

  lemma PublishStoresIso(s: State, t: Tid, effect: Effect)
    requires CoreInv(s) && IsoInv(s) && Enabled(s, Publish(t, effect))
    ensures ObjectsIso(DoPublish(s, t, effect)) && LogIso(DoPublish(s, t, effect))
  {
    assert PassInv(s, s.passes[t]) && PassIso(s, s.passes[t]);
    PublishMoves(s, t, effect);
    if Lands(s.passes[t], effect) {
      PatchLands(s, t, effect);
      LandedIso(s, DoPublish(s, t, effect), t);
    } else {
      PatchMisses(s, t, effect);
      MissedIso(s, DoPublish(s, t, effect), s.passes[t]);
    }
  }

  lemma SiblingsSame(s: State, s': State)
    requires SiblingsIso(s) && s'.customers == s.customers && s'.siblings == s.siblings && s'.registry == s.registry
    ensures SiblingsIso(s') && TagsKept(s, s')
  {
    forall a: Account, id | Registered(s', a) && id in Siblings(s', a.key) ensures Carries(s', id, a.uid) {
      assert Registered(s, a) && id in Siblings(s, a.key);
    }
  }

  lemma PublishIso(s: State, t: Tid, effect: Effect)
    requires CoreInv(s) && IsoInv(s) && Enabled(s, Publish(t, effect))
    ensures IsoInv(DoPublish(s, t, effect)) && TagsKept(s, DoPublish(s, t, effect))
  {
    PublishPassesIso(s, t, effect);
    PublishStoresIso(s, t, effect);
    PublishMoves(s, t, effect);
    SiblingsSame(s, DoPublish(s, t, effect));
  }

  lemma DeleteIso(s: State, key: Key)
    requires IsoInv(s) && Enabled(s, DeleteObject(key))
    ensures IsoInv(DoDelete(s, key)) && TagsKept(s, DoDelete(s, key))
  {
    var s' := DoDelete(s, key);
    StoresSameIso(s, s');
    forall u | u in s'.passes ensures PassIso(s', s'.passes[u]) { SameCustomers(s, s', s.passes[u]); }
  }

  /** With one account per key, what a StripePaymentMethod records is that account's own. */
  lemma RecordedSiblings(s: State, e: Event)
    requires SiblingsIso(s) && OneAccountPerKey(s) && Enabled(s, RecordSibling(e)) && EventIso(s, e)
    ensures SiblingsIso(DoRecord(s, e))
  {
    var s' := DoRecord(s, e);
    forall a: Account, id | Registered(s', a) && id in Siblings(s', a.key) ensures Carries(s', id, a.uid) {
      assert Registered(s, a) && Registered(s, e.account);
      if id !in Siblings(s, a.key) { assert a.key == e.account.key && id == e.id; }
    }
  }

  lemma RecordIso(s: State, e: Event)
    requires IsoInv(s) && OneAccountPerKey(s) && Enabled(s, RecordSibling(e))
    ensures IsoInv(DoRecord(s, e)) && TagsKept(s, DoRecord(s, e))
  {
    var s' := DoRecord(s, e);
    RecordedSiblings(s, e);
    forall u | u in s'.passes ensures PassIso(s', s'.passes[u]) { SameCustomers(s, s', s.passes[u]); }
    forall x | x in s'.log ensures EventIso(s', x) { assert EventIso(s, x); }
  }

  lemma MakeIso(s: State, t: Tid, effect: Effect)
    requires IsoInv(s) && Enabled(s, Make(t, effect))
    ensures IsoInv(DoMake(s, t, effect)) && TagsKept(s, DoMake(s, t, effect))
  {
    var s' := DoMake(s, t, effect);
    StoresSameIso(s, s');
    forall u | u in s'.passes ensures PassIso(s', s'.passes[u]) {
      assert PassIso(s, s.passes[u]);
    }
  }

  /** Starting, locking and ending a pass touches neither Stripe nor the API server. */
  lemma EnteredIso(s: State, s': State, t: Tid, a: Account)
    requires IsoInv(s) && Entered(s, s', t, a) && PassIso(s, s'.passes[t])
    ensures IsoInv(s') && TagsKept(s, s')
  {
    StoresSameIso(s, s');
    forall u | u in s'.passes ensures PassIso(s', s'.passes[u]) {
      SameCustomers(s, s', if u == t then s'.passes[t] else s.passes[u]);
    }
  }

  lemma BeginIso(s: State, t: Tid, a: Account)
    requires IsoInv(s) && Enabled(s, Begin(t, a))
    ensures IsoInv(DoBegin(s, t, a)) && TagsKept(s, DoBegin(s, t, a))
  {
    BeginEnters(s, t, a);
    EnteredIso(s, DoBegin(s, t, a), t, a);
  }

  lemma AdvancesIso(s: State, s': State, t: Tid)
    requires IsoInv(s) && Advances(s, s', t) && StoresSame(s, s')
    ensures IsoInv(s') && TagsKept(s, s')
  {
    StoresSameIso(s, s');
    forall u | u in s'.passes ensures PassIso(s', s'.passes[u]) { SameCustomers(s, s', s.passes[u]); }
  }

  lemma LockIso(s: State, t: Tid)
    requires IsoInv(s) && Enabled(s, Lock(t))
    ensures IsoInv(DoLock(s, t)) && TagsKept(s, DoLock(s, t))
  {
    LockAdvances(s, t);
    AdvancesIso(s, DoLock(s, t), t);
  }

  lemma LeaveIso(s: State, s': State, t: Tid)
    requires IsoInv(s) && Left(s, s', t) && LogIso(s')
    ensures IsoInv(s') && TagsKept(s, s')
  {
    SiblingsSame(s, s');
    forall u | u in s'.passes ensures PassIso(s', s'.passes[u]) { SameCustomers(s, s', s.passes[u]); }
  }

  lemma LeftLogIso(s: State, s': State, t: Tid, events: seq<Event>)
    requires LogIso(s) && Left(s, s', t) && s'.log == s.log + events
    requires forall e :: e in events ==> EventIso(s, e)
    ensures LogIso(s')
  {
    forall e | e in s'.log ensures EventIso(s', e) {
      assert e in s.log || e in events;
      assert EventIso(s, e);
    }
  }

  /** What a pass returns carries its account's uid. */
  lemma ReturnsIso(s: State, p: Pass)
    requires PassInv(s, p) && PassIso(s, p) && p.pc == Returning
    ensures forall e :: e in ReturnEvents(p) ==> EventIso(s, e)
  {}

  lemma ReturnIso(s: State, t: Tid)
    requires CoreInv(s) && IsoInv(s) && Enabled(s, Return(t))
    ensures IsoInv(DoReturn(s, t)) && TagsKept(s, DoReturn(s, t))
  {
    assert PassInv(s, s.passes[t]) && PassIso(s, s.passes[t]);
    ReturnLeaves(s, t);
    ReturnsIso(s, s.passes[t]);
    LeftLogIso(s, DoReturn(s, t), t, ReturnEvents(s.passes[t]));
    LeaveIso(s, DoReturn(s, t), t);
  }

  lemma AbandonIso(s: State, t: Tid)
    requires IsoInv(s) && Enabled(s, Abandon(t))
    ensures IsoInv(DoAbandon(s, t)) && TagsKept(s, DoAbandon(s, t))
  {
    AbandonLeaves(s, t);
    LeftLogIso(s, DoAbandon(s, t), t, AbandonEvents(s.passes[t]));
    LeaveIso(s, DoAbandon(s, t), t);
  }

  lemma EnterOrLeaveIso(s: State, a: Action)
    requires CoreInv(s) && IsoInv(s) && Enabled(s, a) && EntersOrLeaves(a)
    ensures IsoInv(Apply(s, a)) && TagsKept(s, Apply(s, a))
  {
    if a.Begin? {
      BeginIso(s, a.t, a.account);
    } else if a.Lock? {
      LockIso(s, a.t);
    } else if a.Return? {
      ReturnIso(s, a.t);
    } else {
      AbandonIso(s, a.t);
    }
  }

  /** With one account per key, every action keeps accounts apart. */
  lemma IsoStep(s: State, a: Action)
    requires CoreInv(s) && IsoInv(s) && OneAccountPerKey(s) && Enabled(s, a)
    ensures IsoInv(Apply(s, a)) && TagsKept(s, Apply(s, a))
  {
    if EntersOrLeaves(a) {
      EnterOrLeaveIso(s, a);
    } else if a.Make? {
      MakeIso(s, a.t, a.effect);
    } else if a.Create? {
      CreateIso(s, a.t, a.id, a.effect);
    } else if a.Update? {
      UpdateIso(s, a.t, a.effect);
    } else if a.Publish? {
      PublishIso(s, a.t, a.effect);
    } else if OnlyReads(a) {
      OnlyReadsIso(s, a);
    } else if a.DeleteObject? {
      DeleteIso(s, a.key);
    } else {
      RecordIso(s, a.event);
    }
  }

  // ----- whole runs -----

  lemma RegistryEnterOrLeave(s: State, a: Action)
    requires Enabled(s, a) && EntersOrLeaves(a)
    ensures Apply(s, a).registry == s.registry
  {
    if a.Begin? {
      BeginEnters(s, a.t, a.account);
    } else if a.Lock? {
      LockAdvances(s, a.t);
    } else if a.Return? {
      ReturnLeaves(s, a.t);
    } else {
      AbandonLeaves(s, a.t);
    }
  }

  lemma RegistryStep(s: State, a: Action)
    requires CoreInv(s) && Enabled(s, a)
    ensures Apply(s, a).registry == s.registry
  {
    if EntersOrLeaves(a) {
      RegistryEnterOrLeave(s, a);
    } else if a.Make? {
      MakeQuiet(s, a.t, a.effect);
    } else if a.Publish? {
      PublishMoves(s, a.t, a.effect);
    } else if !a.DeleteObject? && !a.RecordSibling? {
      MoveHolds(s, a);
    }
  }

  lemma {:induction false} RunIso(states: seq<State>, acts: seq<Action>, i: nat)
    requires Execution(states, acts) && Untangled(states[0]) && OneAccountPerKey(states[0]) && i <= |acts|
    ensures IsoInv(states[i]) && states[i].registry == states[0].registry && OneAccountPerKey(states[i])
  {
    if i > 0 {
      RunInv(states, acts, i - 1);
      RunIso(states, acts, i - 1);
      RegistryStep(states[i - 1], acts[i - 1]);
      IsoStep(states[i - 1], acts[i - 1]);
      SameRegistry(states[0], states[i]);
    }
  }

  lemma SameRegistry(s: State, s': State)
    requires OneAccountPerKey(s) && s'.registry == s.registry
    ensures OneAccountPerKey(s')
  {
    forall a: Account, b: Account | Registered(s', a) && Registered(s', b) && a.key == b.key ensures a.uid == b.uid {
      assert Registered(s, a) && Registered(s, b);
    }
  }

  /** A customer stamped with an account's uid keeps that uid for the rest of the run. */
  lemma {:induction false} NeverRetagged(states: seq<State>, acts: seq<Action>, i: nat, j: nat)
    requires Execution(states, acts) && Untangled(states[0]) && OneAccountPerKey(states[0]) && i <= j <= |acts|
    ensures TagsKept(states[i], states[j])
  {
    if i < j {
      NeverRetagged(states, acts, i, j - 1);
      RunInv(states, acts, j - 1);
      RunIso(states, acts, j - 1);
      IsoStep(states[j - 1], acts[j - 1]);
    }
  }

  /** The StripeCustomer under k has an owner and publishes id. */
  predicate LiveId(s: State, k: Key, id: CusId)
    requires k in s.objects
  {
    s.objects[k].owner.Some? && s.objects[k].status.id == id && id != ""
  }

  /** No ID was ever published for two accounts, or for one while another's live object has it. */
  ghost predicate PublishedApart(s: State) {
    && (forall e, e' :: e in s.log && e' in s.log && e.Published? && e'.Published? && e.id == e'.id ==> e.uid == e'.uid)
    && (forall e, k :: e in s.log && e.Published? && k in s.objects && LiveId(s, k, e.id) ==>
          s.objects[k].owner.value == e.uid)
  }

  /** No customer is ever published for two accounts, whether their StripeCustomers are live or gone. */
  lemma PublishedForOneAccount(states: seq<State>, acts: seq<Action>, i: nat)
    requires Execution(states, acts) && Untangled(states[0]) && OneAccountPerKey(states[0]) && i <= |acts|
    ensures PublishedApart(states[i])
  {
    RunIso(states, acts, i);
    forall e | e in states[i].log && e.Published? ensures Carries(states[i], e.id, e.uid) {
      assert EventIso(states[i], e);
    }
  }
}
