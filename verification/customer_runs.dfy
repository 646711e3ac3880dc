/**
 * Runs that reach a given outcome from any start: an account that gets two customers, and two
 * accounts of one name that end up with the same customer. With them the safety theorems become
 * exact conditions on the start.
 */
module CustomerRuns {
  import opened Wrappers
  import opened KeyLocks
  import opened CustomerProtocol
  import opened CustomerInvariants
  import opened CustomerIsolation
  import opened CustomerTheorems
  import opened Remote

  /** Some run leads from s to s'. */
  ghost predicate Leads(s: State, s': State) {
    exists states: seq<State>, acts: seq<Action> :: Steps(states, acts) && states[0] == s && states[|acts|] == s'
  }

  /** A run from s0, where the invariant holds, has got to s. */
  ghost predicate From(s0: State, s: State) {
    CoreInv(s0) && Leads(s0, s)
  }

  lemma Stays(s: State)
    requires CoreInv(s)
    ensures From(s, s)
  {
    var states: seq<State>, acts: seq<Action> := [s], [];
    assert Steps(states, acts) && states[|acts|] == s;
  }

  lemma {:induction false} StepsInv(states: seq<State>, acts: seq<Action>, i: nat)
    requires Steps(states, acts) && CoreInv(states[0]) && i <= |acts|
    ensures CoreInv(states[i])
  {
    if i > 0 {
      StepsInv(states, acts, i - 1);
      CoreStep(states[i - 1], acts[i - 1]);
    }
  }

  lemma FromInv(s0: State, s: State)
    requires From(s0, s)
    ensures CoreInv(s)
  {
    var states: seq<State>, acts: seq<Action> :| Steps(states, acts) && states[0] == s0 && states[|acts|] == s;
    StepsInv(states, acts, |acts|);
  }

  lemma Extends(s0: State, s: State, a: Action, s': State)
    requires From(s0, s) && Enabled(s, a) && s' == Apply(s, a)
    ensures From(s0, s')
  {
    var states: seq<State>, acts: seq<Action> :| Steps(states, acts) && states[0] == s0 && states[|acts|] == s;
    StepsSnoc(states, acts, a);
    var states', acts' := states + [s'], acts + [a];
    assert Steps(states', acts') && states'[0] == s0 && states'[|acts'|] == s';
  }

  // ----- one Ensure call of thread 0, by itself -----

  ghost predicate Idle(s: State) {
    s.passes == map[]
  }

  /** Only thread 0 is under way. */
  ghost predicate Alone(s: State, pc: Pc, a: Account) {
    s.passes.Keys == {0} && s.passes[0].pc == pc && s.passes[0].account == a
  }

  ghost predicate SameStores(s: State, s': State) {
    && s'.customers == s.customers && s'.siblings == s.siblings && s'.registry == s.registry
    && s'.objects == s.objects && s'.log == s.log
  }

  lemma IdleLocks(s0: State, s: State)
    requires From(s0, s) && Idle(s)
    ensures s.locks.stages == map[] && s.locks.mu == None && s.locks.held == map[]
  {
    FromInv(s0, s);
    assert s.locks.stages.Keys == {};
  }

  lemma Begins(s0: State, s: State, a: Account) returns (s': State)
    requires From(s0, s) && Idle(s) && Registered(s, a)
    ensures From(s0, s') && Alone(s', Locking, a) && SameStores(s, s')
    ensures s'.locks.stages == map[0 := WantTable(a.key)] && s'.locks.mu == None && s'.locks.held == map[]
  {
    IdleLocks(s0, s);
    s' := DoBegin(s, 0, a);
    Extends(s0, s, Begin(0, a), s');
    BeginEnters(s, 0, a);
    assert s'.passes.Keys == {0};
  }

  /** Thread 0 takes one step inside `lock`. */
  lemma Locks(s0: State, s: State, a: Account) returns (s': State)
    requires From(s0, s) && Alone(s, Locking, a) && CanAdvance(s.locks, 0)
    ensures From(s0, s') && SameStores(s, s') && s'.locks == Advance(s.locks, 0)
    ensures Alone(s', if s'.locks.stages[0].Held? then Reading else Locking, a)
  {
    s' := DoLock(s, 0);
    Extends(s0, s, Lock(0), s');
    LockAdvances(s, 0);
  }

  lemma GetsKey(s0: State, s: State, a: Account) returns (s': State)
    requires From(s0, s) && Idle(s) && Registered(s, a)
    ensures From(s0, s') && Alone(s', Reading, a) && SameStores(s, s')
  {
    s' := Begins(s0, s, a);
    s' := Locks(s0, s', a);
    s' := Locks(s0, s', a);
    s' := Locks(s0, s', a);
  }

  /** The account has no StripeCustomer, so the pass makes one. */
  lemma Makes(s0: State, s: State, a: Account) returns (s': State)
    requires From(s0, s) && Alone(s, Reading, a) && a.key !in s.objects
    ensures From(s0, s') && Alone(s', LookingUp, a) && a.key in s'.objects
    ensures s'.customers == s.customers && s'.siblings == s.siblings && s'.registry == s.registry && s'.log == s.log
  {
    var s1 := DoRead(s, 0, true);
    Extends(s0, s, Read(0, true), s1);
    s' := DoMake(s1, 0, Done);
    Extends(s0, s1, Make(0, Done), s');
  }

  lemma Enters(s0: State, s: State, a: Account) returns (s': State)
    requires From(s0, s) && Idle(s) && Registered(s, a) && a.key !in s.objects
    ensures From(s0, s') && Alone(s', LookingUp, a) && a.key in s'.objects
    ensures s'.customers == s.customers && s'.siblings == s.siblings && s'.registry == s.registry && s'.log == s.log
  {
    s' := GetsKey(s0, s, a);
    s' := Makes(s0, s', a);
  }

  /** No sibling recorded an ID, and both searches miss. */
  lemma FindsNothing(s0: State, s: State, a: Account) returns (s': State)
    requires From(s0, s) && Alone(s, LookingUp, a)
    ensures From(s0, s') && Alone(s', Writing, a) && s'.passes[0].target == "" && SameStores(s, s')
  {
    FromInv(s0, s);
    assert Registered(s, a) by { assert PassInv(s, s.passes[0]); }
    var s1 := DoLookup(s, 0, true, "");
    Extends(s0, s, Lookup(0, true, ""), s1);
    s' := DoDetails(s1, 0, true);
    Extends(s0, s1, Details(0, true), s');
    s' := SearchesMiss(s0, s', a);
  }

  lemma SearchesMiss(s0: State, s: State, a: Account) returns (s': State)
    requires From(s0, s) && Alone(s, SearchingUid, a)
    ensures From(s0, s') && Alone(s', Writing, a) && s'.passes[0].target == "" && SameStores(s, s')
  {
    var s1 := DoSearchUid(s, 0, true, "");
    Extends(s0, s, SearchUid(0, true, ""), s1);
    s' := DoSearchName(s1, 0, true, "");
    Extends(s0, s1, SearchName(0, true, ""), s');
  }

  /** An ID Stripe has not given out. */
  lemma FreshId(customers: map<CusId, Customer>) returns (id: CusId)
    ensures id != "" && id !in customers
  {
    var n := LongerThan(customers.Keys);
    id := seq(n + 1, i => 'x');
    assert |id| == n + 1;
  }

  lemma LongerThan(ids: set<CusId>) returns (n: nat)
    ensures forall id :: id in ids ==> |id| <= n
    decreases ids
  {
    if ids == {} {
      n := 0;
    } else {
      var id :| id in ids;
      n := LongerThan(ids - {id});
      if n < |id| { n := |id|; }
    }
  }

  /** The customer exists and carries the account's tags; the pass goes on to publish it. */
  ghost predicate Holding(s: State, a: Account, id: CusId) {
    Alone(s, SyncingTaxIds, a) && a.key in s.objects && s.passes[0].target == id && s.passes[0].base.id == ""
  }

  lemma CreatesNew(s0: State, s: State, a: Account, id: CusId) returns (s': State)
    requires From(s0, s) && Alone(s, Writing, a) && s.passes[0].target == "" && a.key in s.objects
    requires id != "" && id !in s.customers
    ensures From(s0, s') && Holding(s', a, id) && s'.customers == s.customers[id := Tagged(a)]
    ensures s'.siblings == s.siblings && s'.registry == s.registry && s'.log == s.log + [Minted(a.uid, id)]
  {
    assert s.passes[0].base.id == "" by { UnnamedSoFar(s0, s); }
    s' := DoCreate(s, 0, id, Done);
    Extends(s0, s, Create(0, id, Done), s');
  }

  /** A pass that has no ID to write to has read none. */
  lemma UnnamedSoFar(s0: State, s: State)
    requires From(s0, s) && At(s, 0, Writing) && s.passes[0].target == ""
    ensures s.passes[0].base.id == ""
  {
    FromInv(s0, s);
    assert PassInv(s, s.passes[0]);
  }

  lemma LooksUp(s0: State, s: State, a: Account, id: CusId) returns (s': State)
    requires From(s0, s) && Alone(s, LookingUp, a) && id in Siblings(s, a.key) && id != ""
    ensures From(s0, s') && Alone(s', Writing, a) && s'.passes[0].target == id && SameStores(s, s')
    ensures s'.passes[0].base == s.passes[0].base
  {
    var s1 := DoLookup(s, 0, true, id);
    Extends(s0, s, Lookup(0, true, id), s1);
    s' := DoDetails(s1, 0, true);
    Extends(s0, s1, Details(0, true), s');
  }

  lemma Stamps(s0: State, s: State, a: Account, id: CusId) returns (s': State)
    requires From(s0, s) && Alone(s, Writing, a) && s.passes[0].target == id && id != "" && id in s.customers
    ensures From(s0, s') && Alone(s', SyncingTaxIds, a) && s'.passes[0] == UpdatePass(s.passes[0], Done)
    ensures s'.customers == s.customers[id := Tagged(a)] && s'.objects == s.objects
    ensures s'.siblings == s.siblings && s'.registry == s.registry && s'.log == s.log
  {
    s' := DoUpdate(s, 0, Done);
    Extends(s0, s, Update(0, Done), s');
  }

  lemma UnnamedYet(s0: State, s: State)
    requires From(s0, s) && At(s, 0, LookingUp)
    ensures s.passes[0].base.id == ""
  {
    FromInv(s0, s);
    assert PassInv(s, s.passes[0]);
  }

  /** A sibling hands over the customer, and the pass stamps it. */
  lemma Adopts(s0: State, s: State, a: Account, id: CusId) returns (s': State)
    requires From(s0, s) && Alone(s, LookingUp, a) && a.key in s.objects
    requires id in Siblings(s, a.key) && id != "" && id in s.customers
    ensures From(s0, s') && Holding(s', a, id) && s'.customers == s.customers[id := Tagged(a)]
    ensures s'.siblings == s.siblings && s'.registry == s.registry && s'.log == s.log
  {
    UnnamedYet(s0, s);
    s' := LooksUp(s0, s, a, id);
    s' := Stamps(s0, s', a, id);
  }

  lemma SyncsTaxIds(s0: State, s: State, a: Account, id: CusId) returns (s': State)
    requires From(s0, s) && Holding(s, a, id)
    ensures From(s0, s') && Alone(s', Publishing, a) && SameStores(s, s')
    ensures s'.passes[0].target == id && s'.passes[0].base.id == "" && s'.passes[0].error.NoError?
  {
    s' := DoSyncTaxIds(s, 0, true);
    Extends(s0, s, SyncTaxIds(0, true), s');
  }

  /** The pass is about to publish id on an object that has published nothing. */
  ghost predicate FirstPublish(s: State, a: Account, id: CusId) {
    && Alone(s, Publishing, a) && a.key in s.objects && id != ""
    && s.passes[0].target == id && s.passes[0].base.id == "" && s.passes[0].error.NoError?
  }

  lemma FirstPublishReady(s: State, a: Account, id: CusId)
    requires CoreInv(s) && Alone(s, Publishing, a) && a.key in s.objects
    requires s.passes[0].target == id && s.passes[0].base.id == "" && s.passes[0].error.NoError?
    ensures FirstPublish(s, a, id) && PassInv(s, s.passes[0])
  {
    assert PassInv(s, s.passes[0]);
  }

  lemma FirstPublishLands(s: State, a: Account, id: CusId)
    requires FirstPublish(s, a, id)
    ensures Enabled(s, Publish(0, Done)) && Lands(s.passes[0], Done) && SyncedStatus(s.passes[0]).id == id
  {}

  /** What the patch of a fresh object leaves. */
  lemma PatchNames(s: State, s': State, a: Account, id: CusId)
    requires FirstPublish(s, a, id) && Landed(s, s', s.passes[0]) && SyncedStatus(s.passes[0]).id == id
    ensures s'.log == s.log + [Published(a.uid, s.passes[0].obj, id)]
  {}

  lemma Patches(s0: State, s: State, a: Account, id: CusId) returns (s': State)
    requires From(s0, s) && Alone(s, Publishing, a) && a.key in s.objects
    requires s.passes[0].target == id && s.passes[0].base.id == "" && s.passes[0].error.NoError?
    ensures From(s0, s') && s'.passes == s.passes[0 := Finished(s.passes[0], Done)]
    ensures PatchKeeps(s, s') && s'.log == s.log + [Published(a.uid, s.passes[0].obj, id)] && id != ""
  {
    FromInv(s0, s);
    FirstPublishReady(s, a, id);
    FirstPublishLands(s, a, id);
    s' := DoPublish(s, 0, Done);
    Extends(s0, s, Publish(0, Done), s');
    PublishMoves(s, 0, Done);
    PatchLands(s, 0, Done);
    PatchNames(s, s', a, id);
  }

  lemma Publishes(s0: State, s: State, a: Account, id: CusId) returns (s': State)
    requires From(s0, s) && Holding(s, a, id)
    ensures From(s0, s') && Alone(s', Returning, a) && s'.passes[0].result == Ensured(id, false)
    ensures s'.customers == s.customers && s'.siblings == s.siblings && s'.registry == s.registry
    ensures s'.log == s.log + [Published(a.uid, s'.passes[0].obj, id)] && id != ""
  {
    s' := SyncsTaxIds(s0, s, a, id);
    s' := Patches(s0, s', a, id);
  }

  lemma Returns(s0: State, s: State, a: Account, id: CusId) returns (s': State)
    requires From(s0, s) && Alone(s, Returning, a) && s.passes[0].result == Ensured(id, false)
    ensures From(s0, s') && Idle(s')
    ensures s'.customers == s.customers && s'.siblings == s.siblings && s'.registry == s.registry
    ensures s'.log == s.log + [Returned(a, s.passes[0].obj, id)]
  {
    assert 0 in s.locks.stages by { FromInv(s0, s); }
    s' := DoReturn(s, 0);
    Extends(s0, s, Return(0), s');
    ReturnLeaves(s, 0);
  }

  /** The account's StripeCustomer, if there is one, is deleted. */
  lemma Clears(s0: State, s: State, k: Key) returns (s': State)
    requires From(s0, s) && Idle(s)
    ensures From(s0, s') && Idle(s') && k !in s'.objects
    ensures s'.customers == s.customers && s'.siblings == s.siblings && s'.registry == s.registry
    ensures s'.log == s.log || exists e: Event :: e.Deleted? && s'.log == s.log + [e]
  {
    if k in s.objects {
      s' := DoDelete(s, k);
      Extends(s0, s, DeleteObject(k), s');
    } else {
      s' := s;
    }
  }

  /** The returned ID is recorded on a StripePaymentMethod of the account. */
  lemma Records(s0: State, s: State, e: Event) returns (s': State)
    requires From(s0, s) && Idle(s) && e.Returned? && e in s.log
    ensures From(s0, s') && Idle(s') && e.id in Siblings(s', e.account.key)
    ensures s'.customers == s.customers && s'.registry == s.registry && s'.log == s.log
  {
    s' := DoRecord(s, e);
    Extends(s0, s, RecordSibling(e), s');
  }

  // ----- an account with two customers -----

  /** The creation is never acknowledged, and the pass is lost. */
  lemma CreatesOrphan(s0: State, s: State, a: Account) returns (s': State, id: CusId)
    requires From(s0, s) && Idle(s) && Registered(s, a) && a.key !in s.objects
    ensures From(s0, s') && Idle(s') && s'.registry == s.registry
    ensures s'.log == s.log + [Minted(a.uid, id), Orphaned(a.uid, id)]
    ensures id in s'.customers && s'.customers[id].uid == a.uid
  {
    var s1 := Enters(s0, s, a);
    s1 := FindsNothing(s0, s1, a);
    id := FreshId(s1.customers);
    s1 := CreatesUnnoticed(s0, s1, a, id);
    s' := GivesUp(s0, s1);
  }

  lemma CreatesUnnoticed(s0: State, s: State, a: Account, id: CusId) returns (s': State)
    requires From(s0, s) && Alone(s, Writing, a) && s.passes[0].target == ""
    requires id != "" && id !in s.customers
    ensures From(s0, s') && s'.passes.Keys == {0} && !s'.passes[0].minted
    ensures s'.registry == s.registry && s'.log == s.log + [Minted(a.uid, id), Orphaned(a.uid, id)]
    ensures id in s'.customers && s'.customers[id].uid == a.uid
  {
    assert !s.passes[0].minted by {
      FromInv(s0, s);
      assert PassInv(s, s.passes[0]);
    }
    s' := DoCreate(s, 0, id, Unacknowledged);
    Extends(s0, s, Create(0, id, Unacknowledged), s');
  }

  lemma GivesUp(s0: State, s: State) returns (s': State)
    requires From(s0, s) && s.passes.Keys == {0} && !s.passes[0].minted
    ensures From(s0, s') && Idle(s') && s'.registry == s.registry && s'.log == s.log && s'.customers == s.customers
  {
    assert 0 in s.locks.stages by { FromInv(s0, s); }
    s' := DoAbandon(s, 0);
    Extends(s0, s, Abandon(0), s');
    AbandonLeaves(s, 0);
    assert s.log + [] == s.log;
  }

  /** Two customers at Stripe carry the uid. */
  ghost predicate HasTwo(s: State, uid: string) {
    exists id, other :: id in s.customers && other in s.customers && id != other &&
                        s.customers[id].uid == uid && s.customers[other].uid == uid
  }

  /** A run that creates two customers for an account, and leaves both at Stripe. */
  ghost predicate SecondCustomer(states: seq<State>, acts: seq<Action>, uid: string) {
    && Execution(states, acts) && Tally(states[|acts|].log, Mint, uid) == 2
    && HasTwo(states[|acts|], uid)
  }

  lemma CreatesSecond(s0: State, s: State, a: Account, first: CusId) returns (s': State)
    requires From(s0, s) && Idle(s) && Registered(s, a) && Tally(s.log, Mint, a.uid) == 1
    requires first in s.customers && s.customers[first].uid == a.uid
    ensures From(s0, s') && Tally(s'.log, Mint, a.uid) == 2 && HasTwo(s', a.uid)
  {
    var s1 := Clears(s0, s, a.key);
    if s1.log != s.log {
      var e: Event :| e.Deleted? && s1.log == s.log + [e];
      LogEvent(s.log, e, a.uid);
    }
    s1 := Enters(s0, s1, a);
    s1 := FindsNothing(s0, s1, a);
    var id := FreshId(s1.customers);
    s' := CreatesNew(s0, s1, a, id);
    LogEvent(s1.log, Minted(a.uid, id), a.uid);
    assert s'.customers[id].uid == a.uid && s'.customers[first].uid == a.uid;
  }

  /** From every start, for every account, some run creates two customers for it. */
  lemma TwoCustomers(s: State, a: Account)
    requires Init(s) && Registered(s, a)
    ensures exists states: seq<State>, acts: seq<Action> :: SecondCustomer(states, acts, a.uid) && states[0] == s
  {
    InitInv(s);
    Stays(s);
    var s1 := Clears(s, s, a.key);
    if s1.log != s.log {
      var e: Event :| e.Deleted? && s1.log == s.log + [e];
      LogEvent(s.log, e, a.uid);
    }
    var s2, id := CreatesOrphan(s, s1, a);
    CreationTally(s1.log, a.uid, id, Unacknowledged, a.uid);
    var s3 := CreatesSecond(s, s2, a, id);
    var states: seq<State>, acts: seq<Action> :| Steps(states, acts) && states[0] == s && states[|acts|] == s3;
    assert SecondCustomer(states, acts, a.uid);
  }

  // ----- accounts of one name -----

  /** The first account gets a customer, and a StripePaymentMethod records it. */
  lemma FirstAccount(s: State, a: Account) returns (s': State, id: CusId)
    requires CoreInv(s) && Idle(s) && Registered(s, a)
    ensures From(s, s') && Idle(s') && s'.registry == s.registry && id != "" && id in s'.customers
    ensures s'.customers[id] == Tagged(a) && id in Siblings(s', a.key)
    ensures exists o :: Published(a.uid, o, id) in s'.log
  {
    Stays(s);
    var s1 := Clears(s, s, a.key);
    s1 := Enters(s, s1, a);
    s1 := FindsNothing(s, s1, a);
    id := FreshId(s1.customers);
    s1 := CreatesNew(s, s1, a, id);
    s1 := Publishes(s, s1, a, id);
    var o := s1.passes[0].obj;
    assert Published(a.uid, o, id) in s1.log;
    s1 := Returns(s, s1, a, id);
    s' := Records(s, s1, Returned(a, o, id));
    assert Published(a.uid, o, id) in s'.log;
  }

  /** The second account of the name adopts the first one's customer, and publishes it. */
  lemma SecondAccount(s: State, b: Account, id: CusId) returns (s': State)
    requires CoreInv(s) && Idle(s) && Registered(s, b) && id in Siblings(s, b.key) && id != "" && id in s.customers
    ensures From(s, s') && id in s'.customers && s'.customers[id] == Tagged(b)
    ensures exists o :: Published(b.uid, o, id) in s'.log
    ensures forall e :: e in s.log ==> e in s'.log
  {
    Stays(s);
    var s1 := Clears(s, s, b.key);
    s1 := Enters(s, s1, b);
    s1 := Adopts(s, s1, b, id);
    s' := Publishes(s, s1, b, id);
    assert Published(b.uid, s'.passes[0].obj, id) in s'.log;
  }

  lemma Joins(s: State, s1: State, s2: State) returns (states: seq<State>, acts: seq<Action>, i: nat)
    requires Leads(s, s1) && Leads(s1, s2)
    ensures Steps(states, acts) && states[0] == s && i <= |acts| && states[i] == s1 && states[|acts|] == s2
  {
    var first, a :| Steps(first, a) && first[0] == s && first[|a|] == s1;
    var second, b :| Steps(second, b) && second[0] == s1 && second[|b|] == s2;
    StepsConcat(first, a, second, b);
    states, acts, i := first + second[1..], a + b, |a|;
  }

  /** Every run from s keeps every customer's uid, and publishes no customer for two accounts. */
  ghost predicate KeepsApart(s: State) {
    forall states: seq<State>, acts: seq<Action>, i: nat, j: nat ::
      Execution(states, acts) && states[0] == s && i <= j <= |acts| ==>
      TagsKept(states[i], states[j]) && PublishedApart(states[j])
  }

  /** Two accounts of one name, one after the other: the second takes over the first one's customer. */
  lemma SharedKeyRetags(s: State, a: Account, b: Account)
    requires Init(s) && Registered(s, a) && Registered(s, b) && a.key == b.key && a.uid != b.uid
    ensures exists states: seq<State>, acts: seq<Action>, i ::
      Execution(states, acts) && states[0] == s && 0 <= i <= |acts| &&
      !TagsKept(states[i], states[|acts|]) && !PublishedApart(states[|acts|])
  {
    InitInv(s);
    var s1, id := FirstAccount(s, a);
    FromInv(s, s1);
    var s2 := SecondAccount(s1, b, id);
    var states, acts, i := Joins(s, s1, s2);
    assert id in s1.customers && s2.customers[id].uid != s1.customers[id].uid;
    var o :| Published(a.uid, o, id) in s1.log;
    var o' :| Published(b.uid, o', id) in s2.log;
    assert Published(a.uid, o, id) in s2.log;
    assert !TagsKept(states[i], states[|acts|]) && !PublishedApart(states[|acts|]);
  }

  /**
   * Exactly when accounts stay apart in every run: from an untangled start, when no two accounts that
   * ever exist share a namespace and name.
   */
  lemma KeptApartIff(s: State)
    requires Init(s) && Untangled(s)
    ensures KeepsApart(s) <==> OneAccountPerKey(s)
  {
    if OneAccountPerKey(s) {
      forall states: seq<State>, acts: seq<Action>, i: nat, j: nat |
          Execution(states, acts) && states[0] == s && i <= j <= |acts|
        ensures TagsKept(states[i], states[j]) && PublishedApart(states[j])
      {
        NeverRetagged(states, acts, i, j);
        PublishedForOneAccount(states, acts, j);
      }
    } else {
      var a: Account, b: Account :| Registered(s, a) && Registered(s, b) && a.key == b.key && a.uid != b.uid;
      SharedKeyRetags(s, a, b);
    }
  }

  // ----- a StripePaymentMethod that outlived its account -----

  /** A sibling that holds another account's customer is enough for that customer to be taken over. */
  lemma TaintedSiblingRetags(s: State, b: Account, id: CusId)
    requires Init(s) && Registered(s, b) && id in Siblings(s, b.key) && id in s.customers
    requires s.customers[id].uid != "" && s.customers[id].uid != b.uid
    ensures !KeepsApart(s)
  {
    InitInv(s);
    assert id != "";
    var s' := SecondAccount(s, b, id);
    var states: seq<State>, acts: seq<Action> :| Steps(states, acts) && states[0] == s && states[|acts|] == s';
    assert Execution(states, acts);
    assert id in states[0].customers && states[|acts|].customers[id].uid != states[0].customers[id].uid;
  }

  const ORG := Key("organization-acme", "ba-acme")
  const RECREATED := Account(ORG, "uid-new")

  /** A start in which only a sibling's record is left of the account that was there before. */
  const OUTLIVED := State(
    map["uid-new" := ORG], NO_LOCKS, map[], map[], 0,
    map["cus_1" := Customer("ba-acme", "uid-old", ["organization-acme"])],
    map[ORG := {"cus_1"}], map[], [])

  /** One account per key is not enough when a sibling already holds another account's customer. */
  lemma RecreatedAccountRetags()
    ensures Init(OUTLIVED) && LegacyCustomers(OUTLIVED) && ObjectsIso(OUTLIVED) && OneAccountPerKey(OUTLIVED)
    ensures !KeepsApart(OUTLIVED)
  {
    assert Registered(OUTLIVED, RECREATED);
    TaintedSiblingRetags(OUTLIVED, RECREATED, "cus_1");
  }
}
