/**
 * One Stripe Customer per account: any number of StripeCustomers.Ensure passes over the
 * lock table, the StripeCustomer objects of the API server, the customers Stripe holds and the
 * customer IDs recorded on StripePaymentMethods. A run is a sequence of actions; each remote
 * call is one action and may fail, with or without having taken effect.
 */
module CustomerProtocol {
  import opened Wrappers
  import opened KeyLocks
  import opened Remote

  /** A Stripe `cus_…` identifier; "" is the source's "no customer". */
  type CusId = string

  /** The BillingAccount a pass works for. Kubernetes never reuses a uid. */
  datatype Account = Account(key: Key, uid: string)

  datatype Reason = StripeError | CustomerSynced | Synced | StripeRejected
  datatype Condition = Condition(status: bool, reason: Reason)
  datatype Status = Status(id: CusId, ready: Option<Condition>, taxIds: Option<Condition>)

  /** An API obj: a name can be reused after a deletion, an Object never is. */
  datatype Object = Object(key: Key, serial: nat)
  datatype StripeCustomer = StripeCustomer(obj: Object, owner: Option<string>, status: Status)

  /** The metadata of a Stripe Customer that the search and the adoption rules read. */
  datatype Customer = Customer(account: string, uid: string, organizations: seq<string>)

  datatype Pc =
    | Locking | Reading | Making | LookingUp | Detailing | SearchingUid | SearchingName
    | Writing | SyncingTaxIds | Publishing | Returning
  datatype SyncError = NoError | TaxIdError | StripeFailed
  datatype Result = Pending | Failed | Ensured(id: CusId, taxIdsRejected: bool)

  /**
   * The stack frame of one Ensure call: `obj` and `base` are the StripeCustomer it read,
   * `existing` is Ensure's existingID, `target` the ID EnsureCustomer works on.
   */
  datatype Pass = Pass(
    account: Account, pc: Pc, obj: Object, base: Status,
    existing: CusId, target: CusId, minted: bool, error: SyncError, result: Result)

  datatype Event =
    | Minted(uid: string, id: CusId)
    | Orphaned(uid: string, id: CusId)
    | Published(uid: string, obj: Object, id: CusId)
    | Deleted(owner: Option<string>, obj: Object, id: CusId)
    | Returned(account: Account, obj: Object, id: CusId)

  /**
   * `registry` maps every account uid that ever exists to its key. `named` and `log` are
   * history: the last ID each object published, and what happened. No guard reads them except
   * that only a returned ID is recorded on a StripePaymentMethod.
   */
  datatype State = State(
    registry: map<string, Key>,
    locks: Locks,
    passes: map<Tid, Pass>,
    objects: map<Key, StripeCustomer>,
    nextSerial: nat,
    customers: map<CusId, Customer>,
    siblings: map<Key, set<CusId>>,
    named: map<Object, CusId>,
    log: seq<Event>)

  datatype Action =
    | Begin(t: Tid, account: Account)
    | Lock(t: Tid)
    | Read(t: Tid, ok: bool)
    | Make(t: Tid, effect: Effect)
    | Lookup(t: Tid, ok: bool, hit: CusId)
    | Details(t: Tid, ok: bool)
    | SearchUid(t: Tid, ok: bool, hit: CusId)
    | SearchName(t: Tid, ok: bool, hit: CusId)
    | Create(t: Tid, id: CusId, effect: Effect)
    | Update(t: Tid, effect: Effect)
    | SyncTaxIds(t: Tid, ok: bool)
    | Publish(t: Tid, effect: Effect)
    | Return(t: Tid)
    | Abandon(t: Tid)
    | DeleteObject(key: Key)
    | RecordSibling(event: Event)

  const EMPTY_STATUS := Status("", None, None)

  predicate Registered(s: State, a: Account) {
    a.uid != "" && a.key.name != "" && a.uid in s.registry && s.registry[a.uid] == a.key
  }

  predicate At(s: State, t: Tid, pc: Pc) {
    t in s.passes && s.passes[t].pc == pc
  }

  function Put(s: State, t: Tid, p: Pass): State {
    s.(passes := s.passes[t := p])
  }

  function Failing(p: Pass): Pass {
    p.(pc := Returning, result := Failed)
  }

  // ----- what each call may answer -----

  /** The ID an object has published, or "". */
  function NamedId(s: State, o: Object): CusId {
    if o in s.named then s.named[o] else ""
  }

  function Siblings(s: State, key: Key): set<CusId> {
    if key in s.siblings then s.siblings[key] else {}
  }

  /** The uid search may omit any customer; what it returns carries the uid. */
  predicate UidHit(s: State, a: Account, hit: CusId) {
    hit == "" || (hit in s.customers && s.customers[hit].uid == a.uid)
  }

  /** The legacy search: a customer of that name, with this uid, or untagged and naming the namespace. */
  predicate NameHit(s: State, a: Account, hit: CusId) {
    hit == "" ||
    (hit in s.customers && s.customers[hit].account == a.key.name &&
     if s.customers[hit].uid != "" then s.customers[hit].uid == a.uid
     else a.key.namespace in s.customers[hit].organizations)
  }

  /** The status patchStatus leaves on its in-memory copy. */
  function SyncedStatus(p: Pass): Status {
    if p.error.StripeFailed? then
      p.base.(id := p.existing, ready := Some(Condition(false, StripeError)))
    else
      Status(p.target, Some(Condition(true, CustomerSynced)),
             Some(if p.error.TaxIdError? then Condition(false, StripeRejected) else Condition(true, Synced)))
  }

  /** The patch of a status: the conditions are one list, which goes as a whole or not at all. */
  function MergePatch(base: Status, modified: Status, current: Status): Status {
    var listChanged := base.ready != modified.ready || base.taxIds != modified.taxIds;
    Status(Pick(base.id, modified.id, current.id),
           if listChanged then modified.ready else current.ready,
           if listChanged then modified.taxIds else current.taxIds)
  }

  predicate Enabled(s: State, a: Action) {
    match a
    case Begin(t, account) => t !in s.passes && t !in s.locks.stages && Registered(s, account)
    case Lock(t) => At(s, t, Locking) && CanAdvance(s.locks, t)
    case Read(t, _) => At(s, t, Reading)
    case Make(t, effect) => At(s, t, Making) && (s.passes[t].account.key in s.objects ==> effect.Refused?)
    case Lookup(t, _, hit) => At(s, t, LookingUp) && (hit == "" || hit in Siblings(s, s.passes[t].account.key))
    case Details(t, _) => At(s, t, Detailing)
    case SearchUid(t, _, hit) => At(s, t, SearchingUid) && UidHit(s, s.passes[t].account, hit)
    case SearchName(t, _, hit) => At(s, t, SearchingName) && NameHit(s, s.passes[t].account, hit)
    case Create(t, id, effect) =>
      At(s, t, Writing) && s.passes[t].target == "" && (effect.Refused? || (id != "" && id !in s.customers))
    case Update(t, effect) =>
      At(s, t, Writing) && s.passes[t].target != "" && (s.passes[t].target !in s.customers ==> effect.Refused?)
    case SyncTaxIds(t, _) => At(s, t, SyncingTaxIds)
    case Publish(t, effect) =>
      At(s, t, Publishing) &&
      (SyncedStatus(s.passes[t]) != s.passes[t].base && s.passes[t].account.key !in s.objects ==> effect.Refused?)
    case Return(t) => At(s, t, Returning) && t in s.locks.stages
    case Abandon(t) => t in s.passes && t in s.locks.stages
    case DeleteObject(key) => key in s.objects
    case RecordSibling(e) => e.Returned? && e in s.log
  }

  // ----- what each action does -----

  function DoBegin(s: State, t: Tid, a: Account): State
    requires t !in s.locks.stages
  {
    Put(s.(locks := Request(s.locks, t, a.key)), t,
        Pass(a, Locking, Object(a.key, 0), EMPTY_STATUS, "", "", false, NoError, Pending))
  }

  function LockPass(p: Pass, stage: Stage): Pass {
    if stage.Held? then p.(pc := Reading) else p
  }

  function DoLock(s: State, t: Tid): State
    requires At(s, t, Locking) && CanAdvance(s.locks, t)
  {
    var locks := Advance(s.locks, t);
    Put(s.(locks := locks), t, LockPass(s.passes[t], locks.stages[t]))
  }

  /** getOrCreate's uncached read, its ownership check, and Ensure's first look at the status. */
  function ReadPass(s: State, p: Pass, ok: bool): Pass {
    if !ok then Failing(p)
    else if p.account.key !in s.objects then p.(pc := Making)
    else
      var sc := s.objects[p.account.key];
      if sc.owner != Some(p.account.uid) then Failing(p)
      else p.(pc := if sc.status.id == "" then LookingUp else Detailing,
              obj := sc.obj, base := sc.status, existing := sc.status.id)
  }

  function DoRead(s: State, t: Tid, ok: bool): State
    requires At(s, t, Reading)
  {
    Put(s, t, ReadPass(s, s.passes[t], ok))
  }

  function MakePass(p: Pass, obj: Object, effect: Effect): Pass {
    if effect.Done? then p.(pc := LookingUp, obj := obj, base := EMPTY_STATUS, existing := "") else Failing(p)
  }

  function MakeObject(s: State, a: Account): State {
    s.(objects := s.objects[a.key := StripeCustomer(Object(a.key, s.nextSerial), Some(a.uid), EMPTY_STATUS)],
       nextSerial := s.nextSerial + 1)
  }

  function DoMake(s: State, t: Tid, effect: Effect): State
    requires At(s, t, Making)
  {
    var p := s.passes[t];
    Put(if effect.Refused? then s else MakeObject(s, p.account), t,
        MakePass(p, Object(p.account.key, s.nextSerial), effect))
  }

  function LookupPass(p: Pass, ok: bool, hit: CusId): Pass {
    if ok then p.(pc := Detailing, existing := hit) else Failing(p)
  }

  function DoLookup(s: State, t: Tid, ok: bool, hit: CusId): State
    requires At(s, t, LookingUp)
  {
    Put(s, t, LookupPass(s.passes[t], ok, hit))
  }

  /** EnsureCustomer searches only without an ID, and by uid only when the account has one. */
  function FirstCall(existing: CusId, a: Account): Pc {
    if existing == "" && a.key.name != "" then (if a.uid != "" then SearchingUid else SearchingName) else Writing
  }

  /** buildCustomerDetails, then EnsureCustomer's decision whether to search. */
  function DetailsPass(p: Pass, ok: bool): Pass {
    if ok then p.(pc := FirstCall(p.existing, p.account), target := p.existing) else Failing(p)
  }

  function DoDetails(s: State, t: Tid, ok: bool): State
    requires At(s, t, Detailing)
  {
    Put(s, t, DetailsPass(s.passes[t], ok))
  }

  function StripeFailure(p: Pass): Pass {
    p.(pc := Publishing, error := StripeFailed)
  }

  function SearchUidPass(p: Pass, ok: bool, hit: CusId): Pass {
    if !ok then StripeFailure(p)
    else if hit != "" then p.(pc := Writing, target := hit)
    else p.(pc := SearchingName)
  }

  function DoSearchUid(s: State, t: Tid, ok: bool, hit: CusId): State
    requires At(s, t, SearchingUid)
  {
    Put(s, t, SearchUidPass(s.passes[t], ok, hit))
  }

  function SearchNamePass(p: Pass, ok: bool, hit: CusId): Pass {
    if ok then p.(pc := Writing, target := hit) else StripeFailure(p)
  }

  function DoSearchName(s: State, t: Tid, ok: bool, hit: CusId): State
    requires At(s, t, SearchingName)
  {
    Put(s, t, SearchNamePass(s.passes[t], ok, hit))
  }

  /** The metadata stamped on create and on every update. */
  function Tagged(a: Account): Customer {
    Customer(a.key.name, a.uid, [a.key.namespace])
  }

  function Stamp(s: State, id: CusId, a: Account): State {
    s.(customers := s.customers[id := Tagged(a)])
  }

  /** The events a creation logs. */
  function Creation(uid: string, id: CusId, effect: Effect): seq<Event> {
    match effect
    case Refused => []
    case Done => [Minted(uid, id)]
    case Unacknowledged => [Minted(uid, id), Orphaned(uid, id)]
  }

  function CreatePass(p: Pass, id: CusId, effect: Effect): Pass {
    if effect.Done? then p.(pc := SyncingTaxIds, target := id, minted := true) else StripeFailure(p)
  }

  function DoCreate(s: State, t: Tid, id: CusId, effect: Effect): State
    requires At(s, t, Writing)
  {
    var p := s.passes[t];
    Put(if effect.Refused? then s
        else Stamp(s, id, p.account).(log := s.log + Creation(p.account.uid, id, effect)),
        t, CreatePass(p, id, effect))
  }

  function UpdatePass(p: Pass, effect: Effect): Pass {
    if effect.Done? then p.(pc := SyncingTaxIds) else StripeFailure(p)
  }

  function DoUpdate(s: State, t: Tid, effect: Effect): State
    requires At(s, t, Writing)
  {
    var p := s.passes[t];
    Put(if effect.Refused? then s else Stamp(s, p.target, p.account), t, UpdatePass(p, effect))
  }

  function TaxIdsPass(p: Pass, ok: bool): Pass {
    p.(pc := Publishing, error := if ok then NoError else TaxIdError)
  }

  function DoSyncTaxIds(s: State, t: Tid, ok: bool): State
    requires At(s, t, SyncingTaxIds)
  {
    Put(s, t, TaxIdsPass(s.passes[t], ok))
  }

  predicate Lands(p: Pass, effect: Effect) {
    SyncedStatus(p) != p.base && !effect.Refused?
  }

  /**
   * patchStatus and Ensure's return value. With the status as it was, either nothing is sent or a
   * patch of a condition's message, which may fail like any other.
   */
  function Finished(p: Pass, effect: Effect): Pass {
    p.(pc := Returning, minted := false,
       result := if !effect.Done? || p.error.StripeFailed? then Failed else Ensured(p.target, p.error.TaxIdError?))
  }

  function Land(s: State, p: Pass): State
    requires p.account.key in s.objects
  {
    var sc := s.objects[p.account.key];
    var status := MergePatch(p.base, SyncedStatus(p), sc.status);
    var s' := s.(objects := s.objects[p.account.key := sc.(status := status)]);
    if status.id == "" then s' else
    s'.(named := s.named[sc.obj := status.id], log := s.log + [Published(p.account.uid, sc.obj, status.id)])
  }

  /** The loss of the customer a pass has created and not published. */
  function AbandonEvents(p: Pass): seq<Event> {
    if p.minted then [Orphaned(p.account.uid, p.target)] else []
  }

  /** Without a patch on the server, a customer just created is an orphan. */
  function Miss(s: State, p: Pass): State {
    s.(log := s.log + AbandonEvents(p))
  }

  function DoPublish(s: State, t: Tid, effect: Effect): State
    requires Enabled(s, Publish(t, effect))
  {
    var p := s.passes[t];
    Put(if Lands(p, effect) then Land(s, p) else Miss(s, p), t, Finished(p, effect))
  }

  function Leave(s: State, t: Tid): State
    requires t in s.locks.stages
  {
    s.(passes := s.passes - {t}, locks := Drop(s.locks, t))
  }

  /** What a pass returns. */
  function ReturnEvents(p: Pass): seq<Event> {
    if p.result.Ensured? then [Returned(p.account, p.obj, p.result.id)] else []
  }

  function DoReturn(s: State, t: Tid): State
    requires At(s, t, Returning) && t in s.locks.stages
  {
    Leave(s, t).(log := s.log + ReturnEvents(s.passes[t]))
  }

  /** A recovered panic runs the deferred unlock; a process restart abandons every pass. */
  function DoAbandon(s: State, t: Tid): State
    requires t in s.passes && t in s.locks.stages
  {
    Leave(s, t).(log := s.log + AbandonEvents(s.passes[t]))
  }

  function DoDelete(s: State, key: Key): State
    requires key in s.objects
  {
    var sc := s.objects[key];
    s.(objects := s.objects - {key}, log := s.log + [Deleted(sc.owner, sc.obj, sc.status.id)])
  }

  function DoRecord(s: State, e: Event): State
    requires e.Returned?
  {
    var key := e.account.key;
    s.(siblings := s.siblings[key := Siblings(s, key) + {e.id}])
  }

  function Apply(s: State, a: Action): State
    requires Enabled(s, a)
  {
    match a
    case Begin(t, account) => DoBegin(s, t, account)
    case Lock(t) => DoLock(s, t)
    case Read(t, ok) => DoRead(s, t, ok)
    case Make(t, effect) => DoMake(s, t, effect)
    case Lookup(t, ok, hit) => DoLookup(s, t, ok, hit)
    case Details(t, ok) => DoDetails(s, t, ok)
    case SearchUid(t, ok, hit) => DoSearchUid(s, t, ok, hit)
    case SearchName(t, ok, hit) => DoSearchName(s, t, ok, hit)
    case Create(t, id, effect) => DoCreate(s, t, id, effect)
    case Update(t, effect) => DoUpdate(s, t, effect)
    case SyncTaxIds(t, ok) => DoSyncTaxIds(s, t, ok)
    case Publish(t, effect) => DoPublish(s, t, effect)
    case Return(t) => DoReturn(s, t)
    case Abandon(t) => DoAbandon(s, t)
    case DeleteObject(key) => DoDelete(s, key)
    case RecordSibling(e) => DoRecord(s, e)
  }

  // ----- runs -----

  /** The states that acts lead through, one by one. */
  ghost predicate Steps(states: seq<State>, acts: seq<Action>) {
    && |states| == |acts| + 1
    && (forall i {:trigger acts[i]} :: 0 <= i < |acts| ==>
          Enabled(states[i], acts[i]) && states[i + 1] == Apply(states[i], acts[i]))
  }

  /** A run of the controller from its start. */
  ghost predicate Execution(states: seq<State>, acts: seq<Action>) {
    Steps(states, acts) && Init(states[0])
  }

  /** A controller start: no passes yet, and every object and customer from earlier lives is allowed. */
  ghost predicate Init(s: State) {
    && s.locks == NO_LOCKS && s.passes == map[] && s.log == []
    && (forall k :: k in s.objects ==> s.objects[k].obj.key == k && s.objects[k].obj.serial < s.nextSerial)
    && (forall k :: k in s.objects ==> ReadyNamesCustomer(s.objects[k].status))
    && (forall o :: o in s.named ==> o.key in s.objects && s.objects[o.key].obj == o)
    && (forall k :: k in s.objects ==> s.objects[k].status.id == NamedId(s, s.objects[k].obj))
    && (forall o :: o in s.named ==> s.named[o] != "")
    && "" !in s.customers
    && (forall k :: k in s.siblings ==> "" !in s.siblings[k])
  }

  /** The API's promise for the Ready condition: the status names the customer. */
  predicate ReadyNamesCustomer(status: Status) {
    status.ready.Some? && status.ready.value.status ==> status.id != ""
  }

  lemma StepsSnoc(states: seq<State>, acts: seq<Action>, a: Action)
    requires Steps(states, acts) && Enabled(states[|acts|], a)
    ensures Steps(states + [Apply(states[|acts|], a)], acts + [a])
  {
    var states', acts' := states + [Apply(states[|acts|], a)], acts + [a];
    forall i {:trigger acts'[i]} | 0 <= i < |acts'|
      ensures Enabled(states'[i], acts'[i]) && states'[i + 1] == Apply(states'[i], acts'[i])
    {
      if i < |acts| { assert acts'[i] == acts[i]; }
    }
  }

  lemma StepsConcat(states: seq<State>, acts: seq<Action>, more: seq<State>, rest: seq<Action>)
    requires Steps(states, acts) && Steps(more, rest) && more[0] == states[|acts|]
    ensures Steps(states + more[1..], acts + rest)
  {
    var states', acts' := states + more[1..], acts + rest;
    forall i {:trigger acts'[i]} | 0 <= i < |acts'|
      ensures Enabled(states'[i], acts'[i]) && states'[i + 1] == Apply(states'[i], acts'[i])
    {
      if i < |acts| { assert acts'[i] == acts[i]; } else { assert acts'[i] == rest[i - |acts|]; }
    }
  }
}
