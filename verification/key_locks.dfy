/**
 * The two-level lock of StripeCustomers.lock (internal/controller/stripe_customers.go:61-71):
 * a table mutex `mu` guards the map from key to per-key mutex and is released before the
 * caller waits on the per-key mutex it found or added.
 */
module KeyLocks {
  import opened Wrappers

  type Tid = nat
  datatype Key = Key(namespace: string, name: string)

  /** Where a caller is inside `lock`. */
  datatype Stage =
    | WantTable(key: Key)
    | InTable(key: Key)
    | WantKey(key: Key, mutex: nat)
    | Held(key: Key, mutex: nat)

  /** `mu` and `held` say who has locked what; mutexes are numbered in allocation order. */
  datatype Locks = Locks(
    mu: Option<Tid>,
    table: map<Key, nat>,
    held: map<nat, Tid>,
    stages: map<Tid, Stage>,
    nextMutex: nat)

  const NO_LOCKS := Locks(None, map[], map[], map[], 0)

  function Request(l: Locks, t: Tid, key: Key): Locks
    requires t !in l.stages
  {
    l.(stages := l.stages[t := WantTable(key)])
  }

  /** A Lock call returns only once the mutex is free; nothing else in `lock` waits. */
  predicate CanAdvance(l: Locks, t: Tid) {
    t in l.stages &&
    match l.stages[t]
    case WantTable(_) => l.mu.None?
    case InTable(_) => true
    case WantKey(_, m) => m !in l.held
    case Held(_, _) => false
  }

  function Advance(l: Locks, t: Tid): Locks
    requires CanAdvance(l, t)
  {
    match l.stages[t]
    case WantTable(k) => l.(mu := Some(t), stages := l.stages[t := InTable(k)])
    case InTable(k) =>
      if k in l.table then
        l.(mu := None, stages := l.stages[t := WantKey(k, l.table[k])])
      else
        l.(mu := None, table := l.table[k := l.nextMutex], nextMutex := l.nextMutex + 1,
           stages := l.stages[t := WantKey(k, l.nextMutex)])
    case WantKey(k, m) => l.(held := l.held[m := t], stages := l.stages[t := Held(k, m)])
  }

  /** Unlock, or the loss of the caller at any stage: whatever it had locked becomes free. */
  function Drop(l: Locks, t: Tid): Locks
    requires t in l.stages
  {
    var rest := l.(stages := l.stages - {t});
    match l.stages[t]
    case InTable(_) => rest.(mu := None)
    case Held(_, m) => rest.(held := l.held - {m})
    case _ => rest
  }

  ghost predicate TableInv(l: Locks) {
    && (forall k :: k in l.table ==> l.table[k] < l.nextMutex)
    && (forall k, k' :: k in l.table && k' in l.table && l.table[k] == l.table[k'] ==> k == k')
  }

  ghost predicate StageInv(l: Locks, t: Tid)
    requires t in l.stages
  {
    match l.stages[t]
    case WantTable(_) => true
    case InTable(_) => l.mu == Some(t)
    case WantKey(k, m) => k in l.table && l.table[k] == m
    case Held(k, m) => k in l.table && l.table[k] == m && m in l.held && l.held[m] == t
  }

  ghost predicate Inv(l: Locks) {
    && TableInv(l)
    && (forall t :: t in l.stages ==> StageInv(l, t))
    && (l.mu.Some? ==> l.mu.value in l.stages && l.stages[l.mu.value].InTable?)
    && (forall m :: m in l.held ==>
          l.held[m] in l.stages && l.stages[l.held[m]].Held? && l.stages[l.held[m]].mutex == m)
  }

  lemma RequestInv(l: Locks, t: Tid, key: Key)
    requires Inv(l) && t !in l.stages
    ensures Inv(Request(l, t, key))
  {
    var l' := Request(l, t, key);
    forall u | u in l'.stages ensures StageInv(l', u) {
      if u != t { assert StageInv(l, u); }
    }
  }

  /** What every step keeps: the keys' mutexes, and everybody else's place. */
  ghost predicate Keeps(l: Locks, l': Locks, t: Tid) {
    && (forall k :: k in l.table ==> k in l'.table && l'.table[k] == l.table[k])
    && l'.stages.Keys == l.stages.Keys && t in l.stages && l'.stages[t].key == l.stages[t].key
    && (forall u :: u in l.stages && u != t ==> l'.stages[u] == l.stages[u])
  }

  lemma TakesTable(l: Locks, t: Tid)
    requires Inv(l) && CanAdvance(l, t) && l.stages[t].WantTable?
    ensures Inv(Advance(l, t)) && Keeps(l, Advance(l, t), t)
  {
    var l' := Advance(l, t);
    forall u | u in l'.stages ensures StageInv(l', u) {
      assert u in l.stages && StageInv(l, u);
    }
  }

  lemma FindsMutex(l: Locks, t: Tid)
    requires Inv(l) && CanAdvance(l, t) && l.stages[t].InTable?
    ensures Inv(Advance(l, t)) && Keeps(l, Advance(l, t), t)
  {
    var l' := Advance(l, t);
    assert StageInv(l, t);
    forall u | u in l'.stages ensures StageInv(l', u) {
      assert u in l.stages && StageInv(l, u);
    }
  }

  lemma TakesMutex(l: Locks, t: Tid)
    requires Inv(l) && CanAdvance(l, t) && l.stages[t].WantKey?
    ensures Inv(Advance(l, t)) && Keeps(l, Advance(l, t), t)
  {
    var l' := Advance(l, t);
    assert StageInv(l, t);
    forall u | u in l'.stages ensures StageInv(l', u) {
      assert u in l.stages && StageInv(l, u);
    }
  }

  /** Every step keeps the invariant, and a key never gets a second mutex. */
  lemma AdvanceInv(l: Locks, t: Tid)
    requires Inv(l) && CanAdvance(l, t)
    ensures Inv(Advance(l, t)) && Keeps(l, Advance(l, t), t)
  {
    if l.stages[t].WantTable? {
      TakesTable(l, t);
    } else if l.stages[t].InTable? {
      FindsMutex(l, t);
    } else {
      TakesMutex(l, t);
    }
  }

  /** Leaving frees only what the caller itself had locked. */
  lemma DropInv(l: Locks, t: Tid)
    requires Inv(l) && t in l.stages
    ensures Inv(Drop(l, t))
    ensures Drop(l, t).stages == l.stages - {t} && Drop(l, t).table == l.table
    ensures Drop(l, t).held == map m | m in l.held && l.held[m] != t :: l.held[m]
    ensures Drop(l, t).mu == if l.mu == Some(t) then None else l.mu
  {
    var l' := Drop(l, t);
    assert StageInv(l, t);
    forall u | u in l'.stages ensures StageInv(l', u) {
      assert u in l.stages && StageInv(l, u);
    }
    forall m | m in l.held && l.held[m] == t ensures m !in l'.held {
      assert l.stages[t] == Held(l.stages[t].key, m);
    }
  }

  /** At most one caller per key is between lock and unlock. */
  lemma MutualExclusion(l: Locks, t: Tid, u: Tid)
    requires Inv(l)
    requires t in l.stages && l.stages[t].Held?
    requires u in l.stages && l.stages[u].Held?
    requires l.stages[t].key == l.stages[u].key
    ensures t == u
  {
    assert StageInv(l, t) && StageInv(l, u);
  }

  /**
   * A caller that cannot move waits for somebody definite: for the owner of the table mutex, who can
   * move, or for the holder of its own key.
   */
  lemma WaitsFor(l: Locks, t: Tid)
    requires Inv(l) && t in l.stages && !l.stages[t].Held? && !CanAdvance(l, t)
    ensures if l.stages[t].WantTable? then l.mu.Some? && CanAdvance(l, l.mu.value)
            else l.stages[t].WantKey? && l.stages[t].mutex in l.held &&
                 var u := l.held[l.stages[t].mutex];
                 u in l.stages && l.stages[u].Held? && l.stages[u].key == l.stages[t].key
  {
    assert StageInv(l, t);
    if l.stages[t].WantKey? {
      var u := l.held[l.stages[t].mutex];
      assert StageInv(l, u);
    }
  }
}
