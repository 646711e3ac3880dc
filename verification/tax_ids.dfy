/**
 * reconcileTaxIDs (internal/stripe/client.go:361-407): list the customer's tax IDs, create the
 * missing ones, delete the unwanted ones, with any call failing. Upstream may hold a key twice;
 * the listing order and the order of Go's map iteration are arbitrary.
 */
module TaxIds {
  import opened Remote

  type Key = string
  type TxId = nat

  /** What Stripe holds for the customer: `txi_…` ids and the type=value key of each. */
  type Upstream = map<TxId, Key>

  datatype TaxId = TaxId(taxType: string, value: string)
  datatype Outcome = Synced | ListFailed | CreateFailed | DeleteFailed

  function KeyOf(t: TaxId): Key {
    t.taxType + "=" + t.value
  }

  /** What comes before the first '='. */
  function BeforeEquals(s: string): string {
    if s == [] || s[0] == '=' then [] else [s[0]] + BeforeEquals(s[1..])
  }

  lemma {:induction false} TypeFirst(taxType: string, value: string)
    requires '=' !in taxType
    ensures BeforeEquals(taxType + "=" + value) == taxType
  {
    var s := taxType + "=" + value;
    if taxType != [] {
      TypeFirst(taxType[1..], value);
      assert s[1..] == taxType[1..] + "=" + value;
    }
  }

  /** Stripe's types hold no '=', so a key stands for one tax ID. */
  lemma KeysDistinct(t: TaxId, u: TaxId)
    requires '=' !in t.taxType && '=' !in u.taxType
    ensures KeyOf(t) == KeyOf(u) <==> t == u
  {
    TypeFirst(t.taxType, t.value);
    TypeFirst(u.taxType, u.value);
    assert KeyOf(t)[|t.taxType| + 1..] == t.value && KeyOf(u)[|u.taxType| + 1..] == u.value;
  }

  lemma SharesKey(t: TaxId) returns (u: TaxId)
    requires '=' in t.taxType || '=' in t.value
    ensures u != t && KeyOf(u) == KeyOf(t)
  {
    if '=' in t.taxType {
      var i :| 0 <= i < |t.taxType| && t.taxType[i] == '=';
      u := TaxId(t.taxType[..i], t.taxType[i + 1..] + "=" + t.value);
      assert t.taxType == t.taxType[..i] + "=" + t.taxType[i + 1..];
    } else {
      var i :| 0 <= i < |t.value| && t.value[i] == '=';
      u := TaxId(t.taxType + "=" + t.value[..i], t.value[i + 1..]);
      assert t.value == t.value[..i] + "=" + t.value[i + 1..];
    }
  }

  /** Were types arbitrary, a tax ID would share its key with another exactly when it holds a second '='. */
  lemma KeySharedIff(t: TaxId)
    ensures (exists u: TaxId :: u != t && KeyOf(u) == KeyOf(t)) <==> '=' in t.taxType || '=' in t.value
  {
    if '=' in t.taxType || '=' in t.value {
      var u := SharesKey(t);
    } else {
      forall u: TaxId | KeyOf(u) == KeyOf(t) ensures u == t {
        assert KeyOf(u)[|u.taxType|] == '=';
        assert u.taxType == KeyOf(u)[..|u.taxType|] && t.taxType == KeyOf(t)[..|t.taxType|];
        KeysDistinct(t, u);
      }
    }
  }

  function Wanted(desired: seq<TaxId>): set<Key> {
    set d | d in desired :: KeyOf(d)
  }

  function Holders(up: Upstream, k: Key): set<TxId> {
    set id | id in up && up[id] == k
  }

  function Copies(up: Upstream, k: Key): nat {
    |Holders(up, k)|
  }

  function Occurrences(desired: seq<TaxId>, k: Key): nat {
    if desired == [] then 0 else
    Occurrences(desired[..|desired| - 1], k) + (if KeyOf(desired[|desired| - 1]) == k then 1 else 0)
  }

  /** The copies of k one fault-free run leaves. */
  function SyncedCopies(up: Upstream, desired: seq<TaxId>, k: Key): nat {
    var n := Copies(up, k);
    if n == 0 then Occurrences(desired, k)
    else if k in Wanted(desired) then n
    else n - 1
  }

  ghost predicate SyncedFrom(up: Upstream, up': Upstream, desired: seq<TaxId>) {
    forall k :: Copies(up', k) == SyncedCopies(up, desired, k)
  }

  /** Nothing the account wants is lost, and nothing appears that was neither there nor wanted. */
  ghost predicate Between(up: Upstream, up': Upstream, desired: seq<TaxId>) {
    && up.Values * Wanted(desired) <= up'.Values
    && up'.Values <= up.Values + Wanted(desired)
  }

  lemma HolderAdded(up: Upstream, id: TxId, key: Key, k: Key)
    requires id !in up
    ensures id !in Holders(up, k)
    ensures Holders(up[id := key], k) == if k == key then Holders(up, k) + {id} else Holders(up, k)
  {}

  lemma HoldersAdd(up: Upstream, id: TxId, key: Key)
    requires id !in up
    ensures forall k :: Copies(up[id := key], k) == Copies(up, k) + (if k == key then 1 else 0)
  {
    forall k ensures Copies(up[id := key], k) == Copies(up, k) + (if k == key then 1 else 0) {
      HolderAdded(up, id, key, k);
    }
  }

  lemma HoldersRemove(up: Upstream, id: TxId)
    requires id in up
    ensures forall k :: Copies(up - {id}, k) == Copies(up, k) - (if k == up[id] then 1 else 0)
  {
    forall k ensures Copies(up - {id}, k) == Copies(up, k) - (if k == up[id] then 1 else 0) {
      assert Holders(up, k) == Holders(up - {id}, k) + (if k == up[id] then {id} else {});
    }
  }

  lemma Present(up: Upstream, k: Key)
    ensures Copies(up, k) > 0 <==> k in up.Values
  {
    if k in up.Values {
      var id :| id in up && up[id] == k;
      assert id in Holders(up, k);
    } else {
      assert Holders(up, k) == {};
    }
  }

  lemma {:induction false} OccursIffWanted(desired: seq<TaxId>, k: Key)
    ensures Occurrences(desired, k) > 0 <==> k in Wanted(desired)
  {
    if desired != [] {
      var init := desired[..|desired| - 1];
      OccursIffWanted(init, k);
      assert desired == init + [desired[|desired| - 1]];
    }
  }

  ghost predicate Added(up: Upstream, up': Upstream, key: Key) {
    exists id: TxId :: id !in up && up' == up[id := key]
  }

  /** For every key some id that has it. */
  ghost predicate Indexes(existing: map<Key, TxId>, up: Upstream) {
    && (forall id :: id in up ==> up[id] in existing)
    && (forall k :: k in existing ==> existing[k] in up && up[existing[k]] == k)
  }

  /** Nothing gone, and nothing new that is not wanted. */
  ghost predicate Grown(before: Upstream, up: Upstream, wanted: set<Key>) {
    && (forall id :: id in before ==> id in up && up[id] == before[id])
    && (forall id :: id in up && id !in before ==> up[id] in wanted)
  }

  /** What is upstream once every desired entry has been considered. */
  ghost predicate Created(before: Upstream, up: Upstream, existing: map<Key, TxId>, desired: seq<TaxId>) {
    && Grown(before, up, Wanted(desired))
    && (forall k :: Copies(up, k) == Copies(before, k) + (if k in existing then 0 else Occurrences(desired, k)))
  }

  lemma WantedSnoc(desired: seq<TaxId>, i: nat)
    requires i < |desired|
    ensures Wanted(desired[..i + 1]) == Wanted(desired[..i]) + {KeyOf(desired[i])}
    ensures Wanted(desired[..i + 1]) <= Wanted(desired)
    ensures desired[..i + 1][..i] == desired[..i]
  {
    assert desired[..i + 1] == desired[..i] + [desired[i]];
  }

  lemma GrownAdd(before: Upstream, up: Upstream, up': Upstream, some: set<Key>, wanted: set<Key>, key: Key)
    requires Grown(before, up, some) && some <= wanted && key in wanted
    requires up' == up || Added(up, up', key)
    ensures Grown(before, up', wanted)
  {}

  lemma CreatedAdd(before: Upstream, up: Upstream, up': Upstream, existing: map<Key, TxId>, desired: seq<TaxId>, i: nat)
    requires i < |desired| && KeyOf(desired[i]) !in existing
    requires Created(before, up, existing, desired[..i]) && Added(up, up', KeyOf(desired[i]))
    ensures Created(before, up', existing, desired[..i + 1])
  {
    var key := KeyOf(desired[i]);
    var id: TxId :| id !in up && up' == up[id := key];
    WantedSnoc(desired, i);
    HoldersAdd(up, id, key);
    GrownAdd(before, up, up', Wanted(desired[..i]), Wanted(desired[..i + 1]), key);
  }

  lemma CreatedSkip(before: Upstream, up: Upstream, existing: map<Key, TxId>, desired: seq<TaxId>, i: nat)
    requires i < |desired| && KeyOf(desired[i]) in existing
    requires Created(before, up, existing, desired[..i])
    ensures Created(before, up, existing, desired[..i + 1])
  {
    WantedSnoc(desired, i);
  }

  /** When every creation went through, every wanted key is there. */
  lemma AllWanted(before: Upstream, full: Upstream, existing: map<Key, TxId>, desired: seq<TaxId>)
    requires Indexes(existing, before) && Created(before, full, existing, desired)
    ensures Wanted(desired) <= full.Values
  {
    forall k | k in Wanted(desired) ensures k in full.Values {
      OccursIffWanted(desired, k);
      Present(before, k);
      Present(full, k);
    }
  }

  lemma CopiesAfter(before: Upstream, full: Upstream, after: Upstream, existing: map<Key, TxId>, desired: seq<TaxId>)
    requires Indexes(existing, before)
    requires forall k :: Copies(full, k) == Copies(before, k) + (if k in existing then 0 else Occurrences(desired, k))
    requires forall k :: Copies(after, k) ==
               Copies(full, k) - (if k in existing && k !in Wanted(desired) then 1 else 0)
    ensures SyncedFrom(before, after, desired)
  {
    forall k ensures Copies(after, k) == SyncedCopies(before, desired, k) {
      Present(before, k);
    }
  }

  class Customer {
    var upstream: Upstream

    /** TaxIDs.New */
    method New(key: Key) returns (ok: bool)
      modifies this
      ensures upstream == old(upstream) || Added(old(upstream), upstream, key)
      ensures ok ==> Added(old(upstream), upstream, key)
    {
      var effect: Effect := *;
      var id: TxId := *;
      if effect.Refused? || id in upstream { return false; }
      upstream := upstream[id := key];
      return effect.Done?;
    }

    /** TaxIDs.Del */
    method Del(id: TxId) returns (ok: bool)
      modifies this
      ensures upstream == old(upstream) || upstream == old(upstream) - {id}
      ensures ok ==> upstream == old(upstream) - {id}
    {
      var effect: Effect := *;
      if effect.Refused? { return false; }
      upstream := upstream - {id};
      return effect.Done?;
    }

    /** The listing: for every key some id that has it, or an error on the way. */
    method List() returns (ok: bool, existing: map<Key, TxId>)
      ensures ok ==> Indexes(existing, upstream)
    {
      existing := map[];
      var unread := upstream.Keys;
      while unread != {}
        invariant unread <= upstream.Keys
        invariant forall id :: id in upstream && id !in unread ==> upstream[id] in existing
        invariant forall k :: k in existing ==> existing[k] in upstream && upstream[existing[k]] == k
        decreases unread
      {
        var next: bool := *;
        if !next { return false, existing; }
        var id :| id in unread;
        existing := existing[upstream[id] := id];
        unread := unread - {id};
      }
      return true, existing;
    }

    /** The creating half: nothing is deleted, and a failure leaves what was created so far. */
    method CreateMissing(existing: map<Key, TxId>, desired: seq<TaxId>) returns (ok: bool, desiredKeys: set<Key>)
      requires Indexes(existing, upstream)
      modifies this
      ensures Grown(old(upstream), upstream, Wanted(desired))
      ensures ok ==> Created(old(upstream), upstream, existing, desired) && desiredKeys == Wanted(desired)
    {
      desiredKeys := {};
      var i := 0;
      while i < |desired|
        invariant i <= |desired| && desiredKeys == Wanted(desired[..i])
        invariant Created(old(upstream), upstream, existing, desired[..i])
      {
        ghost var soFar := upstream;
        var key := KeyOf(desired[i]);
        WantedSnoc(desired, i);
        desiredKeys := desiredKeys + {key};
        if key !in existing {
          ok := New(key);
          GrownAdd(old(upstream), soFar, upstream, Wanted(desired[..i]), Wanted(desired), key);
          if !ok { return; }
          CreatedAdd(old(upstream), soFar, upstream, existing, desired, i);
        } else {
          CreatedSkip(old(upstream), upstream, existing, desired, i);
        }
        i := i + 1;
      }
      assert desired[..i] == desired;
      ok := true;
    }

    /** The deleting half: one id of every unwanted key, in any order. */
    method DeleteUnwanted(existing: map<Key, TxId>, desiredKeys: set<Key>) returns (ok: bool)
      requires forall k :: k in existing ==> existing[k] in upstream && upstream[existing[k]] == k
      modifies this
      ensures forall id :: id in upstream ==> id in old(upstream) && upstream[id] == old(upstream)[id]
      ensures forall id :: id in old(upstream) && old(upstream)[id] in desiredKeys ==> id in upstream
      ensures ok ==> forall k ::
                Copies(upstream, k) ==
                Copies(old(upstream), k) - (if k in existing && k !in desiredKeys then 1 else 0)
    {
      var pending := existing.Keys;
      while pending != {}
        invariant pending <= existing.Keys
        invariant forall id :: id in upstream ==> id in old(upstream) && upstream[id] == old(upstream)[id]
        invariant forall id :: id in old(upstream) && old(upstream)[id] in desiredKeys ==> id in upstream
        invariant forall k :: k in pending ==> existing[k] in upstream
        invariant forall k ::
                    Copies(upstream, k) ==
                    Copies(old(upstream), k) - (if k in existing.Keys - pending && k !in desiredKeys then 1 else 0)
        decreases pending
      {
        var key :| key in pending;
        pending := pending - {key};
        if key in desiredKeys { continue; }
        HoldersRemove(upstream, existing[key]);
        ok := Del(existing[key]);
        if !ok { return; }
      }
      ok := true;
    }

    method ReconcileTaxIds(customerID: string, desired: seq<TaxId>) returns (r: Outcome)
      modifies this
      ensures customerID == "" || r.ListFailed? ==> upstream == old(upstream)
      ensures customerID == "" ==> r.Synced?
      ensures customerID != "" && r.Synced? ==> SyncedFrom(old(upstream), upstream, desired)
      ensures Between(old(upstream), upstream, desired)
      ensures r.CreateFailed? ==>
                forall id :: id in old(upstream) ==> id in upstream && upstream[id] == old(upstream)[id]
      ensures r.DeleteFailed? ==> Wanted(desired) <= upstream.Values
    {
      if customerID == "" { return Synced; }
      var ok, existing := List();
      if !ok { return ListFailed; }
      ghost var before := upstream;
      var desiredKeys;
      ok, desiredKeys := CreateMissing(existing, desired);
      if !ok { return CreateFailed; }
      ghost var full := upstream;
      AllWanted(before, full, existing, desired);
      ok := DeleteUnwanted(existing, desiredKeys);
      if !ok { return DeleteFailed; }
      CopiesAfter(before, full, upstream, existing, desired);
      return Synced;
    }
  }

  // ----- what one run and repeated runs leave -----

  ghost predicate InSync(up: Upstream, desired: seq<TaxId>) {
    up.Values == Wanted(desired)
  }

  /** A fault-free run leaves exactly the desired keys unless an unwanted key was held twice. */
  lemma OneRunSuffices(up: Upstream, up': Upstream, desired: seq<TaxId>)
    requires SyncedFrom(up, up', desired)
    ensures InSync(up', desired) <==> forall k :: k !in Wanted(desired) ==> Copies(up, k) <= 1
  {
    forall k ensures k in up'.Values <==> SyncedCopies(up, desired, k) > 0 {
      Present(up', k);
    }
    forall k ensures SyncedCopies(up, desired, k) > 0 <==> k in Wanted(desired) || Copies(up, k) > 1 {
      OccursIffWanted(desired, k);
    }
    if !InSync(up', desired) {
      assert exists k :: SyncedCopies(up, desired, k) > 0 && k !in Wanted(desired);
    }
  }

  /** ups is what upstream holds before and after each of |ups| - 1 fault-free runs. */
  ghost predicate Repeated(ups: seq<Upstream>, desired: seq<TaxId>) {
    ups != [] && forall i :: 0 <= i < |ups| - 1 ==> SyncedFrom(ups[i], ups[i + 1], desired)
  }

  lemma {:induction false} UnwantedAfter(ups: seq<Upstream>, desired: seq<TaxId>, n: nat, k: Key)
    requires Repeated(ups, desired) && n < |ups| && k !in Wanted(desired)
    ensures Copies(ups[n], k) == if Copies(ups[0], k) >= n then Copies(ups[0], k) - n else 0
  {
    if n > 0 {
      UnwantedAfter(ups, desired, n - 1, k);
      assert SyncedFrom(ups[n - 1], ups[n - 1 + 1], desired);
      OccursIffWanted(desired, k);
    }
  }

  /** n runs are enough exactly when no unwanted key was held more than n times. */
  lemma ConvergesIn(ups: seq<Upstream>, desired: seq<TaxId>, n: nat)
    requires Repeated(ups, desired) && 0 < n < |ups|
    ensures InSync(ups[n], desired) <==> forall k :: k !in Wanted(desired) ==> Copies(ups[0], k) <= n
  {
    assert SyncedFrom(ups[n - 1], ups[n - 1 + 1], desired);
    OneRunSuffices(ups[n - 1], ups[n], desired);
    forall k | k !in Wanted(desired) ensures Copies(ups[n - 1], k) <= 1 <==> Copies(ups[0], k) <= n {
      UnwantedAfter(ups, desired, n - 1, k);
    }
  }
}
