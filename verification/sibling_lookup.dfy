/**
 * findExistingCustomerID and accountStripePaymentMethods
 * (internal/controller/customer_id_lookup.go:140-191): the customer ID of the first
 * StripePaymentMethod of the account that recorded one.
 */
module SiblingLookup {
  import opened Wrappers
  import opened KeyLocks
  import Protocol = CustomerProtocol

  type CusId = string

  /**
   * One listed StripePaymentMethod, and the account its PaymentMethod answered with: None when the
   * PaymentMethod was gone or could not be read.
   */
  datatype Item = Item(paymentMethodRef: string, customerId: CusId, answer: Option<string>)

  predicate Bound(item: Item, account: string) {
    item.paymentMethodRef != "" && item.answer == Some(account)
  }

  function BoundOnly(items: seq<Item>, account: string): seq<Item> {
    if items == [] then [] else
    var n := |items| - 1;
    BoundOnly(items[..n], account) + (if Bound(items[n], account) then [items[n]] else [])
  }

  /** `listing` is None when the list call failed. */
  method AccountStripePaymentMethods(listing: Option<seq<Item>>, account: string) returns (out: Option<seq<Item>>)
    ensures out == if listing.None? then None else Some(BoundOnly(listing.value, account))
  {
    if listing.None? { return None; }
    var items, kept: seq<Item> := listing.value, [];
    for i := 0 to |items|
      invariant kept == BoundOnly(items[..i], account)
    {
      assert items[..i + 1][..i] == items[..i];
      if items[i].paymentMethodRef == "" { continue; }
      if items[i].answer.None? { continue; }
      if items[i].answer.value != account { continue; }
      kept := kept + [items[i]];
    }
    assert items[..|items|] == items;
    return Some(kept);
  }

  /** The item counts for the account and has recorded an ID. */
  predicate Names(item: Item, account: string) {
    item.paymentMethodRef != "" && item.answer == Some(account) && item.customerId != ""
  }

  /** id comes from the first item that names one, and is "" only when none does. */
  ghost predicate IsFirst(items: seq<Item>, account: string, id: CusId) {
    if id == "" then forall i :: 0 <= i < |items| ==> !Names(items[i], account)
    else exists i :: 0 <= i < |items| && Names(items[i], account) && items[i].customerId == id &&
                     forall j :: 0 <= j < i ==> !Names(items[j], account)
  }

  /** The first recorded ID among items already filtered. */
  ghost predicate FirstRecorded(out: seq<Item>, id: CusId) {
    if id == "" then forall i :: 0 <= i < |out| ==> out[i].customerId == ""
    else exists i :: 0 <= i < |out| && out[i].customerId == id && forall j :: 0 <= j < i ==> out[j].customerId == ""
  }

  lemma {:induction false} BoundOnlyElements(items: seq<Item>, account: string)
    ensures forall x :: x in BoundOnly(items, account) <==>
              x in items && x.paymentMethodRef != "" && x.answer == Some(account)
  {
    if items != [] {
      var n := |items| - 1;
      BoundOnlyElements(items[..n], account);
      assert items == items[..n] + [items[n]];
    }
  }

  lemma FirstRecordedSnoc(out: seq<Item>, item: Item, id: CusId)
    requires FirstRecorded(out + [item], id)
    ensures FirstRecorded(out, id) || (FirstRecorded(out, "") && item.customerId == id)
  {
    if id == "" {
      forall i | 0 <= i < |out| ensures out[i].customerId == "" { assert (out + [item])[i] == out[i]; }
    } else {
      var i :| 0 <= i < |out + [item]| && (out + [item])[i].customerId == id &&
               forall j :: 0 <= j < i ==> (out + [item])[j].customerId == "";
      forall j | 0 <= j < i && j < |out| ensures out[j].customerId == "" { assert (out + [item])[j] == out[j]; }
    }
  }

  /** Filtering first and scanning then is the same as taking the first item that names one. */
  lemma {:induction false} FilterThenScan(items: seq<Item>, account: string, id: CusId)
    requires FirstRecorded(BoundOnly(items, account), id)
    ensures IsFirst(items, account, id)
  {
    if items == [] {
    } else if id == "" {
      BoundOnlyElements(items, account);
      forall i | 0 <= i < |items| ensures !Names(items[i], account) {
        assert items[i] in items;
      }
    } else {
      var n := |items| - 1;
      var init := items[..n];
      if !Bound(items[n], account) {
        assert BoundOnly(items, account) == BoundOnly(init, account);
        FilterThenScan(init, account, id);
        FirstExtends(items, account, id);
      } else {
        FirstRecordedSnoc(BoundOnly(init, account), items[n], id);
        if FirstRecorded(BoundOnly(init, account), id) {
          FilterThenScan(init, account, id);
          FirstExtends(items, account, id);
        } else {
          FilterThenScan(init, account, "");
          assert Names(items[n], account) && items[n].customerId == id;
          assert forall j :: 0 <= j < n ==> items[j] == init[j];
        }
      }
    }
  }

  lemma FirstExtends(items: seq<Item>, account: string, id: CusId)
    requires items != [] && id != "" && IsFirst(items[..|items| - 1], account, id)
    ensures IsFirst(items, account, id)
  {
    var init := items[..|items| - 1];
    var i :| 0 <= i < |init| && Names(init[i], account) && init[i].customerId == id &&
             forall j :: 0 <= j < i ==> !Names(init[j], account);
    assert forall j :: 0 <= j <= i ==> items[j] == init[j];
  }

  /** An error exactly when the listing failed. */
  method FindExistingCustomerID(listing: Option<seq<Item>>, account: string) returns (ok: bool, id: CusId)
    ensures ok <==> listing.Some?
    ensures if ok then IsFirst(listing.value, account, id) else id == ""
  {
    var found := AccountStripePaymentMethods(listing, account);
    if found.None? { return false, ""; }
    ok, id := true, "";
    var spms, i := found.value, 0;
    while i < |spms| && id == ""
      invariant i <= |spms| && FirstRecorded(spms[..i], id)
    {
      ghost var before := spms[..i];
      id := spms[i].customerId;
      assert spms[..i + 1] == before + [spms[i]];
      assert spms[..i + 1][i] == spms[i];
      i := i + 1;
    }
    ScannedEnough(spms, i, id);
    FilterThenScan(listing.value, account, id);
  }

  /** The scan may stop at the first ID it finds. */
  lemma ScannedEnough(out: seq<Item>, i: nat, id: CusId)
    requires i <= |out| && FirstRecorded(out[..i], id) && (i == |out| || id != "")
    ensures FirstRecorded(out, id)
  {
    if id == "" {
      assert out[..i] == out;
    } else {
      var k :| 0 <= k < i && out[..i][k].customerId == id && forall j :: 0 <= j < k ==> out[..i][j].customerId == "";
      forall j | 0 <= j < k ensures out[j].customerId == "" { assert out[..i][j] == out[j]; }
    }
  }

  /** A listing has exactly one answer. */
  lemma FirstIsUnique(items: seq<Item>, account: string, id: CusId, id': CusId)
    requires IsFirst(items, account, id) && IsFirst(items, account, id')
    ensures id == id'
  {
    if id != "" && id' != "" {
      var i :| 0 <= i < |items| && Names(items[i], account) && items[i].customerId == id &&
               forall j :: 0 <= j < i ==> !Names(items[j], account);
      var k :| 0 <= k < |items| && Names(items[k], account) && items[k].customerId == id' &&
               forall j :: 0 <= j < k ==> !Names(items[j], account);
      assert i == k;
    }
  }

  ghost predicate Agree(items: seq<Item>, account: string) {
    forall x, y :: x in items && y in items && Names(x, account) && Names(y, account) ==> x.customerId == y.customerId
  }

  /** Putting an item that names an ID in front makes that ID the answer. */
  lemma MovedToFront(items: seq<Item>, account: string, i: nat)
    requires i < |items| && Names(items[i], account)
    ensures multiset([items[i]] + items[..i] + items[i + 1..]) == multiset(items)
    ensures IsFirst([items[i]] + items[..i] + items[i + 1..], account, items[i].customerId)
  {
    assert items == items[..i] + [items[i]] + items[i + 1..];
    assert ([items[i]] + items[..i] + items[i + 1..])[0] == items[i];
  }

  lemma NamedBySome(items: seq<Item>, account: string, id: CusId)
    requires IsFirst(items, account, id) && id != ""
    ensures exists x :: x in items && Names(x, account) && x.customerId == id
  {
    var i :| 0 <= i < |items| && Names(items[i], account) && items[i].customerId == id &&
             forall j :: 0 <= j < i ==> !Names(items[j], account);
    assert items[i] in items;
  }

  lemma AgreeingAnswers(items: seq<Item>, others: seq<Item>, account: string, id: CusId, id': CusId)
    requires multiset(items) == multiset(others) && Agree(items, account)
    requires IsFirst(items, account, id) && IsFirst(others, account, id')
    ensures id == id'
  {
    forall x ensures x in items <==> x in others {
      assert x in multiset(items) <==> x in multiset(others);
    }
    if id != "" { NamedBySome(items, account, id); }
    if id' != "" { NamedBySome(others, account, id'); }
  }

  ghost predicate OrderFree(items: seq<Item>, account: string) {
    forall others, id, id' ::
      multiset(others) == multiset(items) && IsFirst(items, account, id) && IsFirst(others, account, id') ==> id == id'
  }

  /** The order of the listing decides the answer exactly when two siblings recorded different IDs. */
  lemma OrderFreeIff(items: seq<Item>, account: string, id: CusId)
    requires IsFirst(items, account, id)
    ensures OrderFree(items, account) <==> Agree(items, account)
  {
    if Agree(items, account) {
      forall others, a, b |
          multiset(others) == multiset(items) && IsFirst(items, account, a) && IsFirst(others, account, b)
        ensures a == b
      {
        AgreeingAnswers(items, others, account, a, b);
      }
    }
    if OrderFree(items, account) {
      forall x | x in items && Names(x, account) ensures x.customerId == id {
        var i :| 0 <= i < |items| && items[i] == x;
        MovedToFront(items, account, i);
      }
    }
  }

  // ----- what the protocol's lookup stands for -----

  /** A StripePaymentMethod of the namespace, and the account its PaymentMethod names. */
  datatype StripePaymentMethod = StripePaymentMethod(paymentMethodRef: string, account: string, customerId: CusId)

  /** The IDs recorded on the account's StripePaymentMethods, as the API server holds them. */
  function RecordedIds(store: map<string, StripePaymentMethod>, account: string): set<CusId> {
    set name | name in store && store[name].paymentMethodRef != "" && store[name].account == account &&
               store[name].customerId != "" :: store[name].customerId
  }

  /** The cache may be behind: an ID not seen yet, or a PaymentMethod that cannot be read. */
  predicate Reflects(x: Item, spm: StripePaymentMethod) {
    && x.paymentMethodRef == spm.paymentMethodRef
    && (x.answer.Some? ==> x.answer.value == spm.account)
    && (x.customerId != "" ==> x.customerId == spm.customerId)
  }

  /** A listing of any of the StripePaymentMethods, in any order. */
  ghost predicate Listed(items: seq<Item>, store: map<string, StripePaymentMethod>) {
    forall x :: x in items ==> exists name :: name in store && Reflects(x, store[name])
  }

  /** The protocol's siblings hold what the namespace's StripePaymentMethods ever recorded. */
  ghost predicate Covers(s: Protocol.State, namespace: string, store: map<string, StripePaymentMethod>) {
    forall account :: RecordedIds(store, account) <= Protocol.Siblings(s, Key(namespace, account))
  }

  /** Whatever the listing, the code's answer is one the protocol's lookup may give. */
  lemma AnswerIsSibling(
      s: Protocol.State, key: Key, store: map<string, StripePaymentMethod>, items: seq<Item>, id: CusId)
    requires Covers(s, key.namespace, store) && Listed(items, store) && IsFirst(items, key.name, id)
    ensures id == "" || id in Protocol.Siblings(s, key)
  {
    if id != "" {
      NamedBySome(items, key.name, id);
      var x :| x in items && Names(x, key.name) && x.customerId == id;
      var name :| name in store && Reflects(x, store[name]);
      assert store[name].customerId in RecordedIds(store, key.name);
      assert key == Key(key.namespace, key.name);
    }
  }

  /** And no answer is allowed in vain: some listing gives none, and some gives any recorded ID. */
  lemma AnswerIff(store: map<string, StripePaymentMethod>, account: string, id: CusId)
    ensures id == "" || id in RecordedIds(store, account) <==>
            exists items :: Listed(items, store) && IsFirst(items, account, id)
  {
    if id == "" {
      assert Listed([], store) && IsFirst([], account, "");
    } else if id in RecordedIds(store, account) {
      var name :| name in store && store[name].paymentMethodRef != "" && store[name].account == account &&
                  store[name].customerId == id;
      var items := [Item(store[name].paymentMethodRef, id, Some(account))];
      assert Reflects(items[0], store[name]) && Names(items[0], account);
      assert Listed(items, store) && IsFirst(items, account, id);
    }
    if items :| Listed(items, store) && IsFirst(items, account, id) && id != "" {
      NamedBySome(items, account, id);
      var x :| x in items && Names(x, account) && x.customerId == id;
      var name :| name in store && Reflects(x, store[name]);
      assert store[name].customerId in RecordedIds(store, account);
    }
  }
}
