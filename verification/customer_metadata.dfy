/**
 * The metadata that ties a Stripe Customer to its account (internal/stripe/client.go:140-185,
 * 211-221, 260-314), over Stripe's own rule that a sent value replaces a key and an empty one
 * deletes it. This is what the abstract customers of the protocol stand for.
 */
module CustomerMetadata {
  import opened Wrappers
  import opened MetadataNames
  import KeyLocks
  import Protocol = CustomerProtocol

  type Metadata = map<string, Bytes>

  datatype AccountKey = AccountKey(namespace: Bytes, name: Bytes, uid: Bytes)
  datatype Address = Address(
    country: Bytes, line1: Bytes, line2: Bytes, city: Bytes, state: Bytes, postalCode: Bytes)
  datatype InvoiceField = InvoiceField(name: Bytes, value: Bytes)
  datatype Details = Details(
    name: Bytes, email: Bytes, address: Option<Address>, businessName: Bytes, individualName: Bytes,
    organizations: seq<Bytes>, projects: seq<Bytes>, defaultPaymentMethodId: Bytes, invoiceFields: seq<InvoiceField>)

  const NAME := "billing_account"
  const NAMESPACE := "billing_account_namespace"
  const UID := "billing_account_uid"
  const ORGANIZATIONS := "organizations"

  function Get(md: Metadata, key: string): Bytes {
    if key in md then md[key] else []
  }

  // ----- what is sent -----

  function Identity(a: AccountKey): Metadata {
    map[NAME := a.name, NAMESPACE := a.namespace, UID := a.uid]
  }

  function Tags(a: AccountKey): Metadata {
    map k | k in Identity(a) && Identity(a)[k] != [] :: Identity(a)[k]
  }

  /** The keys every sync sends, empty or not. */
  function Described(d: Details): Metadata {
    map["business_name" := d.businessName, "individual_name" := d.individualName,
        ORGANIZATIONS := Render(d.organizations), "projects" := Render(d.projects)]
  }

  lemma DescribedSteps(md: Metadata, d: Details)
    ensures md["business_name" := d.businessName]["individual_name" := d.individualName]
              [ORGANIZATIONS := Render(d.organizations)]["projects" := Render(d.projects)] == md + Described(d)
  {}

  function Sent(a: AccountKey, d: Details): Metadata {
    Tags(a) + Described(d)
  }

  /** billingAccountMetadata; the order of Go's map iteration is arbitrary. */
  method BillingAccountMetadata(a: AccountKey) returns (md: Metadata)
    ensures md == Tags(a)
  {
    var values := Identity(a);
    var rest := values.Keys;
    md := map[];
    while rest != {}
      invariant rest <= values.Keys
      invariant md == map k | k in values.Keys - rest && values[k] != [] :: values[k]
      decreases rest
    {
      var k :| k in rest;
      rest := rest - {k};
      if values[k] != [] { md := md[k := values[k]]; }
    }
  }

  class CustomerParams {
    var metadata: Option<Metadata>
    var name: Option<Bytes>
    var email: Option<Bytes>
    var address: Option<Address>
    var defaultPaymentMethod: Bytes
    var customFields: seq<InvoiceField>

    constructor (metadata: Option<Metadata>)
      ensures this.metadata == metadata && name.None? && email.None? && address.None?
    {
      this.metadata := metadata;
      name, email, address, defaultPaymentMethod, customFields := None, None, None, [], [];
    }
  }

  /** applyCustomerDetails: keys already set stay, and what an account no longer has is sent empty. */
  method ApplyCustomerDetails(params: CustomerParams, d: Details)
    modifies params
    ensures params.metadata ==
              Some((if old(params.metadata).Some? then old(params.metadata).value else map[]) + Described(d))
    ensures params.name == if d.name != [] then Some(d.name) else old(params.name)
    ensures params.email == if d.email != [] then Some(d.email) else old(params.email)
    ensures params.address == if d.address.Some? then d.address else old(params.address)
    ensures params.defaultPaymentMethod == d.defaultPaymentMethodId && params.customFields == d.invoiceFields
  {
    ghost var before := if params.metadata.Some? then params.metadata.value else map[];
    if d.name != [] { params.name := Some(d.name); }
    if d.email != [] { params.email := Some(d.email); }
    if d.address.Some? { params.address := d.address; }
    if params.metadata.None? { params.metadata := Some(map[]); }
    params.metadata := Some(params.metadata.value["business_name" := d.businessName]);
    params.metadata := Some(params.metadata.value["individual_name" := d.individualName]);
    var organizations := JoinNamesForMetadata(d.organizations);
    params.metadata := Some(params.metadata.value[ORGANIZATIONS := organizations]);
    var projects := JoinNamesForMetadata(d.projects);
    params.metadata := Some(params.metadata.value["projects" := projects]);
    DescribedSteps(before, d);
    var fields: seq<InvoiceField> := [];
    for i := 0 to |d.invoiceFields|
      modifies {}
      invariant fields == d.invoiceFields[..i]
    {
      fields := fields + [d.invoiceFields[i]];
    }
    params.defaultPaymentMethod := d.defaultPaymentMethodId;
    params.customFields := fields;
  }

  /** The parameters EnsureCustomer builds before it creates or updates. */
  method BuildParams(a: AccountKey, d: Details) returns (params: CustomerParams)
    ensures fresh(params) && params.metadata == Some(Sent(a, d))
    ensures params.name == (if d.name != [] then Some(d.name) else None)
    ensures params.email == (if d.email != [] then Some(d.email) else None)
    ensures params.address == d.address
    ensures params.defaultPaymentMethod == d.defaultPaymentMethodId && params.customFields == d.invoiceFields
  {
    var md := BillingAccountMetadata(a);
    params := new CustomerParams(Some(md));
    ApplyCustomerDetails(params, d);
  }

  // ----- what Stripe keeps -----

  /** Creating is an update of nothing. */
  function Merge(current: Metadata, sent: Metadata): Metadata {
    map k | k in current.Keys + sent.Keys && (k in sent ==> sent[k] != []) :: if k in sent then sent[k] else current[k]
  }

  /** The metadata after syncs of one account, oldest first. */
  function Synced(current: Metadata, a: AccountKey, syncs: seq<Details>): Metadata {
    if syncs == [] then current
    else Merge(Synced(current, a, syncs[..|syncs| - 1]), Sent(a, syncs[|syncs| - 1]))
  }

  lemma SentKeys(a: AccountKey, d: Details, e: Details)
    ensures Sent(a, d).Keys == Sent(a, e).Keys
  {}

  lemma MergeForgets(current: Metadata, earlier: Metadata, later: Metadata)
    requires earlier.Keys == later.Keys
    ensures Merge(Merge(current, earlier), later) == Merge(current, later)
  {}

  /** Only the last sync counts: nothing an earlier one wrote outlives it. */
  lemma {:induction false} LastSyncCounts(current: Metadata, a: AccountKey, syncs: seq<Details>)
    requires syncs != []
    ensures Synced(current, a, syncs) == Merge(current, Sent(a, syncs[|syncs| - 1]))
  {
    var before := syncs[..|syncs| - 1];
    if before != [] {
      LastSyncCounts(current, a, before);
      SentKeys(a, before[|before| - 1], syncs[|syncs| - 1]);
      MergeForgets(current, Sent(a, before[|before| - 1]), Sent(a, syncs[|syncs| - 1]));
    }
  }

  /** No sync, whatever it sends, takes a customer's identity away; foreign keys are never touched. */
  lemma NeverUntagged(current: Metadata, a: AccountKey, d: Details, key: string)
    requires key !in Described(d)
    ensures Get(current, key) != [] ==> Get(Merge(current, Sent(a, d)), key) != []
    ensures key !in {NAME, NAMESPACE, UID} ==> Get(Merge(current, Sent(a, d)), key) == Get(current, key)
  {}

  // ----- what the protocol calls a customer -----

  function Text(b: Bytes): (s: string)
    ensures |s| == |b|
  {
    seq(|b|, i requires 0 <= i < |b| => b[i] as char)
  }

  lemma TextInjective(a: Bytes, b: Bytes)
    ensures Text(a) == Text(b) <==> a == b
  {
    if Text(a) == Text(b) {
      assert |a| == |b|;
      forall i | 0 <= i < |a| ensures a[i] == b[i] {
        assert Text(a)[i] == Text(b)[i];
      }
    }
  }

  function Texts(names: seq<Bytes>): seq<string> {
    seq(|names|, i requires 0 <= i < |names| => Text(names[i]))
  }

  function AccountOf(a: AccountKey): Protocol.Account {
    Protocol.Account(KeyLocks.Key(Text(a.namespace), Text(a.name)), Text(a.uid))
  }

  /** A customer as the adoption rules see it. */
  function View(md: Metadata): Protocol.Customer {
    Protocol.Customer(Text(Get(md, NAME)), Text(Get(md, UID)), Texts(ReadBack(Get(md, ORGANIZATIONS))))
  }

  /** A name that fits is rendered as itself and reads back as itself. */
  lemma OneName(name: Bytes)
    requires Plain(name) && Fits([name])
    ensures Render([name]) == name && ReadBack(name) == [name]
  {
    ReadBackSingle(name);
    assert [name][..0] == [] && Kept([]) == 0;
  }

  lemma MergeGets(current: Metadata, sent: Metadata, key: string)
    ensures Get(Merge(current, sent), key) == if key in sent then sent[key] else Get(current, key)
  {}

  lemma SentIdentity(a: AccountKey, d: Details, key: string)
    requires key in {"billing_account", "billing_account_namespace", "billing_account_uid"}
    ensures key in Sent(a, d) <==> Identity(a)[key] != []
    ensures key in Sent(a, d) ==> Sent(a, d)[key] == Identity(a)[key]
  {}

  /** What a sync leaves under each key. An identity that is not given is not sent. */
  lemma SyncGets(current: Metadata, a: AccountKey, d: Details)
    ensures var md := Merge(current, Sent(a, d));
      && Get(md, "billing_account") == (if a.name != [] then a.name else Get(current, "billing_account"))
      && Get(md, "billing_account_namespace") ==
           (if a.namespace != [] then a.namespace else Get(current, "billing_account_namespace"))
      && Get(md, "billing_account_uid") == (if a.uid != [] then a.uid else Get(current, "billing_account_uid"))
      && Get(md, "business_name") == d.businessName && Get(md, "individual_name") == d.individualName
      && Get(md, "organizations") == Render(d.organizations) && Get(md, "projects") == Render(d.projects)
  {
    forall key: string { MergeGets(current, Sent(a, d), key); }
    SentIdentity(a, d, "billing_account");
    SentIdentity(a, d, "billing_account_namespace");
    SentIdentity(a, d, "billing_account_uid");
  }

  /** Every other key is left as it was. */
  lemma SyncSpares(current: Metadata, a: AccountKey, d: Details, key: string)
    requires key !in {"billing_account", "billing_account_namespace", "billing_account_uid",
                      "business_name", "individual_name", "organizations", "projects"}
    ensures Get(Merge(current, Sent(a, d)), key) == Get(current, key)
  {}

  /** Whatever the customer carried, a sync leaves exactly the tags the protocol stamps. */
  lemma SyncStamps(current: Metadata, a: AccountKey, d: Details)
    requires a.name != [] && a.uid != [] && d.organizations == [a.namespace]
    requires Plain(a.namespace) && Fits([a.namespace])
    ensures View(Merge(current, Sent(a, d))) == Protocol.Tagged(AccountOf(a))
  {
    SyncGets(current, a, d);
    OneName(a.namespace);
    assert Texts([a.namespace]) == [Text(a.namespace)];
  }

  /** The match closure of the legacy search. */
  predicate LegacyAccepts(md: Metadata, a: AccountKey) {
    if Get(md, UID) != [] then Get(md, UID) == a.uid else LegacyMatch(Get(md, ORGANIZATIONS), a.namespace)
  }

  /** A customer an earlier sync of b left: accepted by its uid or, without one, for a namespace it names. */
  lemma AcceptedIff(current: Metadata, b: AccountKey, d: Details, a: AccountKey)
    requires AllPlain(d.organizations) && Plain(a.namespace) && a.namespace != DOTS
    requires Get(current, "billing_account_uid") == []
    ensures LegacyAccepts(Merge(current, Sent(b, d)), a) <==>
              if b.uid != [] then b.uid == a.uid else a.namespace in d.organizations[..Kept(d.organizations)]
  {
    SyncGets(current, b, d);
    LegacyMatchIffKept(d.organizations, a.namespace);
  }

  /** The uid search may return exactly the customers that carry the account's uid. */
  lemma UidHitIff(s: Protocol.State, id: Protocol.CusId, md: Metadata, a: AccountKey)
    requires id != "" && id in s.customers && s.customers[id] == View(md)
    ensures Protocol.UidHit(s, AccountOf(a), id) <==> Get(md, "billing_account_uid") == a.uid
  {
    TextInjective(Get(md, UID), a.uid);
  }

  /** On a customer of that name, the closure accepts exactly what the protocol lets the search return. */
  lemma AcceptsIsNameHit(s: Protocol.State, id: Protocol.CusId, md: Metadata, a: AccountKey)
    requires id != "" && id in s.customers && s.customers[id] == View(md) && Get(md, NAME) == a.name
    ensures LegacyAccepts(md, a) <==> Protocol.NameHit(s, AccountOf(a), id)
  {
    TextInjective(Get(md, UID), a.uid);
    var names := ReadBack(Get(md, ORGANIZATIONS));
    if a.namespace in names {
      var i :| 0 <= i < |names| && names[i] == a.namespace;
      assert Texts(names)[i] == Text(a.namespace);
    }
    if Text(a.namespace) in Texts(names) {
      var i :| 0 <= i < |names| && Texts(names)[i] == Text(a.namespace);
      TextInjective(names[i], a.namespace);
    }
  }
}
