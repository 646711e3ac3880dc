/**
 * Which BillingAccount updates reach the reconciler (internal/controller/billingaccount_controller.go:163-187,
 * 247-252, 270-277), and what of an account reaches Stripe
 * (internal/controller/stripepaymentmethod_controller.go:410-458).
 */
module AccountFilter {
  import opened Wrappers

  datatype Address = Address(
    country: string, line1: string, line2: string, city: string, region: string, postalCode: string)
  datatype ContactInfo = ContactInfo(
    name: string, businessName: string, email: string, invoiceEmails: seq<string>, address: Option<Address>)
  datatype TaxId = TaxId(taxType: string, value: string)

  datatype Spec = Spec(
    contactInfo: Option<ContactInfo>, taxIds: seq<TaxId>, defaultPaymentMethodRef: Option<string>)

  datatype ArrangementType = Invoice | OtherArrangement
  datatype InvoiceTerms = InvoiceTerms(
    netDays: int, creditLimit: string, purchaseOrderNumber: string, agreementReference: string)
  datatype Arrangement = Arrangement(name: string, arrangementType: ArrangementType, invoice: Option<InvoiceTerms>)

  /** One version of the object; `conditions` stands for the rest of its status. */
  datatype BillingAccount = BillingAccount(
    namespace: string, name: string, generation: int, spec: Spec,
    paymentArrangement: Option<Arrangement>, conditions: seq<string>)

  datatype InvoiceField = InvoiceField(name: string, value: string)
  datatype CustomerDetails = CustomerDetails(
    name: string, email: string, address: Option<Address>, taxIds: seq<TaxId>,
    businessName: string, individualName: string, organizations: seq<string>, invoiceFields: seq<InvoiceField>)

  predicate HasInvoiceArrangement(ba: BillingAccount) {
    ba.paymentArrangement.Some? && ba.paymentArrangement.value.arrangementType.Invoice?
  }

  function InvoiceFields(ba: BillingAccount): seq<InvoiceField> {
    if !HasInvoiceArrangement(ba) || ba.paymentArrangement.value.invoice.None? then [] else
    var terms := ba.paymentArrangement.value.invoice.value;
    (if terms.purchaseOrderNumber != "" then [InvoiceField("PO number", terms.purchaseOrderNumber)] else [])
    + (if terms.agreementReference != "" then [InvoiceField("Agreement", terms.agreementReference)] else [])
  }

  function CustomerDetailsFromBillingAccount(ba: BillingAccount): CustomerDetails {
    var d := CustomerDetails("", "", None, ba.spec.taxIds, "", "",
                             if ba.namespace != "" then [ba.namespace] else [], InvoiceFields(ba));
    if ba.spec.contactInfo.None? then d else
    var ci := ba.spec.contactInfo.value;
    d.(email := if |ci.invoiceEmails| > 0 then ci.invoiceEmails[0] else ci.email,
       name := if ci.businessName != "" then ci.businessName else ci.name,
       businessName := ci.businessName, individualName := ci.name, address := ci.address)
  }

  /** customerDetailsFromBillingAccount, field by field as the code fills it in. */
  method BuildDetails(ba: BillingAccount) returns (d: CustomerDetails)
    ensures d == CustomerDetailsFromBillingAccount(ba)
  {
    d := CustomerDetails("", "", None, [], "", "", [], []);
    if ba.spec.contactInfo.Some? {
      var ci := ba.spec.contactInfo.value;
      if |ci.invoiceEmails| > 0 { d := d.(email := ci.invoiceEmails[0]); } else { d := d.(email := ci.email); }
      if ci.businessName != "" { d := d.(name := ci.businessName); } else { d := d.(name := ci.name); }
      d := d.(businessName := ci.businessName);
      d := d.(individualName := ci.name);
      if ci.address.Some? { d := d.(address := ci.address); }
    }
    for i := 0 to |ba.spec.taxIds|
      invariant d == CustomerDetailsFromBillingAccount(ba).(taxIds := ba.spec.taxIds[..i],
                                                            invoiceFields := [], organizations := [])
    {
      d := d.(taxIds := d.taxIds + [ba.spec.taxIds[i]]);
    }
    d := d.(invoiceFields := InvoiceFields(ba));
    if ba.namespace != "" { d := d.(organizations := [ba.namespace]); }
  }

  /** The business name and the first invoice address win; both names are kept beside the chosen one. */
  lemma DetailsPrecedence(ba: BillingAccount)
    ensures var d := CustomerDetailsFromBillingAccount(ba);
      && d.taxIds == ba.spec.taxIds
      && (forall o :: o in d.organizations <==> o == ba.namespace && o != "")
      && (ba.spec.contactInfo.None? ==>
            d.name == d.email == d.businessName == d.individualName == "" && d.address.None?)
    ensures ba.spec.contactInfo.Some? ==>
      var d, ci := CustomerDetailsFromBillingAccount(ba), ba.spec.contactInfo.value;
      && d.businessName == ci.businessName && d.individualName == ci.name && d.address == ci.address
      && (d.name == "" <==> ci.businessName == "" && ci.name == "")
      && (ci.businessName != "" ==> d.name == ci.businessName) && (ci.businessName == "" ==> d.name == ci.name)
      && (ci.invoiceEmails != [] ==> d.email == ci.invoiceEmails[0]) && (ci.invoiceEmails == [] ==> d.email == ci.email)
  {}

  /** An invoice shows a field exactly when the account is billed by invoice and its terms give the value. */
  lemma InvoiceFieldsSay(ba: BillingAccount, field: InvoiceField)
    ensures field in CustomerDetailsFromBillingAccount(ba).invoiceFields <==>
              && ba.paymentArrangement.Some? && ba.paymentArrangement.value.arrangementType.Invoice?
              && ba.paymentArrangement.value.invoice.Some? && field.value != ""
              && var terms := ba.paymentArrangement.value.invoice.value;
                 || field == InvoiceField("PO number", terms.purchaseOrderNumber)
                 || field == InvoiceField("Agreement", terms.agreementReference)
    ensures var fields := CustomerDetailsFromBillingAccount(ba).invoiceFields;
      |fields| <= 2 && (|fields| == 2 ==> fields[0].name == "PO number" && fields[1].name == "Agreement")
  {}

  /** GenerationChangedPredicate */
  predicate GenerationChanged(before: BillingAccount, after: BillingAccount) {
    before.generation != after.generation
  }

  predicate InvoiceArrangementChanged(before: BillingAccount, after: BillingAccount) {
    HasInvoiceArrangement(before) != HasInvoiceArrangement(after) || InvoiceFields(before) != InvoiceFields(after)
  }

  predicate Passes(before: BillingAccount, after: BillingAccount) {
    GenerationChanged(before, after) || InvoiceArrangementChanged(before, after)
  }

  /** What a sync takes from the account itself: details, default card, whether a customer is needed at all. */
  datatype Synced = Synced(details: CustomerDetails, defaultPaymentMethodRef: Option<string>, invoiceBilled: bool)

  function SyncOf(ba: BillingAccount): Synced {
    Synced(CustomerDetailsFromBillingAccount(ba), ba.spec.defaultPaymentMethodRef, HasInvoiceArrangement(ba))
  }

  /** Successive versions of one object: the API server bumps the generation whenever the spec changes. */
  ghost predicate History(versions: seq<BillingAccount>) {
    forall i :: 0 <= i < |versions| - 1 ==>
      && versions[i + 1].namespace == versions[i].namespace
      && versions[i].generation <= versions[i + 1].generation
      && (versions[i].generation == versions[i + 1].generation ==> versions[i].spec == versions[i + 1].spec)
  }

  /** The versions a watch delivers: some may be skipped, none is out of order. */
  ghost predicate Delivered(picks: seq<nat>, versions: seq<BillingAccount>) {
    && (forall i :: 0 <= i < |picks| ==> picks[i] < |versions|)
    && (forall i :: 0 <= i < |picks| - 1 ==> picks[i] <= picks[i + 1])
  }

  function Watched(picks: seq<nat>, versions: seq<BillingAccount>): (r: seq<BillingAccount>)
    requires forall i :: 0 <= i < |picks| ==> picks[i] < |versions|
    ensures |r| == |picks| && forall i :: 0 <= i < |r| ==> r[i] == versions[picks[i]]
  {
    seq(|picks|, i requires 0 <= i < |picks| => versions[picks[i]])
  }

  /** What was last synced: the create event always passes, an update only through the filter. */
  function LastSync(events: seq<BillingAccount>): Synced
    requires events != []
  {
    var n := |events| - 1;
    if n == 0 || Passes(events[n - 1], events[n]) then SyncOf(events[n]) else LastSync(events[..n])
  }

  lemma {:induction false} HistoryApart(versions: seq<BillingAccount>, i: nat, j: nat)
    requires History(versions) && i <= j < |versions|
    ensures versions[i].generation <= versions[j].generation && versions[i].namespace == versions[j].namespace
    ensures versions[i].generation == versions[j].generation ==> versions[i].spec == versions[j].spec
  {
    if i < j {
      HistoryApart(versions, i, j - 1);
      assert versions[j - 1 + 1] == versions[j];
    }
  }

  /** A blocked update changes nothing a sync would send. */
  lemma BlockedChangesNothing(versions: seq<BillingAccount>, i: nat, j: nat)
    requires History(versions) && i <= j < |versions| && !Passes(versions[i], versions[j])
    ensures SyncOf(versions[i]) == SyncOf(versions[j])
  {
    HistoryApart(versions, i, j);
  }

  /** Without a spec change, an update passes exactly when what a sync would send differs. */
  lemma PassesIffSyncDiffers(versions: seq<BillingAccount>, i: nat, j: nat)
    requires History(versions) && i <= j < |versions| && versions[i].generation == versions[j].generation
    ensures Passes(versions[i], versions[j]) <==> SyncOf(versions[i]) != SyncOf(versions[j])
  {
    HistoryApart(versions, i, j);
    assert SyncOf(versions[i]).details.invoiceFields == InvoiceFields(versions[i]);
    assert SyncOf(versions[j]).details.invoiceFields == InvoiceFields(versions[j]);
  }

  /** The filter loses no sync: after any deliveries, Stripe was last sent what the latest version says. */
  lemma {:induction false} FilterLosesNothing(versions: seq<BillingAccount>, picks: seq<nat>)
    requires History(versions) && Delivered(picks, versions) && picks != []
    ensures LastSync(Watched(picks, versions)) == SyncOf(versions[picks[|picks| - 1]])
  {
    var events := Watched(picks, versions);
    var n := |events| - 1;
    if n > 0 && !Passes(events[n - 1], events[n]) {
      var before := picks[..n];
      assert Watched(before, versions) == events[..n];
      assert Delivered(before, versions) by {
        forall i | 0 <= i < |before| - 1 ensures before[i] <= before[i + 1] {
          assert picks[i] <= picks[i + 1];
        }
      }
      FilterLosesNothing(versions, before);
      assert picks[n - 1] <= picks[n - 1 + 1];
      BlockedChangesNothing(versions, picks[n - 1], picks[n]);
    }
  }
}
