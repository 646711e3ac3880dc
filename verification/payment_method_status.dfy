/**
 * The statuses of a StripePaymentMethod and of its parent PaymentMethod, what each writer
 * computes from the copy it read, and how a merge patch carries that to the API server.
 */
module PaymentMethodStatus {
  import opened Remote
  import opened Wrappers

  /** Early covers unset, Initializing, and any phase billing sets before confirmation. */
  datatype Phase = Early(name: string) | AwaitingConfirmation | Active | Failed

  /** The card fields both objects record. */
  datatype Card = Card(
    brand: string, last4: string, iin: string, country: string,
    expiryMonth: int, expiryYear: int, avsResult: string, cvcResult: string)

  /** Empty strings and zeroes are absent fields, as in the JSON the API server stores. */
  datatype SpmStatus = SpmStatus(
    phase: Phase, customerId: string, paymentMethodId: string,
    intentId: string, clientSecret: string, intentStatus: string, expiresAt: Option<int>,
    confirmedAt: Option<int>, instrumentType: string, card: Card,
    failureReason: string, failureMessage: string, conditions: map<string, bool>)

  datatype Address = Address(
    country: string, line1: string, line2: string, city: string, region: string, postalCode: string)

  datatype PmStatus = PmStatus(
    phase: Phase, instrumentType: string, card: Card, address: Address,
    failureReason: string, failureMessage: string, conditions: map<string, bool>)

  const READY := "InstrumentReady"

  // ----- merge patches, leaf by leaf -----

  function MergeCard(b: Card, m: Card, c: Card): Card {
    Card(Pick(b.brand, m.brand, c.brand), Pick(b.last4, m.last4, c.last4), Pick(b.iin, m.iin, c.iin),
         Pick(b.country, m.country, c.country), Pick(b.expiryMonth, m.expiryMonth, c.expiryMonth),
         Pick(b.expiryYear, m.expiryYear, c.expiryYear), Pick(b.avsResult, m.avsResult, c.avsResult),
         Pick(b.cvcResult, m.cvcResult, c.cvcResult))
  }

  function MergeAddress(b: Address, m: Address, c: Address): Address {
    Address(Pick(b.country, m.country, c.country), Pick(b.line1, m.line1, c.line1), Pick(b.line2, m.line2, c.line2),
            Pick(b.city, m.city, c.city), Pick(b.region, m.region, c.region),
            Pick(b.postalCode, m.postalCode, c.postalCode))
  }

  /** Lists are single values in a merge patch: the conditions go as a whole or not at all. */
  function MergeSpm(b: SpmStatus, m: SpmStatus, c: SpmStatus): SpmStatus {
    SpmStatus(
      Pick(b.phase, m.phase, c.phase), Pick(b.customerId, m.customerId, c.customerId),
      Pick(b.paymentMethodId, m.paymentMethodId, c.paymentMethodId), Pick(b.intentId, m.intentId, c.intentId),
      Pick(b.clientSecret, m.clientSecret, c.clientSecret), Pick(b.intentStatus, m.intentStatus, c.intentStatus),
      Pick(b.expiresAt, m.expiresAt, c.expiresAt), Pick(b.confirmedAt, m.confirmedAt, c.confirmedAt),
      Pick(b.instrumentType, m.instrumentType, c.instrumentType), MergeCard(b.card, m.card, c.card),
      Pick(b.failureReason, m.failureReason, c.failureReason),
      Pick(b.failureMessage, m.failureMessage, c.failureMessage), Pick(b.conditions, m.conditions, c.conditions))
  }

  function MergePm(b: PmStatus, m: PmStatus, c: PmStatus): PmStatus {
    PmStatus(
      Pick(b.phase, m.phase, c.phase), Pick(b.instrumentType, m.instrumentType, c.instrumentType),
      MergeCard(b.card, m.card, c.card), MergeAddress(b.address, m.address, c.address),
      Pick(b.failureReason, m.failureReason, c.failureReason),
      Pick(b.failureMessage, m.failureMessage, c.failureMessage), Pick(b.conditions, m.conditions, c.conditions))
  }

  /** A patch computed from what the server still holds leaves exactly what was computed. */
  lemma MergeFromCurrent(b: SpmStatus, m: SpmStatus, p: PmStatus, q: PmStatus)
    ensures MergeSpm(b, m, b) == m && MergePm(p, q, p) == q
  {}

  // ----- what the writers compute -----

  datatype SetupError = SetupError(code: string, message: string)
  datatype Intent = Intent(id: string, status: string, error: Option<SetupError>)
  datatype Details = Details(id: string, instrumentType: string, card: Card, address: Address)

  /** A delivery for this StripePaymentMethod: setup succeeded, or failed or was canceled. */
  datatype Payload = Succeeded(intent: Intent, details: Details, now: int) | Rejected(intent: Intent)

  /** A freshly created SetupIntent, its expiry, and the customer it is for. */
  datatype NewIntent = NewIntent(
    id: string, clientSecret: string, status: string, expiresAt: int, customerId: string, taxIdsApplied: bool)

  /** patchStripeSuccess */
  function SucceededSpm(s: SpmStatus, i: Intent, d: Details, now: int): SpmStatus {
    var s := s.(phase := Active, paymentMethodId := d.id, confirmedAt := Some(now),
                intentId := i.id, intentStatus := i.status, clientSecret := "",
                conditions := s.conditions["Confirmed" := true]);
    if d.instrumentType == "card" then s.(instrumentType := "card", card := d.card) else s
  }

  /** patchStripeFailure */
  function RejectedSpm(s: SpmStatus, i: Intent): SpmStatus {
    var s := s.(phase := Failed, intentId := i.id, intentStatus := i.status,
                conditions := s.conditions["Confirmed" := false]);
    if i.error.Some? then s.(failureReason := i.error.value.code, failureMessage := i.error.value.message) else s
  }

  /** projectOntoPaymentMethod */
  function SucceededPm(s: PmStatus, d: Details): PmStatus {
    var s := s.(phase := Active, conditions := s.conditions[READY := true]);
    if d.instrumentType == "card" then s.(instrumentType := "card", card := d.card, address := d.address) else s
  }

  /** projectFailureOntoPaymentMethod */
  function RejectedPm(s: PmStatus, i: Intent): PmStatus {
    var s := s.(phase := Failed, conditions := s.conditions[READY := false]);
    if i.error.None? then s else
    s.(failureReason := if i.error.value.code != "" then i.error.value.code else s.failureReason,
       failureMessage := if i.error.value.message != "" then i.error.value.message else s.failureMessage)
  }

  function DeliveredSpm(s: SpmStatus, p: Payload): SpmStatus {
    match p
    case Succeeded(i, d, now) => SucceededSpm(s, i, d, now)
    case Rejected(i) => RejectedSpm(s, i)
  }

  function DeliveredPm(s: PmStatus, p: Payload): PmStatus {
    match p
    case Succeeded(_, d, _) => SucceededPm(s, d)
    case Rejected(i) => RejectedPm(s, i)
  }

  /** The phase a delivery moves both objects to. */
  function Target(p: Payload): Phase {
    if p.Succeeded? then Active else Failed
  }

  /** reconcileSetupIntent */
  function IntentSpm(s: SpmStatus, n: NewIntent): SpmStatus {
    s.(phase := AwaitingConfirmation, customerId := n.customerId, intentId := n.id, clientSecret := n.clientSecret,
       intentStatus := n.status, expiresAt := Some(n.expiresAt),
       conditions := s.conditions["SetupIntentReady" := true]["TaxIDsApplied" := n.taxIdsApplied])
  }

  /** ensurePaymentMethodAwaiting */
  function AwaitingPm(s: PmStatus): PmStatus {
    s.(phase := AwaitingConfirmation, conditions := s.conditions[READY := false])
  }

  predicate Terminal(phase: Phase) {
    phase.Active? || phase.Failed?
  }

  predicate Settled(phase: Phase) {
    phase.AwaitingConfirmation? || Terminal(phase)
  }

  /** setupIntentExpired: without an expiry the intent counts as fresh. */
  predicate Expired(s: SpmStatus, now: int) {
    s.expiresAt.Some? && now > s.expiresAt.value
  }

  // ----- the code: the local copy is mutated field by field, then sent as a patch -----

  datatype TimelineEvent = PaymentMethodAttached | PaymentMethodFailed

  /** The API server's two objects and the timeline events recorded on the parent. */
  class ApiServer {
    var spm: SpmStatus
    var pm: PmStatus
    var log: seq<TimelineEvent>

    method PatchSpm(base: SpmStatus, modified: SpmStatus, effect: Effect) returns (ok: bool)
      modifies this`spm
      ensures spm == if effect.Refused? then old(spm) else MergeSpm(base, modified, old(spm))
      ensures ok <==> effect.Done?
    {
      if !effect.Refused? { spm := MergeSpm(base, modified, spm); }
      ok := effect.Done?;
    }

    method PatchPm(base: PmStatus, modified: PmStatus, effect: Effect) returns (ok: bool)
      modifies this`pm
      ensures pm == if effect.Refused? then old(pm) else MergePm(base, modified, old(pm))
      ensures ok <==> effect.Done?
    {
      if !effect.Refused? { pm := MergePm(base, modified, pm); }
      ok := effect.Done?;
    }
  }

  class StripePaymentMethod {
    var status: SpmStatus
    constructor (status: SpmStatus) ensures this.status == status { this.status := status; }
  }

  class PaymentMethod {
    var status: PmStatus
    constructor (status: PmStatus) ensures this.status == status { this.status := status; }
  }

  /** http.go:321-383, over a copy spm that the server may have moved on from. */
  method PatchStripe(server: ApiServer, spm: StripePaymentMethod, p: Payload, effect: Effect) returns (ok: bool)
    modifies server`spm, spm
    ensures server.spm == if effect.Refused? then old(server.spm)
              else MergeSpm(old(spm.status), spm.status, old(server.spm))
    ensures ok <==> effect.Done?
    ensures spm.status == DeliveredSpm(old(spm.status), p)
    ensures p.Succeeded? ==>
              && spm.status.phase == Active && spm.status.paymentMethodId == p.details.id
              && spm.status.confirmedAt == Some(p.now) && spm.status.clientSecret == ""
              && spm.status.conditions == old(spm.status.conditions)["Confirmed" := true]
    ensures p.Succeeded? && p.details.instrumentType == "card" ==>
              spm.status.instrumentType == "card" && spm.status.card == p.details.card
    ensures p.Rejected? ==>
              spm.status.phase == Failed && spm.status.conditions == old(spm.status.conditions)["Confirmed" := false]
    ensures p.Rejected? && p.intent.error.Some? ==>
              && spm.status.failureReason == p.intent.error.value.code
              && spm.status.failureMessage == p.intent.error.value.message
    ensures spm.status.intentId == p.intent.id && spm.status.intentStatus == p.intent.status
  {
    var base := spm.status;
    if p.Succeeded? {
      spm.status := spm.status.(phase := Active);
      spm.status := spm.status.(paymentMethodId := p.details.id);
      spm.status := spm.status.(confirmedAt := Some(p.now));
      spm.status := spm.status.(intentId := p.intent.id);
      spm.status := spm.status.(intentStatus := p.intent.status);
      spm.status := spm.status.(clientSecret := "");
      if p.details.instrumentType == "card" {
        spm.status := spm.status.(instrumentType := "card", card := p.details.card);
      }
      spm.status := spm.status.(conditions := spm.status.conditions["Confirmed" := true]);
    } else {
      spm.status := spm.status.(phase := Failed);
      spm.status := spm.status.(intentId := p.intent.id);
      spm.status := spm.status.(intentStatus := p.intent.status);
      if p.intent.error.Some? {
        spm.status := spm.status.(failureReason := p.intent.error.value.code);
        spm.status := spm.status.(failureMessage := p.intent.error.value.message);
      }
      spm.status := spm.status.(conditions := spm.status.conditions["Confirmed" := false]);
    }
    ok := server.PatchSpm(base, spm.status, effect);
  }

  /** http.go:388-485 after its Get: bm is what that read returned. */
  method Project(server: ApiServer, bm: PaymentMethod, p: Payload, effect: Effect) returns (ok: bool)
    modifies server`pm, server`log, bm
    ensures server.pm == if effect.Refused? then old(server.pm)
              else MergePm(old(bm.status), bm.status, old(server.pm))
    ensures ok <==> effect.Done?
    ensures bm.status == DeliveredPm(old(bm.status), p)
    ensures p.Succeeded? ==>
              bm.status.phase == Active && bm.status.conditions == old(bm.status.conditions)["InstrumentReady" := true]
    ensures p.Succeeded? && p.details.instrumentType == "card" ==>
              && bm.status.instrumentType == "card"
              && bm.status.card == p.details.card && bm.status.address == p.details.address
    ensures p.Rejected? ==>
              bm.status.phase == Failed && bm.status.conditions == old(bm.status.conditions)["InstrumentReady" := false]
    ensures p.Rejected? && p.intent.error.Some? ==>
              && (p.intent.error.value.code != "" ==> bm.status.failureReason == p.intent.error.value.code)
              && (p.intent.error.value.message != "" ==> bm.status.failureMessage == p.intent.error.value.message)
    ensures server.log == old(server.log) + Recorded(old(bm.status.phase), p, effect)
  {
    var base := bm.status;
    var already := base.phase == Target(p);
    if p.Succeeded? {
      bm.status := bm.status.(phase := Active);
      if p.details.instrumentType == "card" {
        bm.status := bm.status.(instrumentType := "card", card := p.details.card, address := p.details.address);
      }
      bm.status := bm.status.(conditions := bm.status.conditions[READY := true]);
    } else {
      bm.status := bm.status.(phase := Failed);
      if p.intent.error.Some? {
        if p.intent.error.value.code != "" {
          bm.status := bm.status.(failureReason := p.intent.error.value.code);
        }
        if p.intent.error.value.message != "" {
          bm.status := bm.status.(failureMessage := p.intent.error.value.message);
        }
      }
      bm.status := bm.status.(conditions := bm.status.conditions[READY := false]);
    }
    ok := server.PatchPm(base, bm.status, effect);
    if ok && !already {
      server.log := server.log + [if p.Succeeded? then PaymentMethodAttached else PaymentMethodFailed];
    }
  }

  /** The timeline event of a projection: only on an acknowledged patch, and not when the copy was there already. */
  function Recorded(snapshot: Phase, p: Payload, effect: Effect): seq<TimelineEvent> {
    if effect.Done? && snapshot != Target(p)
    then [if p.Succeeded? then PaymentMethodAttached else PaymentMethodFailed] else []
  }

  /** stripepaymentmethod_controller.go:217-253 */
  method PatchIntent(server: ApiServer, spm: StripePaymentMethod, n: NewIntent, effect: Effect) returns (ok: bool)
    modifies server`spm, spm
    ensures server.spm == if effect.Refused? then old(server.spm)
              else MergeSpm(old(spm.status), spm.status, old(server.spm))
    ensures ok <==> effect.Done?
    ensures spm.status == IntentSpm(old(spm.status), n)
    ensures && spm.status.phase == AwaitingConfirmation && spm.status.customerId == n.customerId
            && spm.status.intentId == n.id && spm.status.clientSecret == n.clientSecret
            && spm.status.intentStatus == n.status && spm.status.expiresAt == Some(n.expiresAt)
            && spm.status.conditions ==
                 old(spm.status.conditions)["SetupIntentReady" := true]["TaxIDsApplied" := n.taxIdsApplied]
  {
    var base := spm.status;
    spm.status := spm.status.(phase := AwaitingConfirmation);
    spm.status := spm.status.(customerId := n.customerId);
    spm.status := spm.status.(intentId := n.id, clientSecret := n.clientSecret, intentStatus := n.status,
                              expiresAt := Some(n.expiresAt));
    spm.status := spm.status.(conditions := spm.status.conditions["SetupIntentReady" := true]);
    spm.status := spm.status.(conditions := spm.status.conditions["TaxIDsApplied" := n.taxIdsApplied]);
    ok := server.PatchSpm(base, spm.status, effect);
  }

  /** stripepaymentmethod_controller.go:464-484 after its Get */
  method PatchAwaiting(server: ApiServer, pm: PaymentMethod, effect: Effect) returns (ok: bool)
    modifies server`pm, pm
    ensures server.pm == if Settled(old(pm.status.phase)) || effect.Refused? then old(server.pm)
              else MergePm(old(pm.status), AwaitingPm(old(pm.status)), old(server.pm))
    ensures ok <==> !old(pm.status.phase).Early? || effect.Done?
    ensures old(pm.status.phase).Early? ==>
              && pm.status.phase == AwaitingConfirmation
              && pm.status.conditions == old(pm.status.conditions)["InstrumentReady" := false]
  {
    if pm.status.phase == AwaitingConfirmation || pm.status.phase == Active || pm.status.phase == Failed {
      return true;
    }
    var base := pm.status;
    pm.status := pm.status.(phase := AwaitingConfirmation);
    pm.status := pm.status.(conditions := pm.status.conditions[READY := false]);
    ok := server.PatchPm(base, pm.status, effect);
  }
}
