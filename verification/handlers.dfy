/**
 * The five event handlers: each builds a lead payload, upserts it, builds a
 * contact payload linked to the returned lead id, upserts that, and writes
 * both returned ids back onto the order (`orderBeforePaid` upserts the lead
 * only; it and a call-back without an order write nothing back). `time()`
 * is passed in as `Times`.
 */
module Handlers {
  import opened Wrappers
  import opened Json
  import opened Entities
  import opened Fields
  import opened Gateway

  // The literal names and tags the handlers send (their wording is opaque here).
  const LeadNamePrefix := "Осаго "
  const OrderLinkPrefix := "https://osago.prosto.insure/order/"
  /** Spelled with a Latin "C", as in the source. */
  const InsurerContactName := "Cтрахователь"
  const DocumentsTag := "загружены-документы"
  const DocumentsContactPrefix := "Осаго документы "
  const CardTag := "доставка оплачено картой"
  const CourierTag := "доставка оплата курьеру"
  const DeliveryFrom := " от "
  const DeliveryTo := " до "
  const BackCallTag := "обратный звонок процесс оформления"
  const OrphanBackCallTag := "обратный звонок"
  const OrphanSuffix := " без заказа"
  const InsurantTag := "страхователь"
  const Work := "WORK"

  /** The two readings of `time()` in a handler: for the lead and for the contact. */
  datatype Times = Times(lead: int, contact: int)

  /** The component and the order after a handler that writes ids back. */
  datatype Synced = Synced(amo: Amo, order: Order)

  /** After a call-back: the order written back to, when one was found. */
  datatype BackCallSynced = BackCallSynced(amo: Amo, order: Option<Order>)

  /** The fatal error `orderBeforePaid` meets on a policy without a vehicle. */
  datatype Crash = NoAuto

  /** The upserts sent between two states of the component. */
  function IssuedSince(before: Amo, after: Amo): seq<Exchange> {
    if before.log <= after.log then Upserts(after.log[|before.log|..]) else []
  }

  // ---------------------------------------------------------------------------
  // Properties shared by the handlers' contracts

  /**
   * The stored CRM id decides the upsert: `id` is sent, and the upsert is an
   * update, exactly when the stored id is truthy; the id sent is the stored one.
   */
  predicate KeyedBy(s: Sent, stored: Json) {
    && ("id" in s.payload <==> Truthy(stored))
    && (Truthy(stored) ==> s.payload["id"] == stored)
    && (s.op == Update <==> Truthy(stored))
  }

  /** The payload holds `v` under `k`. */
  predicate Has(p: Payload, k: string, v: Json) {
    k in p && p[k] == v
  }

  /** `KeyedBy` for a payload about to be upserted. */
  predicate KeyedPayload(p: Payload, stored: Json) {
    && ("id" in p <==> Truthy(stored))
    && (Truthy(stored) ==> p["id"] == stored)
    && (ChooseOperation(p) == Update <==> Truthy(stored))
  }

  /** The contact is linked to exactly the value the lead upsert returned. */
  predicate LinkedTo(s: Sent, leadId: Json) {
    "linked_leads_id" in s.payload && s.payload["linked_leads_id"] == List([leadId])
  }

  /** The `i`-th custom field of `l` is the untagged entry for `name` holding `value`. */
  predicate FieldIs(cfg: Config, l: Json, i: nat, name: string, value: Json) {
    FieldAt(l, i) == Some(CustomField(FieldId(cfg.fields, name), value, Untagged))
  }

  /** A contact's custom fields: email then phone, each tagged "WORK" under `key`. */
  predicate WorkContact(cfg: Config, l: Json, email: Json, phone: Json, key: TagKey) {
    && FieldCount(l) == 2
    && FieldAt(l, 0) == Some(CustomField(FieldId(cfg.fields, "email"), email, Tagged(key, Str(Work))))
    && FieldAt(l, 1) == Some(CustomField(FieldId(cfg.fields, "phone"), phone, Tagged(key, Str(Work))))
  }

  /** A lead's custom fields: exactly the order number and the order link. */
  predicate OrderFields(cfg: Config, l: Json, order: Order) {
    && FieldCount(l) == 2
    && FieldIs(cfg, l, 0, "order_number", Str(order.code))
    && FieldIs(cfg, l, 1, "link", Str(OrderLink(order.code)))
  }

  /**
   * The fields `orderBeforePaid` sends: the vehicle and driver values as
   * recorded (no fall-back to the offer), and the delivery window.
   */
  predicate BeforePaidFields(cfg: Config, l: Json, order: Order, auto: Auto) {
    && FieldCount(l) == 8
    && BeforePaidDriverFields(cfg, l, order.policy, auto)
    && BeforePaidVehicleFields(cfg, l, order, auto)
  }

  /** Fields 0-3 of the pre-payment lead: insurer, power, youngest age, least experience. */
  predicate BeforePaidDriverFields(cfg: Config, l: Json, p: Policy, auto: Auto) {
    && FieldIs(cfg, l, 0, "company", p.companyLabel)
    && FieldIs(cfg, l, 1, "power", auto.power)
    && FieldIs(cfg, l, 2, "youngest", p.driversMinimumAge)
    && FieldIs(cfg, l, 3, "inexperienced", p.driversMinimumExperience)
  }

  /** Fields 4-7 of the pre-payment lead: make, model, year, delivery window. */
  predicate BeforePaidVehicleFields(cfg: Config, l: Json, order: Order, auto: Auto) {
    && FieldIs(cfg, l, 4, "mark", auto.markLabel)
    && FieldIs(cfg, l, 5, "model", auto.modelLabel)
    && FieldIs(cfg, l, 6, "production_year", auto.productionYear)
    && FieldIs(cfg, l, 7, "delivery_datetime", Str(DeliveryText(order.delivery)))
  }

  /**
   * The fields a call-back about a known order sends: power from the vehicle
   * record when there is one, age and experience from the drivers when there
   * are any, each otherwise from the offer's text; term, car type, multi-drive,
   * clean experience and region always from the offer.
   */
  predicate BackCallFields(cfg: Config, l: Json, order: Order) {
    && FieldCount(l) == 11
    && BackCallIdentityFields(cfg, l, order)
    && BackCallDriverFields(cfg, l, order.policy)
    && BackCallOfferFields(cfg, l, order.policy.offer)
  }

  /** Fields 0-2 of a call-back lead: order number, link, insurer. */
  predicate BackCallIdentityFields(cfg: Config, l: Json, order: Order) {
    && FieldIs(cfg, l, 0, "order_number", Str(order.code))
    && FieldIs(cfg, l, 1, "link", Str(OrderLink(order.code)))
    && FieldIs(cfg, l, 2, "company", order.policy.companyLabel)
  }

  /** Fields 3-5 of a call-back lead: recorded values, or the offer's text when absent. */
  predicate BackCallDriverFields(cfg: Config, l: Json, p: Policy) {
    && (p.auto.Some? ==> FieldIs(cfg, l, 3, "power", p.auto.value.power))
    && (p.auto.None? ==> FieldIs(cfg, l, 3, "power", p.offer.power))
    && (p.hasDrivers ==> FieldIs(cfg, l, 4, "youngest", p.driversMinimumAge))
    && (!p.hasDrivers ==> FieldIs(cfg, l, 4, "youngest", p.offer.age))
    && (p.hasDrivers ==> FieldIs(cfg, l, 5, "inexperienced", p.driversMinimumExperience))
    && (!p.hasDrivers ==> FieldIs(cfg, l, 5, "inexperienced", p.offer.experience))
  }

  /** Fields 6-10 of a call-back lead: always the offer's text. */
  predicate BackCallOfferFields(cfg: Config, l: Json, offer: OfferData) {
    && FieldIs(cfg, l, 6, "term", offer.term)
    && FieldIs(cfg, l, 7, "car_type", offer.carType)
    && FieldIs(cfg, l, 8, "is_multiple_drive", offer.isMultipleDrive)
    && FieldIs(cfg, l, 9, "clear_experience", offer.clearExperience)
    && FieldIs(cfg, l, 10, "region", offer.region)
  }

  /**
   * One lead upsert then one contact upsert for `order`, both keyed by the
   * stored ids, the contact linked to the lead result, and the two results
   * written back as the order's new ids (nothing else of the order changes).
   */
  predicate SyncedPair(order: Order, u: seq<Exchange>, order': Order) {
    && |u| == 2
    && Issued(u[0]).objType == Lead
    && Issued(u[1]).objType == Contact
    && Sound(u[0]) && Sound(u[1])
    && KeyedBy(Issued(u[0]), order.amoLeadId)
    && KeyedBy(Issued(u[1]), order.amoContactId)
    && LinkedTo(Issued(u[1]), Returned(u[0]))
    && order' == order.(amoLeadId := Returned(u[0]), amoContactId := Returned(u[1]))
  }

  /** With a cookie already cached, a handler sends its upserts and nothing else. */
  predicate NoReauth(a: Amo, a': Amo, upserts: nat) {
    a.authCookie.Some? ==> a'.authCookie == a.authCookie && |a'.log| == |a.log| + upserts
  }

  // ---------------------------------------------------------------------------
  // Payload builders

  function OrderLink(code: string): string {
    OrderLinkPrefix + code
  }

  /** `if ($stored) $data['id'] = $stored;` */
  function WithId(p: Payload, stored: Json): (r: Payload)
    requires "id" !in p
    ensures KeyedPayload(r, stored)
    ensures forall k :: k in p ==> k in r && r[k] == p[k]
    ensures r.Keys <= p.Keys + {"id"}
  {
    if Truthy(stored) then p["id" := stored] else p
  }

  /**
   * The order number and link entries. The early milestones write them inline
   * and the later handlers through `addCustomField` without an enum; both build
   * the same entries (see `AddCustomField`).
   */
  function OrderFieldList(cfg: Config, order: Order): (l: Json)
    ensures OrderFields(cfg, l, order)
  {
    Entries([
      PlainValue(cfg.fields, "order_number", Str(order.code)),
      PlainValue(cfg.fields, "link", Str(OrderLink(order.code)))])
  }

  /** The lead of the two early milestones, with an optional tag. */
  function MilestoneLead(cfg: Config, order: Order, tag: Option<string>, now: int): (r: Payload)
    ensures KeyedPayload(r, order.amoLeadId)
    ensures "tags" in r <==> tag.Some?
    ensures tag.Some? ==> Has(r, "tags", Str(tag.value))
    ensures Has(r, "name", Str(LeadNamePrefix + order.code))
    ensures Has(r, "price", order.policy.price)
    ensures Has(r, "last_modified", Int(now))
    ensures OrderFields(cfg, CustomFieldsOf(r), order)
  {
    var base := map[
      "name" := Str(LeadNamePrefix + order.code),
      "price" := order.policy.price,
      "last_modified" := Int(now),
      "custom_fields" := OrderFieldList(cfg, order)];
    var tagged := if tag.Some? then base["tags" := Str(tag.value)] else base;
    WithId(tagged, order.amoLeadId)
  }

  /** The email and phone entries, tagged inline under lower-case "enum". */
  function InlineContactFieldList(cfg: Config, email: Json, phone: Json): (l: Json)
    ensures WorkContact(cfg, l, email, phone, LowerEnum)
  {
    Entries([InlineWorkValue(cfg.fields, "email", email), InlineWorkValue(cfg.fields, "phone", phone)])
  }

  /** The email and phone entries built by `addCustomField`, tagged under "ENUM". */
  function CallerContactFieldList(cfg: Config, email: Json, phone: Json): (l: Json)
    ensures WorkContact(cfg, l, email, phone, UpperEnum)
  {
    Entries([CustomFieldFor(cfg.fields, "email", email, Str(Work)), CustomFieldFor(cfg.fields, "phone", phone, Str(Work))])
  }

  /** A contact payload linked to `leadId`, without `id`. */
  function ContactPayload(name: Json, leadId: Json, now: int, fields: Json): (r: Payload)
    ensures "id" !in r
    ensures Has(r, "name", name)
    ensures Has(r, "linked_leads_id", List([leadId]))
    ensures Has(r, "last_modified", Int(now))
    ensures CustomFieldsOf(r) == fields
  {
    map[
      "name" := name,
      "linked_leads_id" := List([leadId]),
      "last_modified" := Int(now),
      "custom_fields" := fields]
  }

  /** `date . ' от ' . time_from . ' до ' . time_to`; a missing delivery reads as empty strings. */
  function DeliveryText(d: Option<Delivery>): string {
    match d
    case Some(dv) => dv.date + DeliveryFrom + dv.timeFrom + DeliveryTo + dv.timeTo
    case None => DeliveryFrom + DeliveryTo
  }

  /** The payment tag: the card wording exactly when the payment type is `Payment::TYPE_CARD`. */
  function PaymentTag(cfg: Config, order: Order): string {
    if order.paymentType == cfg.cardType then CardTag else CourierTag
  }

  /** The eight entries `orderBeforePaid` writes inline, decoded. */
  function BeforePaidFieldValues(cfg: Config, order: Order, auto: Auto): (fs: seq<CustomField>)
    ensures |fs| == 8
  {
    var f := cfg.fields;
    [ PlainValue(f, "company", order.policy.companyLabel),
      PlainValue(f, "power", auto.power),
      PlainValue(f, "youngest", order.policy.driversMinimumAge),
      PlainValue(f, "inexperienced", order.policy.driversMinimumExperience),
      PlainValue(f, "mark", auto.markLabel),
      PlainValue(f, "model", auto.modelLabel),
      PlainValue(f, "production_year", auto.productionYear),
      PlainValue(f, "delivery_datetime", Str(DeliveryText(order.delivery)))]
  }

  lemma BeforePaidDriverEntries(cfg: Config, order: Order, auto: Auto)
    ensures BeforePaidDriverFields(cfg, Entries(BeforePaidFieldValues(cfg, order, auto)), order.policy, auto)
  {
  }

  lemma BeforePaidVehicleEntries(cfg: Config, order: Order, auto: Auto)
    ensures BeforePaidVehicleFields(cfg, Entries(BeforePaidFieldValues(cfg, order, auto)), order, auto)
  {
  }

  function BeforePaidFieldList(cfg: Config, order: Order, auto: Auto): (l: Json)
    ensures BeforePaidFields(cfg, l, order, auto)
  {
    BeforePaidDriverEntries(cfg, order, auto);
    BeforePaidVehicleEntries(cfg, order, auto);
    Entries(BeforePaidFieldValues(cfg, order, auto))
  }

  /**
   * The lead `orderBeforePaid` sends, around its custom fields: `id` always
   * present, holding the stored id.
   */
  function BeforePaidLead(cfg: Config, order: Order, now: int, fields: Json): (r: Payload)
    ensures Has(r, "id", order.amoLeadId)
    ensures ChooseOperation(r) == Update <==> order.amoLeadId != Null
    ensures Has(r, "price", order.totalPrice)
    ensures Has(r, "tags", Str(PaymentTag(cfg, order)))
    ensures Has(r, "last_modified", Int(now))
    ensures "linked_leads_id" !in r
    ensures CustomFieldsOf(r) == fields
  {
    map[
      "id" := order.amoLeadId,
      "price" := order.totalPrice,
      "tags" := Str(PaymentTag(cfg, order)),
      "last_modified" := Int(now),
      "custom_fields" := fields]
  }

  /** Vehicle power: from the vehicle record if there is one, else the offer's text. */
  function PowerSource(p: Policy): Json {
    if p.auto.Some? then p.auto.value.power else p.offer.power
  }

  /** Youngest driver age: from the drivers if there are any, else the offer's text. */
  function AgeSource(p: Policy): Json {
    if p.hasDrivers then p.driversMinimumAge else p.offer.age
  }

  /** Least driving experience: from the drivers if there are any, else the offer's text. */
  function ExperienceSource(p: Policy): Json {
    if p.hasDrivers then p.driversMinimumExperience else p.offer.experience
  }

  /** The eleven `addCustomField` calls of a call-back about a known order, decoded. */
  function BackCallFieldValues(cfg: Config, order: Order): (fs: seq<CustomField>)
    ensures |fs| == 11
  {
    var f := cfg.fields;
    var p := order.policy;
    [ CustomFieldFor(f, "order_number", Str(order.code), Null),
      CustomFieldFor(f, "link", Str(OrderLink(order.code)), Null),
      CustomFieldFor(f, "company", p.companyLabel, Null),
      CustomFieldFor(f, "power", PowerSource(p), Null),
      CustomFieldFor(f, "youngest", AgeSource(p), Null),
      CustomFieldFor(f, "inexperienced", ExperienceSource(p), Null),
      CustomFieldFor(f, "term", p.offer.term, Null),
      CustomFieldFor(f, "car_type", p.offer.carType, Null),
      CustomFieldFor(f, "is_multiple_drive", p.offer.isMultipleDrive, Null),
      CustomFieldFor(f, "clear_experience", p.offer.clearExperience, Null),
      CustomFieldFor(f, "region", p.offer.region, Null)]
  }

  lemma BackCallIdentityEntries(cfg: Config, order: Order)
    ensures BackCallIdentityFields(cfg, Entries(BackCallFieldValues(cfg, order)), order)
  {

  }

  lemma BackCallDriverEntries(cfg: Config, order: Order)
    ensures BackCallDriverFields(cfg, Entries(BackCallFieldValues(cfg, order)), order.policy)
  {

  }

  lemma BackCallOfferEntries(cfg: Config, order: Order)
    ensures BackCallOfferFields(cfg, Entries(BackCallFieldValues(cfg, order)), order.policy.offer)
  {

  }

  function BackCallFieldList(cfg: Config, order: Order): (l: Json)
    ensures BackCallFields(cfg, l, order)
  {
    BackCallIdentityEntries(cfg, order);
    BackCallDriverEntries(cfg, order);
    BackCallOfferEntries(cfg, order);
    Entries(BackCallFieldValues(cfg, order))
  }

  /** A lead about an order: named after it, tagged, priced at the policy price. */
  function TaggedOrderLead(order: Order, tag: string, now: int, fields: Json): (r: Payload)
    ensures KeyedPayload(r, order.amoLeadId)
    ensures Has(r, "name", Str(LeadNamePrefix + order.code))
    ensures Has(r, "tags", Str(tag))
    ensures Has(r, "price", order.policy.price)
    ensures Has(r, "last_modified", Int(now))
    ensures CustomFieldsOf(r) == fields
  {
    WithId(map[
      "name" := Str(LeadNamePrefix + order.code),
      "tags" := Str(tag),
      "price" := order.policy.price,
      "last_modified" := Int(now),
      "custom_fields" := fields],
      order.amoLeadId)
  }

  /** The lead a call-back without a known order sends: no fields, no id, price 0. */
  function OrphanLead(call: BackCall, now: int): (r: Payload)
    ensures "id" !in r && "custom_fields" !in r
    ensures Has(r, "name", Str(LeadNamePrefix + call.id + OrphanSuffix))
    ensures Has(r, "tags", Str(OrphanBackCallTag))
    ensures Has(r, "price", Int(0))
    ensures Has(r, "last_modified", Int(now))
  {
    map[
      "name" := Str(LeadNamePrefix + call.id + OrphanSuffix),
      "tags" := Str(OrphanBackCallTag),
      "price" := Int(0),
      "last_modified" := Int(now)]
  }

  // ---------------------------------------------------------------------------
  // The handlers

  /** Shared body of the two early milestones, which differ only in tag and contact name. */
  function SyncMilestone(cfg: Config, a: Amo, net: Net, order: Order, tag: Option<string>, contactName: string, now: Times): (r: Synced)
    ensures a.log <= r.amo.log && Answered(r.amo.log, net, |a.log|)
    ensures var u := IssuedSince(a, r.amo);
      && SyncedPair(order, u, r.order)
      && Issued(u[0]).payload == MilestoneLead(cfg, order, tag, now.lead)
      && Issued(u[1]).payload == WithId(
           ContactPayload(Str(contactName), Returned(u[0]), now.contact, InlineContactFieldList(cfg, order.email, order.phone)),
           order.amoContactId)
    ensures NoReauth(a, r.amo, 2)
  {
    var leadData := MilestoneLead(cfg, order, tag, now.lead);
    var lead := Set(cfg, a, net, Lead, leadData);
    var contactData := WithId(
      ContactPayload(Str(contactName), lead.id, now.contact, InlineContactFieldList(cfg, order.email, order.phone)),
      order.amoContactId);
    var contact := Set(cfg, lead.amo, net, Contact, contactData);
    SetThenSet(cfg, a, net, lead, contact, Lead, leadData, Contact, contactData);
    Synced(contact.amo, order.(amoLeadId := lead.id, amoContactId := contact.id))
  }

  /**
   * `orderAfterEmailAndPhoneSet`: an untagged lead carrying the order number
   * and link, then the fixed-name contact with the order's email and phone.
   */
  function OrderAfterEmailAndPhoneSet(cfg: Config, a: Amo, net: Net, order: Order, now: Times): (r: Synced)
    ensures a.log <= r.amo.log && Answered(r.amo.log, net, |a.log|)
    ensures var u := IssuedSince(a, r.amo);
      && SyncedPair(order, u, r.order)
      && "tags" !in Issued(u[0]).payload
      && Has(Issued(u[0]).payload, "name", Str(LeadNamePrefix + order.code))
      && Has(Issued(u[0]).payload, "price", order.policy.price)
      && Has(Issued(u[0]).payload, "last_modified", Int(now.lead))
      && OrderFields(cfg, CustomFieldsOf(Issued(u[0]).payload), order)
      && Has(Issued(u[1]).payload, "name", Str(InsurerContactName))
      && Has(Issued(u[1]).payload, "last_modified", Int(now.contact))
      && WorkContact(cfg, CustomFieldsOf(Issued(u[1]).payload), order.email, order.phone, LowerEnum)
    ensures NoReauth(a, r.amo, 2)
  {
    SyncMilestone(cfg, a, net, order, None, InsurerContactName, now)
  }

  /**
   * `orderAfterDocumentsUploaded`: as the email-and-phone milestone, with the
   * documents tag on the lead and the contact named after the order.
   */
  function OrderAfterDocumentsUploaded(cfg: Config, a: Amo, net: Net, order: Order, now: Times): (r: Synced)
    ensures a.log <= r.amo.log && Answered(r.amo.log, net, |a.log|)
    ensures var u := IssuedSince(a, r.amo);
      && SyncedPair(order, u, r.order)
      && Has(Issued(u[0]).payload, "tags", Str(DocumentsTag))
      && Has(Issued(u[0]).payload, "name", Str(LeadNamePrefix + order.code))
      && Has(Issued(u[0]).payload, "price", order.policy.price)
      && Has(Issued(u[0]).payload, "last_modified", Int(now.lead))
      && OrderFields(cfg, CustomFieldsOf(Issued(u[0]).payload), order)
      && Has(Issued(u[1]).payload, "name", Str(DocumentsContactPrefix + order.code))
      && Has(Issued(u[1]).payload, "last_modified", Int(now.contact))
      && WorkContact(cfg, CustomFieldsOf(Issued(u[1]).payload), order.email, order.phone, LowerEnum)
    ensures NoReauth(a, r.amo, 2)
  {
    SyncMilestone(cfg, a, net, order, Some(DocumentsTag), DocumentsContactPrefix + order.code, now)
  }

  /**
   * `orderBeforePaid`: a single lead upsert and no contact. The payload always
   * carries `id` holding the stored lead id, so the upsert is an update unless
   * that id is null (a stored false still updates). Nothing is written back.
   * A policy without a vehicle is a fatal error before anything is sent.
   */
  function OrderBeforePaid(cfg: Config, a: Amo, net: Net, order: Order, now: int): (r: Result<Synced, Crash>)
    ensures r.Failure? <==> order.policy.auto.None?
    ensures r.Success? ==>
      && a.log <= r.value.amo.log && Answered(r.value.amo.log, net, |a.log|)
      && r.value.order == order
      && NoReauth(a, r.value.amo, 1)
      && var u := IssuedSince(a, r.value.amo);
      && |u| == 1
      && Sound(u[0])
      && Issued(u[0]).objType == Lead
      && Has(Issued(u[0]).payload, "id", order.amoLeadId)
      && (Issued(u[0]).op == Update <==> order.amoLeadId != Null)
      && "linked_leads_id" !in Issued(u[0]).payload
      && Has(Issued(u[0]).payload, "price", order.totalPrice)
      && Has(Issued(u[0]).payload, "last_modified", Int(now))
      && (order.paymentType == cfg.cardType ==> Has(Issued(u[0]).payload, "tags", Str(CardTag)))
      && (order.paymentType != cfg.cardType ==> Has(Issued(u[0]).payload, "tags", Str(CourierTag)))
      && BeforePaidFields(cfg, CustomFieldsOf(Issued(u[0]).payload), order, order.policy.auto.value)
  {
    match order.policy.auto
    case None => Failure(NoAuto)
    case Some(auto) =>
      var data := BeforePaidLead(cfg, order, now, BeforePaidFieldList(cfg, order, auto));
      var lead := Set(cfg, a, net, Lead, data);
      assert IssuedSince(a, lead.amo) == [lead.amo.log[|lead.amo.log| - 1]];
      Success(Synced(lead.amo, order))
  }

  /** `$backCall->orderCode` is truthy and `Order::findOne` finds an order for it. */
  predicate OrderFound(call: BackCall, find: Json -> Option<Order>) {
    Truthy(call.orderCode) && find(call.orderCode).Some?
  }

  /**
   * `backCallAfterInsert`. `find` is `Order::findOne` by code. With an order,
   * a detailed lead and a contact from the caller, keyed by and written back
   * to the order. Without one, a zero-price lead with no fields and a contact,
   * both created afresh, and nothing written back.
   */
  function BackCallAfterInsert(cfg: Config, a: Amo, net: Net, call: BackCall, find: Json -> Option<Order>, now: Times): (r: BackCallSynced)
    ensures a.log <= r.amo.log && Answered(r.amo.log, net, |a.log|)
    ensures NoReauth(a, r.amo, 2)
    ensures var u := IssuedSince(a, r.amo);
      && |u| == 2
      && Sound(u[0]) && Sound(u[1])
      && Issued(u[0]).objType == Lead
      && Issued(u[1]).objType == Contact
      && LinkedTo(Issued(u[1]), Returned(u[0]))
      && Has(Issued(u[0]).payload, "last_modified", Int(now.lead))
      && Has(Issued(u[1]).payload, "name", call.name)
      && Has(Issued(u[1]).payload, "last_modified", Int(now.contact))
      && WorkContact(cfg, CustomFieldsOf(Issued(u[1]).payload), call.email, call.phone, UpperEnum)
    ensures OrderFound(call, find) <==> r.order.Some?
    ensures OrderFound(call, find) ==>
      var order := find(call.orderCode).value;
      var u := IssuedSince(a, r.amo);
      && SyncedPair(order, u, r.order.value)
      && Has(Issued(u[0]).payload, "name", Str(LeadNamePrefix + order.code))
      && Has(Issued(u[0]).payload, "tags", Str(BackCallTag))
      && Has(Issued(u[0]).payload, "price", order.policy.price)
      && BackCallFields(cfg, CustomFieldsOf(Issued(u[0]).payload), order)
    ensures !OrderFound(call, find) ==>
      var u := IssuedSince(a, r.amo);
      && Issued(u[0]).payload == OrphanLead(call, now.lead)
      && Has(Issued(u[0]).payload, "name", Str(LeadNamePrefix + call.id + OrphanSuffix))
      && Has(Issued(u[0]).payload, "price", Int(0))
      && Has(Issued(u[0]).payload, "tags", Str(OrphanBackCallTag))
      && "custom_fields" !in Issued(u[0]).payload
      && "id" !in Issued(u[0]).payload && Issued(u[0]).op == Add
      && "id" !in Issued(u[1]).payload && Issued(u[1]).op == Add
  {
    if OrderFound(call, find) then
      var order := find(call.orderCode).value;
      var leadData := TaggedOrderLead(order, BackCallTag, now.lead, BackCallFieldList(cfg, order));
      var lead := Set(cfg, a, net, Lead, leadData);
      var contactData := WithId(
        ContactPayload(call.name, lead.id, now.contact, CallerContactFieldList(cfg, call.email, call.phone)),
        order.amoContactId);
      var contact := Set(cfg, lead.amo, net, Contact, contactData);
      SetThenSet(cfg, a, net, lead, contact, Lead, leadData, Contact, contactData);
      BackCallSynced(contact.amo, Some(order.(amoLeadId := lead.id, amoContactId := contact.id)))
    else
      var leadData := OrphanLead(call, now.lead);
      var lead := Set(cfg, a, net, Lead, leadData);
      var contactData := ContactPayload(call.name, lead.id, now.contact, CallerContactFieldList(cfg, call.email, call.phone));
      var contact := Set(cfg, lead.amo, net, Contact, contactData);
      SetThenSet(cfg, a, net, lead, contact, Lead, leadData, Contact, contactData);
      BackCallSynced(contact.amo, None)
  }

  /**
   * `insurantAfterInsert`: a lead tagged for the insured party with the order
   * number and link, then a contact from the insured party's name, email and
   * phone; both keyed by and written back to the insured party's order.
   */
  function InsurantAfterInsert(cfg: Config, a: Amo, net: Net, ins: Insurant, now: Times): (r: Synced)
    ensures a.log <= r.amo.log && Answered(r.amo.log, net, |a.log|)
    ensures NoReauth(a, r.amo, 2)
    ensures var u := IssuedSince(a, r.amo);
      && SyncedPair(ins.order, u, r.order)
      && Has(Issued(u[0]).payload, "tags", Str(InsurantTag))
      && Has(Issued(u[0]).payload, "name", Str(LeadNamePrefix + ins.order.code))
      && Has(Issued(u[0]).payload, "price", ins.order.policy.price)
      && Has(Issued(u[0]).payload, "last_modified", Int(now.lead))
      && OrderFields(cfg, CustomFieldsOf(Issued(u[0]).payload), ins.order)
      && Has(Issued(u[1]).payload, "name", ins.fullName)
      && Has(Issued(u[1]).payload, "last_modified", Int(now.contact))
      && WorkContact(cfg, CustomFieldsOf(Issued(u[1]).payload), ins.email, ins.phone, UpperEnum)
  {
    var order := ins.order;
    var leadData := TaggedOrderLead(order, InsurantTag, now.lead, OrderFieldList(cfg, order));
    var lead := Set(cfg, a, net, Lead, leadData);
    var contactData := WithId(
      ContactPayload(ins.fullName, lead.id, now.contact, CallerContactFieldList(cfg, ins.email, ins.phone)),
      order.amoContactId);
    var contact := Set(cfg, lead.amo, net, Contact, contactData);
    SetThenSet(cfg, a, net, lead, contact, Lead, leadData, Contact, contactData);
    Synced(contact.amo, order.(amoLeadId := lead.id, amoContactId := contact.id))
  }
}
