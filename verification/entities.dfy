/**
 * Snapshots of the host application's records as the component reads them.
 * The ORM getters (`getAuto()`, `getDrivers()`, `getOfferData()`, ...) are not
 * part of this model: their results appear here as plain values.
 */
module Entities {
  import opened Wrappers
  import opened Json

  /** `$policy->getAuto()`: the vehicle record, once the buyer has entered it. */
  datatype Auto = Auto(power: Json, markLabel: Json, modelLabel: Json, productionYear: Json)

  /** `$policy->getOfferData()`: the text representations of the pre-purchase offer. */
  datatype OfferData = OfferData(
    power: Json,
    age: Json,
    experience: Json,
    term: Json,
    carType: Json,
    isMultipleDrive: Json,
    clearExperience: Json,
    region: Json)

  /**
   * `$order->policy`. `hasDrivers` is `!empty($policy->getDrivers())`; the two
   * driver minima are what `getDriversMinimumAge()` and
   * `getDriversMinimumExperience()` return. `companyLabel` is
   * `$policy->insuranceCompany->label` (null when there is no company).
   */
  datatype Policy = Policy(
    price: Json,
    companyLabel: Json,
    auto: Option<Auto>,
    hasDrivers: bool,
    driversMinimumAge: Json,
    driversMinimumExperience: Json,
    offer: OfferData)

  /** `$order->getDelivery()`. */
  datatype Delivery = Delivery(date: string, timeFrom: string, timeTo: string)

  /**
   * An insurance order. `amoLeadId` and `amoContactId` are the CRM ids the
   * component writes back; they hold whatever the last upsert returned
   * (an id, null, or false after a failed request). `paymentType` is
   * `$order->getPayment()->payment_type` (null when there is no payment).
   */
  datatype Order = Order(
    code: string,
    email: Json,
    phone: Json,
    totalPrice: Json,
    paymentType: Json,
    delivery: Option<Delivery>,
    policy: Policy,
    amoLeadId: Json,
    amoContactId: Json)

  /** A call-back request. `id` is the record id in its decimal text form. */
  datatype BackCall = BackCall(id: string, orderCode: Json, name: Json, email: Json, phone: Json)

  /** An insured party; `order` is `$insurant->policy->getOrder()`. */
  datatype Insurant = Insurant(fullName: Json, email: Json, phone: Json, order: Order)

  /**
   * The component's configuration: the custom-field registry
   * (`amo-crm.custom-fields`), the login and hash sent to the auth endpoint,
   * and the value of `Payment::TYPE_CARD`.
   */
  datatype Config = Config(fields: map<string, int>, login: string, hash: string, cardType: Json)
}
