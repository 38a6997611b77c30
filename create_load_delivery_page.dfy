/** The form that adds a row to the delivery-tracking table. */
module CreateLoadDeliveryPage {
  import opened Wrappers
  import opened Store
  import opened Queries
  import opened Schema
  import DeliveryLoadManager

  /** The five registered inputs. The miles input reports a number, or
      nothing when left empty; the state selects always hold one of their
      options. */
  datatype DeliveryForm = DeliveryForm(
    brokerName: string,
    pickupDate: string,
    totalMiles: Option<real>,
    pickupState: string,
    deliveryState: string)

  /** A failed validation rule: the field and the message shown under it
      ("" where the rule gives none). */
  datatype FieldError = FieldError(field: string, message: string)

  /** react-hook-form's rules: `brokerName` and `pickupDate` required,
      `totalMiles` required and at least 1. */
  function FieldErrors(form: DeliveryForm): (errs: seq<FieldError>)
    ensures errs == [] <==> form.brokerName != "" && form.pickupDate != ""
                            && form.totalMiles.Some? && form.totalMiles.value >= 1.0
    ensures FieldError("brokerName", "Broker name is required") in errs <==> form.brokerName == ""
    ensures FieldError("pickupDate", "Date is required") in errs <==> form.pickupDate == ""
    ensures FieldError("totalMiles", "Miles required") in errs <==> form.totalMiles.None?
    ensures FieldError("totalMiles", "") in errs <==> form.totalMiles.Some? && form.totalMiles.value < 1.0
  {
    (if form.brokerName == "" then [FieldError("brokerName", "Broker name is required")] else [])
    + (if form.pickupDate == "" then [FieldError("pickupDate", "Date is required")] else [])
    + (if form.totalMiles.None? then [FieldError("totalMiles", "Miles required")]
       else if form.totalMiles.value < 1.0 then [FieldError("totalMiles", "")]
       else [])
  }

  /** Both state selects list `usStates`, so a submitted form names states
      from that list. */
  predicate Offered(form: DeliveryForm, usStates: seq<string>) {
    form.pickupState in usStates && form.deliveryState in usStates
  }

  /** `{ ...newLoad, loadCompleted: false }`, with the creation time the
      data service assigns. */
  function NewDeliveryLoad(form: DeliveryForm, now: string): (d: DeliveryLoad)
    requires form.totalMiles.Some?
    ensures !d.loadCompleted
    ensures d.brokerName == form.brokerName && d.pickupDate == form.pickupDate
    ensures d.totalMiles == form.totalMiles.value
    ensures d.pickupState == form.pickupState && d.deliveryState == form.deliveryState
  {
    DeliveryLoad(form.brokerName, form.pickupDate, form.totalMiles.value, form.pickupState,
                 form.deliveryState, false, now)
  }

  datatype CreateOutcome =
    | Blocked(errors: seq<FieldError>)
    | Created(row: Row<DeliveryLoad>, invalidated: set<CacheFilter>, navigateTo: string)
    | Rejected(message: string)

  /** `handleSubmit(onSubmit)` and the mutation: a form with a failed rule is
      not sent; otherwise the row is inserted, every query is invalidated
      (`invalidateQueries(['deliveryLoads'])` passes no key filter) and the
      page goes to `/admin/loadsCompletion`. */
  method Submit(table: Table<DeliveryLoad>, form: DeliveryForm, newId: string, now: string, outage: Option<string>)
    returns (o: CreateOutcome)
    requires table.Valid()
    modifies table
    ensures table.Valid()
    ensures o.Blocked? <==> FieldErrors(form) != []
    ensures o.Blocked? ==> o.errors == FieldErrors(form)
    ensures o.Created? <==> FieldErrors(form) == [] && outage.None? && Find(old(table.rows), newId).None?
    ensures o.Created? ==> form.totalMiles.Some?
                           && o.row == Row(newId, NewDeliveryLoad(form, now))
                           && table.rows == old(table.rows) + [o.row]
                           && o.invalidated == {AnyQuery} && o.navigateTo == "/admin/loadsCompletion"
    ensures !o.Created? ==> table.rows == old(table.rows)
    ensures o.Rejected? && outage.Some? ==> o.message == outage.value
  {
    var errs := FieldErrors(form);
    if errs != [] {
      o := Blocked(errs);
      return;
    }
    var r := table.Insert(newId, NewDeliveryLoad(form, now), outage);
    if r.Err? {
      o := Rejected(r.message);
    } else {
      o := Created(Row(newId, NewDeliveryLoad(form, now)), {AnyQuery}, "/admin/loadsCompletion");
    }
  }

  /** A created row is open, so its first click in the tracking table marks
      it delivered and shows the success toast. */
  lemma CreatedRowStartsOpen(form: DeliveryForm, now: string)
    requires FieldErrors(form) == []
    ensures NewDeliveryLoad(form, now).totalMiles >= 1.0
    ensures DeliveryLoadManager.Celebrates(NewDeliveryLoad(form, now).loadCompleted)
    ensures DeliveryLoadManager.SetCompleted(NewDeliveryLoad(form, now).loadCompleted)(NewDeliveryLoad(form, now)).loadCompleted
  {
  }

  /** The stored route uses states from the list the selects offer. */
  lemma StoredStatesOffered(form: DeliveryForm, now: string, usStates: seq<string>)
    requires form.totalMiles.Some? && Offered(form, usStates)
    ensures NewDeliveryLoad(form, now).pickupState in usStates
    ensures NewDeliveryLoad(form, now).deliveryState in usStates
  {
  }
}
