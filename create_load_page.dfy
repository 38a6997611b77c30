/** The admin page that creates a load for a broker, opened from the brokers
    table as `/admin/loads/create?brokerId=<id>`. */
module CreateLoadPage {
  import opened Wrappers
  import opened Text
  import opened Store
  import opened Queries
  import opened Schema
  import opened Urls

  /** The broker as the page fetches it (`select('id, name')`). */
  datatype BrokerSummary = BrokerSummary(id: string, name: string)

  const BrokerLookupPrefix := "Broker not found: "

  /** `fetchBrokerDetails(brokerId)`: the one broker with that id. */
  function FetchBrokerDetails(brokers: seq<Row<Broker>>, brokerId: string, outage: Option<string>)
    : (r: Result<BrokerSummary>)
    ensures r.Ok? <==> outage.None? && Find(brokers, brokerId).Some?
    ensures r.Ok? ==> r.value == BrokerSummary(brokerId, Find(brokers, brokerId).value.name)
    ensures r.Err? ==> StartsWith(r.message, BrokerLookupPrefix)
  {
    if outage.Some? then Err(BrokerLookupPrefix + outage.value)
    else match Find(brokers, brokerId)
      case Some(b) => Ok(BrokerSummary(brokerId, b.name))
      case None => Err(BrokerLookupPrefix + NotSingleMessage)
  }

  /** The broker query (`['brokerDetails', brokerId]`), enabled only for a
      truthy `brokerId`. */
  function BrokerQuery(brokers: seq<Row<Broker>>, brokerId: Option<string>, f: Fetch): Query<BrokerSummary> {
    Run(Truthy(brokerId), f, FetchBrokerDetails(brokers, brokerId.GetOr(""), f.outage))
  }

  datatype View = Loading | InvalidBroker | Form(broker: BrokerSummary)

  /** `isLoadingBroker`, then `!broker`. */
  function SelectView(q: Query<BrokerSummary>): View {
    match q
    case Pending => Loading
    case Done(b) => Form(b)
    case _ => InvalidBroker
  }

  /** The form shows only for a broker that is in the table, and a missing
      `brokerId` or a broker that is not there shows "Invalid broker
      selected." once the lookup is over. */
  lemma FormOnlyForStoredBroker(brokers: seq<Row<Broker>>, brokerId: Option<string>, f: Fetch)
    ensures SelectView(BrokerQuery(brokers, brokerId, f)).Form? ==>
              Truthy(brokerId) && Find(brokers, brokerId.value).Some?
              && SelectView(BrokerQuery(brokers, brokerId, f)).broker.id == brokerId.value
    ensures !Truthy(brokerId) ==> SelectView(BrokerQuery(brokers, brokerId, f)) == InvalidBroker
    ensures Truthy(brokerId) && f.settled && Find(brokers, brokerId.value).None? ==>
              SelectView(BrokerQuery(brokers, brokerId, f)) == InvalidBroker
  {
  }

  /** The three registered inputs (`type="date"` inputs report
      `YYYY-MM-DD`, or "" when empty). */
  datatype LoadForm = LoadForm(loadIdName: string, pickupDate: string, deliveryDate: string)

  /** react-hook-form's `required: true` on all three inputs. */
  predicate Complete(form: LoadForm) {
    form.loadIdName != "" && form.pickupDate != "" && form.deliveryDate != ""
  }

  /** `{ ...data, assignedBrokerId: brokerId, status: 'Dispatched' }`. */
  function NewLoad(form: LoadForm, brokerId: string): Load {
    Load(form.loadIdName, brokerId, Some(form.pickupDate), Some(form.deliveryDate), "Dispatched")
  }

  /** A new load always belongs to the broker of the URL and starts as
      "Dispatched", and keeps the entered name and dates. */
  lemma NewLoadForcedFields(form: LoadForm, brokerId: string)
    ensures NewLoad(form, brokerId).assignedBrokerId == brokerId
    ensures NewLoad(form, brokerId).status == "Dispatched" && "Dispatched" in LoadStatuses
    ensures NewLoad(form, brokerId).loadIdName == form.loadIdName
    ensures NewLoad(form, brokerId).pickupDate == Some(form.pickupDate)
    ensures NewLoad(form, brokerId).deliveryDate == Some(form.deliveryDate)
  {
  }

  const CreateErrorPrefix := "Could not create load: "
  const LogPrefix := "Send this link to the broker: "

  /** The review path `onSuccess` logs for a new load; the page sends no
      email. */
  function LoggedLine(loadId: string): string {
    LogPrefix + "/submit-review?loadUuid=" + loadId
  }

  /** What pressing Create does: nothing (a required input is empty), or the
      insert's outcome. On success the page logs the review path, invalidates
      the loads list and goes to it. */
  datatype CreateOutcome =
    | Blocked
    | Created(row: Row<Load>, invalidated: set<CacheFilter>, logged: string, navigateTo: string)
    | Rejected(message: string)

  /** `onSubmit`, `createLoad` (`.insert([record]).select().single()`) and
      the mutation's callbacks. */
  method Submit(loads: Table<Load>, form: LoadForm, brokerId: string, newId: string, outage: Option<string>)
    returns (o: CreateOutcome)
    requires loads.Valid()
    modifies loads
    ensures loads.Valid()
    ensures !Complete(form) ==> o == Blocked
    ensures o.Created? <==> Complete(form) && outage.None? && Find(old(loads.rows), newId).None?
    ensures o.Created? ==> o.row == Row(newId, NewLoad(form, brokerId))
                           && loads.rows == old(loads.rows) + [o.row]
                           && o.invalidated == {Key(["loads"])}
                           && o.logged == LoggedLine(newId) && o.navigateTo == "/admin/loads"
    ensures !o.Created? ==> loads.rows == old(loads.rows)
    ensures o.Rejected? ==> StartsWith(o.message, CreateErrorPrefix)
  {
    if !Complete(form) {
      o := Blocked;
      return;
    }
    var r := loads.Insert(newId, NewLoad(form, brokerId), outage);
    if r.Err? {
      o := Rejected(CreateErrorPrefix + r.message);
    } else {
      var one := Single(r.value);
      o := if one.Ok? then Created(one.value, {Key(["loads"])}, LoggedLine(one.value.id), "/admin/loads")
           else Rejected(CreateErrorPrefix + NotSingleMessage);
    }
  }

  /** The logged path carries the new load's id for the review page. */
  lemma LoggedLineCarriesLoadId(loadId: string)
    requires PlainValue(loadId)
    ensures StartsWith(LoggedLine(loadId), LogPrefix)
    ensures GetParam(SearchOf(LoggedLine(loadId)), "loadUuid") == Some(loadId)
  {
    var base := LogPrefix + "/submit-review";
    assert "/submit-review?loadUuid=" == "/submit-review" + "?" + "loadUuid" + "=";
    assert '?' !in LogPrefix && '?' !in "/submit-review";
    assert LoggedLine(loadId) == base + "?" + "loadUuid" + "=" + loadId;
    ParamRoundTrip(base, "loadUuid", loadId);
  }
}
