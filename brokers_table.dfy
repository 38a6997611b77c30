/** The admin list of brokers, by name, with a per-row menu to edit the
    broker, add a load for it or delete it. */
module BrokersTable {
  import opened Wrappers
  import opened Text
  import opened Store
  import opened Queries
  import opened Schema
  import opened Urls
  import Popup

  /** The sort key of the list. */
  function Name(b: Broker): Option<string> {
    Some(b.name)
  }

  /** `fetchBrokers()`: every broker, ordered by name ascending. */
  function FetchBrokers(brokers: seq<Row<Broker>>, outage: Option<string>): (r: Result<seq<Row<Broker>>>)
    ensures r.Ok? <==> outage.None?
    ensures r.Err? ==> r.message == outage.value
    ensures r.Ok? ==> multiset(r.value) == multiset(brokers) && SortedBy(r.value, Name, false)
  {
    if outage.Some? then Err(outage.value)
    else
      OrderByCorrect(brokers, Name, false);
      Ok(OrderBy(brokers, Name, false))
  }

  datatype View = Loading | ErrorShown(message: string) | Deleting | Listed(brokers: seq<Row<Broker>>)

  /** The table's early returns: loading, the error, then a pending delete,
      which replaces the whole table. */
  function SelectView(q: Query<seq<Row<Broker>>>, isDeleting: bool): (v: View)
    ensures q.Pending? ==> v == Loading
    ensures q.Failed? ==> v == ErrorShown(q.message)
    ensures q.Done? ==> v == if isDeleting then Deleting else Listed(q.data)
  {
    match q
    case Pending => Loading
    case Failed(m) => ErrorShown(m)
    case Idle => if isDeleting then Deleting else Listed([])
    case Done(rows) => if isDeleting then Deleting else Listed(rows)
  }

  /** While a delete is pending the list is never shown. */
  lemma DeletingHidesList(q: Query<seq<Row<Broker>>>)
    ensures !SelectView(q, true).Listed?
  {
  }

  const DeleteErrorPrefix := "Could not delete broker: "

  /** The route of the add-load page for a broker. */
  function AddLoadPath(brokerId: string): string {
    "/admin/loads/create?brokerId=" + brokerId
  }

  /** The add-load page reads the broker id back from its route. */
  lemma AddLoadPathCarriesBrokerId(brokerId: string)
    requires PlainValue(brokerId)
    ensures GetParam(SearchOf(AddLoadPath(brokerId)), "brokerId") == Some(brokerId)
  {
    var base := "/admin/loads/create";
    assert "/admin/loads/create?brokerId=" == base + "?" + "brokerId" + "=";
    assert '?' !in base;
    ParamRoundTrip(base, "brokerId", brokerId);
  }

  /** The mounted table and its open menu. */
  class Page {
    var openPopupId: Option<string>

    constructor ()
      ensures openPopupId == None
    {
      openPopupId := None;
    }

    method TogglePopup(id: string)
      modifies this
      ensures openPopupId == Popup.Toggled(old(openPopupId), id)
    {
      openPopupId := Popup.Toggled(openPopupId, id);
    }

    /** `handleEdit(id)`: the route to open; the menu closes. */
    method Edit(brokerId: string) returns (path: string)
      modifies this
      ensures openPopupId == None
      ensures path == "/admin/brokers/edit/" + brokerId
    {
      openPopupId := None;
      path := "/admin/brokers/edit/" + brokerId;
    }

    /** `handleAddLoad(id)`: the route to open; the menu closes. */
    method AddLoad(brokerId: string) returns (path: string)
      modifies this
      ensures openPopupId == None
      ensures path == AddLoadPath(brokerId)
    {
      openPopupId := None;
      path := AddLoadPath(brokerId);
    }

    /** `handleDelete(id)`: the delete is sent at once, with no confirmation;
        the menu closes only when it succeeds. */
    method Delete(brokers: Table<Broker>, brokerId: string, outage: Option<string>) returns (m: Mutation<()>)
      requires brokers.Valid()
      modifies this, brokers
      ensures brokers.Valid()
      ensures outage.Some? ==> m == Errored(DeleteErrorPrefix + outage.value)
                               && brokers.rows == old(brokers.rows) && openPopupId == old(openPopupId)
      ensures outage.None? ==> m == Succeeded((), {Key(["brokers"])})
                               && brokers.rows == Without(old(brokers.rows), brokerId) && openPopupId == None
    {
      var r := brokers.Delete(brokerId, outage);
      if r.Err? {
        m := Errored(DeleteErrorPrefix + r.message);
      } else {
        m := Succeeded((), {Key(["brokers"])});
        openPopupId := None;
      }
    }
  }
}
