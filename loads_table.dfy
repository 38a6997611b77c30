/** The admin list of loads, newest pickup first, with a per-row menu to
    copy the review link, edit the load or delete it after a confirmation. */
module LoadsTable {
  import opened Wrappers
  import opened Text
  import opened Store
  import opened Queries
  import opened Schema
  import opened Urls
  import Popup

  /** The sort key of the list. */
  function PickupDate(l: Load): Option<string> {
    l.pickupDate
  }

  /** `fetchLoads()`: every load, ordered by `pickupDate` descending (loads
      without a pickup date first, as the data service puts NULLs). */
  function FetchLoads(loads: seq<Row<Load>>, outage: Option<string>): (r: Result<seq<Row<Load>>>)
    ensures r.Ok? <==> outage.None?
    ensures r.Err? ==> r.message == outage.value
    ensures r.Ok? ==> multiset(r.value) == multiset(loads) && SortedBy(r.value, PickupDate, true)
  {
    if outage.Some? then Err(outage.value)
    else
      OrderByCorrect(loads, PickupDate, true);
      Ok(OrderBy(loads, PickupDate, true))
  }

  /** The broker column: the joined broker's name, or "N/A". */
  function BrokerCell(l: Load, brokers: seq<Row<Broker>>): (c: string)
    ensures c != ""
    ensures Truthy(BrokerName(brokers, l.assignedBrokerId)) ==> c == BrokerName(brokers, l.assignedBrokerId).value
    ensures !Truthy(BrokerName(brokers, l.assignedBrokerId)) ==> c == "N/A"
    ensures Find(brokers, l.assignedBrokerId).None? ==> c == "N/A"
  {
    OrElse(BrokerName(brokers, l.assignedBrokerId), "N/A")
  }

  /** The review link `handleShareLink` copies. */
  function ReviewLink(origin: string, loadId: string): string {
    origin + "/submit-review?loadUuid=" + loadId
  }

  /** The review page reads the load id back from the link, for an origin
      (scheme, host and port) and an id that need no escaping. */
  lemma ReviewLinkCarriesLoadId(origin: string, loadId: string)
    requires '?' !in origin && PlainValue(loadId)
    ensures StartsWith(ReviewLink(origin, loadId), origin + "/submit-review?")
    ensures GetParam(SearchOf(ReviewLink(origin, loadId)), "loadUuid") == Some(loadId)
  {
    var base := origin + "/submit-review";
    assert "/submit-review?loadUuid=" == "/submit-review" + "?" + "loadUuid" + "=";
    assert '?' !in "/submit-review";
    assert ReviewLink(origin, loadId) == base + "?" + "loadUuid" + "=" + loadId;
    assert ReviewLink(origin, loadId) == (origin + "/submit-review?") + ("loadUuid=" + loadId);
    ParamRoundTrip(base, "loadUuid", loadId);
  }

  /** The mounted table and its open menu. */
  class Page {
    var openPopupId: Option<string>

    constructor ()
      ensures openPopupId == None
    {
      openPopupId := None;
    }

    method TogglePopup(id: string)
      modifies this
      ensures openPopupId == Popup.Toggled(old(openPopupId), id)
    {
      openPopupId := Popup.Toggled(openPopupId, id);
    }

    /** `handleShareLink(id)`: the link to copy; the menu closes. */
    method ShareLink(origin: string, loadId: string) returns (link: string)
      modifies this
      ensures openPopupId == None
      ensures link == ReviewLink(origin, loadId)
    {
      link := ReviewLink(origin, loadId);
      openPopupId := None;
    }

    /** `handleEdit(id)`: the route to open; the menu closes. */
    method Edit(loadId: string) returns (path: string)
      modifies this
      ensures openPopupId == None
      ensures path == "/admin/loads/edit/" + loadId
    {
      openPopupId := None;
      path := "/admin/loads/edit/" + loadId;
    }

    /** `handleDeleteClick(id, name)`: the menu closes; with the user's
        confirmation the load is deleted (`deleteLoad`) and the list
        invalidated, otherwise nothing is sent. */
    method DeleteClicked(loads: Table<Load>, loadId: string, confirmed: bool, outage: Option<string>)
      returns (m: Option<Mutation<()>>)
      requires loads.Valid()
      modifies this, loads
      ensures loads.Valid()
      ensures openPopupId == None
      ensures !confirmed ==> m == None && loads.rows == old(loads.rows)
      ensures confirmed && outage.Some? ==> m == Some(Errored(outage.value)) && loads.rows == old(loads.rows)
      ensures confirmed && outage.None? ==> m == Some(Succeeded((), {Key(["loads"])}))
                                            && loads.rows == Without(old(loads.rows), loadId)
    {
      openPopupId := None;
      if !confirmed {
        m := None;
      } else {
        var r := loads.Delete(loadId, outage);
        if r.Err? {
          m := Some(Errored(r.message));
        } else {
          m := Some(Succeeded((), {Key(["loads"])}));
          openPopupId := None;
        }
      }
    }
  }
}
