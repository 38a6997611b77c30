/** The delivery-tracking table: every delivery load, newest first, with a
    button that marks a load delivered (or not) and a delete button. */
module DeliveryLoadManager {
  import opened Wrappers
  import opened Store
  import opened Queries
  import opened Schema

  /** The sort key of the list. */
  function CreatedAt(d: DeliveryLoad): Option<string> {
    Some(d.createdAt)
  }

  /** The `['deliveryLoads']` query: every row, newest `created_at` first;
      the service's error is thrown as it is. */
  function FetchDeliveryLoads(rows: seq<Row<DeliveryLoad>>, outage: Option<string>)
    : (r: Result<seq<Row<DeliveryLoad>>>)
    ensures r.Ok? <==> outage.None?
    ensures r.Err? ==> r.message == outage.value
    ensures r.Ok? ==> multiset(r.value) == multiset(rows) && SortedBy(r.value, CreatedAt, true)
  {
    if outage.Some? then Err(outage.value)
    else
      OrderByCorrect(rows, CreatedAt, true);
      Ok(OrderBy(rows, CreatedAt, true))
  }

  datatype View = Loading | DatabaseError | Listed(rows: seq<Row<DeliveryLoad>>)

  /** "Loading tracking data...", then "Error connecting to database.", then
      the rows (`loads?.map`, so no data lists nothing). */
  function SelectView(q: Query<seq<Row<DeliveryLoad>>>): (v: View)
    ensures v.Loading? <==> q.Pending?
    ensures v.DatabaseError? <==> q.Failed?
    ensures q.Done? ==> v == Listed(q.data)
  {
    match q
    case Pending => Loading
    case Failed(_) => DatabaseError
    case Done(rows) => Listed(rows)
    case Idle => Listed([])
  }

  /** Once fetched without error, the table lists exactly the stored rows,
      newest first. */
  lemma ListedRowsAreStoredRows(rows: seq<Row<DeliveryLoad>>, f: Fetch)
    requires f.settled && f.outage.None?
    ensures SelectView(Run(true, f, FetchDeliveryLoads(rows, f.outage))).Listed?
    ensures var shown := SelectView(Run(true, f, FetchDeliveryLoads(rows, f.outage))).rows;
            multiset(shown) == multiset(rows) && SortedBy(shown, CreatedAt, true)
  {
  }

  // ---------------------------------------------------------------------------
  // Marking delivered
  // ---------------------------------------------------------------------------

  /** `.update({ loadCompleted: !currentStatus })`: the value written is the
      negation of the status the row showed, not of the stored one. */
  function SetCompleted(currentStatus: bool): DeliveryLoad -> DeliveryLoad {
    (d: DeliveryLoad) => d.(loadCompleted := !currentStatus)
  }

  /** The success toast's condition in `onSuccess`. */
  predicate Celebrates(currentStatus: bool) {
    !currentStatus
  }

  /** "Successful delivery!" appears exactly for a click that marks a row
      completed, never for one that re-opens it. */
  lemma CelebratesIffCompleted(currentStatus: bool, d: DeliveryLoad)
    ensures Celebrates(currentStatus) <==> SetCompleted(currentStatus)(d).loadCompleted
  {
  }

  datatype ToggleOutcome =
    | Toggled(invalidated: set<CacheFilter>, celebrate: bool)
    | ToggleFailed

  /** `toggleMutation.mutate({ id, currentStatus })`. The update has no
      `.single()`, so an id no row has is a success that changes nothing;
      `invalidateQueries(['deliveryLoads'])` passes no key filter. */
  method Toggle(table: Table<DeliveryLoad>, id: string, currentStatus: bool, outage: Option<string>)
    returns (o: ToggleOutcome)
    requires table.Valid()
    modifies table
    ensures table.Valid()
    ensures o.Toggled? <==> outage.None?
    ensures o.Toggled? ==> o.invalidated == {AnyQuery} && (o.celebrate <==> Celebrates(currentStatus))
    ensures o.Toggled? ==> table.rows == Patched(old(table.rows), id, SetCompleted(currentStatus))
    ensures o.Toggled? ==> Find(table.rows, id) == match Find(old(table.rows), id)
                                                   case Some(d) => Some(d.(loadCompleted := !currentStatus))
                                                   case None => None
    ensures forall other :: other != id ==> Find(table.rows, other) == Find(old(table.rows), other)
    ensures o.ToggleFailed? ==> table.rows == old(table.rows)
  {
    ghost var before := table.rows;
    var r := table.Update(id, SetCompleted(currentStatus), outage);
    forall other | outage.None?
      ensures Find(table.rows, other) == if other == id then (match Find(before, id)
                                                              case Some(d) => Some(SetCompleted(currentStatus)(d))
                                                              case None => None)
                                         else Find(before, other)
    {
      PatchedFind(before, id, SetCompleted(currentStatus), other);
    }
    if r.Err? {
      o := ToggleFailed;
    } else {
      o := Toggled({AnyQuery}, Celebrates(currentStatus));
    }
  }

  /** `loadCompleted` holds the same value at that id in every row. */
  predicate CompletedAs(rows: seq<Row<DeliveryLoad>>, id: string, v: bool) {
    forall k :: 0 <= k < |rows| && rows[k].id == id ==> rows[k].fields.loadCompleted == v
  }

  /** A click on a row whose shown status is current flips the stored
      status. */
  lemma {:induction false} FreshToggleFlips(rows: seq<Row<DeliveryLoad>>, id: string, v: bool)
    requires CompletedAs(rows, id, v)
    ensures CompletedAs(Patched(rows, id, SetCompleted(v)), id, !v)
  {
    if rows != [] {
      FreshToggleFlips(rows[1..], id, v);
      var once := Patched(rows, id, SetCompleted(v));
      assert once[1..] == Patched(rows[1..], id, SetCompleted(v));
      forall k | 0 <= k < |once| && once[k].id == id ensures once[k].fields.loadCompleted == !v {
        if k > 0 {
          assert once[k] == once[1..][k - 1];
        }
      }
    }
  }

  /** A second click before the list refreshes sends the same
      `currentStatus` again and writes the value the first wrote: the table
      ends as after one click. */
  lemma {:induction false} DoubleClickWritesOnce(rows: seq<Row<DeliveryLoad>>, id: string, v: bool)
    ensures Patched(Patched(rows, id, SetCompleted(v)), id, SetCompleted(v)) == Patched(rows, id, SetCompleted(v))
  {
    if rows != [] {
      DoubleClickWritesOnce(rows[1..], id, v);
      var once := Patched(rows, id, SetCompleted(v));
      var twice := Patched(once, id, SetCompleted(v));
      assert once[1..] == Patched(rows[1..], id, SetCompleted(v));
      assert twice[1..] == Patched(once[1..], id, SetCompleted(v));
      assert twice[0] == once[0];
      assert twice == [twice[0]] + twice[1..];
      assert once == [once[0]] + once[1..];
    }
  }

  // ---------------------------------------------------------------------------
  // Deleting
  // ---------------------------------------------------------------------------

  /** `deleteMutation.mutate({ id })`: the mutation function drops the
      service's error and returns nothing, so `onSuccess` runs every time,
      whether or not the row was removed. */
  method Delete(table: Table<DeliveryLoad>, id: string, outage: Option<string>) returns (m: Mutation<()>)
    requires table.Valid()
    modifies table
    ensures table.Valid()
    ensures m == Succeeded((), {AnyQuery})
    ensures outage.None? ==> table.rows == Without(old(table.rows), id)
    ensures outage.Some? ==> table.rows == old(table.rows)
  {
    var r := table.Delete(id, outage);
    m := Succeeded((), {AnyQuery});
  }
}
