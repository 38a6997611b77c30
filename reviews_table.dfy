/** The admin page listing every review, newest first, with a button per
    review that shows it on or hides it from the public wall. */
module ReviewsTable {
  import opened Wrappers
  import opened Text
  import opened Store
  import opened Queries
  import opened Schema

  /** The sort key of the admin listing. */
  function CreatedAt(r: Review): Option<string> {
    Some(r.createdAt)
  }

  /** `fetchAllReviews()`: every review, ordered by `createdAt` descending. */
  function FetchAllReviews(reviews: seq<Row<Review>>, outage: Option<string>): (r: Result<seq<Row<Review>>>)
    ensures r.Ok? <==> outage.None?
    ensures r.Err? ==> r.message == outage.value
    ensures r.Ok? ==> multiset(r.value) == multiset(reviews) && SortedBy(r.value, CreatedAt, true)
  {
    if outage.Some? then Err(outage.value)
    else
      OrderByCorrect(reviews, CreatedAt, true);
      Ok(OrderBy(reviews, CreatedAt, true))
  }

  /** One line of the admin table. */
  datatype AdminRow = AdminRow(loadName: string, brokerName: string, rating: string, comment: string, shown: bool)

  /** How a number is written: its decimal digits, after '-' when negative. */
  function ShowInt(n: int): string {
    if n >= 0 then ShowNat(n) else "-" + ShowNat(-n)
  }

  /** The rating cell: the number (nothing for NULL) followed by "/5". */
  function RatingCell(rating: Option<int>): string {
    (match rating case Some(n) => ShowInt(n) case None => "") + "/5"
  }

  function Display(x: Row<Review>, loads: seq<Row<Load>>, brokers: seq<Row<Broker>>): AdminRow {
    AdminRow(OrElse(LoadName(loads, x.fields.loadUuid), "N/A"),
             OrElse(BrokerName(brokers, x.fields.brokerId), "N/A"),
             RatingCell(x.fields.communicationRating),
             OrElse(x.fields.comment, "N/A"),
             x.fields.showOnSite)
  }

  /** Every text cell of the table shows something: a missing load, broker or
      comment shows "N/A", and a stored value shows itself. */
  lemma DisplayFallbacks(x: Row<Review>, loads: seq<Row<Load>>, brokers: seq<Row<Broker>>)
    ensures var d := Display(x, loads, brokers);
            && d.loadName != "" && d.brokerName != "" && d.comment != ""
            && (d.comment == "N/A" <==> !Truthy(x.fields.comment) || x.fields.comment == Some("N/A"))
            && d.loadName == (if Truthy(LoadName(loads, x.fields.loadUuid))
                              then LoadName(loads, x.fields.loadUuid).value else "N/A")
            && d.brokerName == (if Truthy(BrokerName(brokers, x.fields.brokerId))
                                then BrokerName(brokers, x.fields.brokerId).value else "N/A")
            && d.comment == (if Truthy(x.fields.comment) then x.fields.comment.value else "N/A")
  {
  }

  // ---------------------------------------------------------------------------
  // The visibility toggle
  // ---------------------------------------------------------------------------

  const VisibilityErrorPrefix := "Could not update visibility: "

  /** The patch `{ showOnSite: !shown }`, where `shown` is the value the table
      displayed (not necessarily the stored one). */
  function SetVisibility(shown: bool): Review -> Review {
    (x: Review) => x.(showOnSite := !shown)
  }

  /** The patch sets `showOnSite` to the negation of the displayed value and
      keeps every other column. */
  lemma SetVisibilityOnlyShown(x: Review, shown: bool)
    ensures var y := SetVisibility(shown)(x);
            && y.showOnSite == !shown
            && y.loadUuid == x.loadUuid && y.brokerId == x.brokerId
            && y.onTimePickup == x.onTimePickup && y.onTimeDelivery == x.onTimeDelivery
            && y.useBtfsAgain == x.useBtfsAgain && y.communicationRating == x.communicationRating
            && y.performanceRating == x.performanceRating && y.comment == x.comment
            && y.createdAt == x.createdAt
  {
  }

  /** `toggleReviewVisibility({ id, showOnSite })` and the mutation's
      `onSuccess`, which invalidates the admin list and the public wall. */
  method ToggleVisibility(table: Table<Review>, id: string, shown: bool, outage: Option<string>)
    returns (m: Mutation<Row<Review>>)
    requires table.Valid()
    modifies table
    ensures table.Valid()
    ensures m.Succeeded? <==> outage.None? && Find(old(table.rows), id).Some?
    ensures m.Succeeded? ==> m.data == Row(id, Find(old(table.rows), id).value.(showOnSite := !shown))
                             && m.invalidated == {Key(["adminReviews"]), Key(["reviews"])}
    ensures m.Errored? ==> StartsWith(m.message, VisibilityErrorPrefix)
    ensures outage.Some? ==> table.rows == old(table.rows)
    ensures outage.None? ==> Find(table.rows, id) == (match Find(old(table.rows), id)
                                                      case Some(x) => Some(x.(showOnSite := !shown))
                                                      case None => None)
    ensures forall other :: other != id ==> Find(table.rows, other) == Find(old(table.rows), other)
  {
    ghost var before := table.rows;
    var r := table.Update(id, SetVisibility(shown), outage);
    forall other {
      PatchedFind(before, id, SetVisibility(shown), other);
    }
    if r.Err? {
      m := Errored(VisibilityErrorPrefix + r.message);
    } else {
      var one := Single(r.value);
      m := if one.Ok? then Succeeded(one.value, {Key(["adminReviews"]), Key(["reviews"])})
           else Errored(VisibilityErrorPrefix + NotSingleMessage);
    }
  }

  /** Every row with the id shows the visibility `v`. */
  predicate ShownAs(rows: seq<Row<Review>>, id: string, v: bool) {
    forall k :: 0 <= k < |rows| && rows[k].id == id ==> rows[k].fields.showOnSite == v
  }

  /** A click on a row whose display is stale writes the value the row
      already holds, so the table does not change. */
  lemma {:induction false} StaleToggleChangesNothing(rows: seq<Row<Review>>, id: string, shown: bool)
    requires ShownAs(rows, id, !shown)
    ensures Patched(rows, id, SetVisibility(shown)) == rows
  {
    if rows != [] {
      StaleToggleChangesNothing(rows[1..], id, shown);
      if rows[0].id == id {
        assert rows[0].fields.(showOnSite := !shown) == rows[0].fields;
      }
      assert rows == [rows[0]] + rows[1..];
    }
  }

  /** Toggling from the displayed value `v` and then from `!v` restores the
      table. */
  lemma {:induction false} ToggleTwiceRestores(rows: seq<Row<Review>>, id: string, v: bool)
    requires ShownAs(rows, id, v)
    ensures Patched(Patched(rows, id, SetVisibility(v)), id, SetVisibility(!v)) == rows
  {
    if rows != [] {
      ToggleTwiceRestores(rows[1..], id, v);
      var once := Patched(rows, id, SetVisibility(v));
      assert once[1..] == Patched(rows[1..], id, SetVisibility(v));
      if rows[0].id == id {
        assert rows[0].fields.(showOnSite := !v).(showOnSite := v) == rows[0].fields;
      }
      assert rows == [rows[0]] + rows[1..];
    }
  }
}
