/** The admin page that edits one load (`/admin/loads/edit/<id>`): the form is
    pre-filled from the stored load and saved back by id. */
module EditLoadPage {
  import opened Wrappers
  import opened Text
  import opened Store
  import opened Queries
  import opened Schema

  const LoadLookupPrefix := "Load not found: "

  /** `fetchLoadById(id)`: `select('*').eq('id', id).single()`. */
  function FetchLoadById(loads: seq<Row<Load>>, id: string, outage: Option<string>): (r: Result<Row<Load>>)
    ensures r.Ok? <==> outage.None? && Find(loads, id).Some?
    ensures r.Ok? ==> r.value == Row(id, Find(loads, id).value)
    ensures r.Err? ==> StartsWith(r.message, LoadLookupPrefix)
  {
    if outage.Some? then Err(LoadLookupPrefix + outage.value)
    else match Find(loads, id)
      case Some(l) => Ok(Row(id, l))
      case None => Err(LoadLookupPrefix + NotSingleMessage)
  }

  /** The load query (`['load', id]`), always enabled. */
  function LoadQuery(loads: seq<Row<Load>>, id: string, f: Fetch): Query<Row<Load>> {
    Run(true, f, FetchLoadById(loads, id, f.outage))
  }

  // ---------------------------------------------------------------------------
  // Pre-filling
  // ---------------------------------------------------------------------------

  /** A date input's default: the part before the first 'T' of a stored
      timestamp, or "" for a NULL or empty date. */
  function DatePrefill(d: Option<string>): (r: string)
    ensures 'T' !in r
    ensures Truthy(d) ==> r <= d.value
    ensures !Truthy(d) ==> r == ""
  {
    if Truthy(d) then BeforeFirst(d.value, 'T') else ""
  }

  /** A stored timestamp pre-fills its date part, and a plain date is kept as
      it is. */
  lemma DatePrefillOfTimestamp(date: string, time: string)
    requires 'T' !in date
    ensures DatePrefill(Some(date + "T" + time)) == date
    ensures date != "" ==> DatePrefill(Some(date)) == date
  {
    assert date + "T" + time == date + ['T'] + time;
    SplitJoined(date, 'T', time);
    BeforeFirstAbsent(date, 'T');
  }

  /** Pre-filling a pre-filled value changes nothing. */
  lemma DatePrefillIdempotent(d: Option<string>)
    ensures DatePrefill(Some(DatePrefill(d))) == DatePrefill(d)
  {
    var r := DatePrefill(d);
    if r != "" {
      BeforeFirstAbsent(r, 'T');
    }
  }

  /** The form's five registered fields. */
  datatype EditForm = EditForm(loadIdName: string, assignedBrokerId: string, pickupDate: string,
                               deliveryDate: string, status: string)

  /** The values `reset` puts in the form once the load arrives. */
  function Prefill(l: Load): (form: EditForm)
    ensures form.loadIdName == l.loadIdName && form.assignedBrokerId == l.assignedBrokerId
    ensures form.status == l.status
    ensures form.pickupDate == DatePrefill(l.pickupDate) && form.deliveryDate == DatePrefill(l.deliveryDate)
    ensures 'T' !in form.pickupDate && 'T' !in form.deliveryDate
  {
    EditForm(l.loadIdName, l.assignedBrokerId, DatePrefill(l.pickupDate), DatePrefill(l.deliveryDate), l.status)
  }

  /** `required: true` on every field. */
  predicate Complete(form: EditForm) {
    form.loadIdName != "" && form.assignedBrokerId != "" && form.pickupDate != ""
    && form.deliveryDate != "" && form.status != ""
  }

  /** What the selects let the user pick: one of the listed brokers and one
      of the three statuses. */
  predicate Offered(form: EditForm, brokers: seq<Row<Broker>>) {
    Find(brokers, form.assignedBrokerId).Some? && form.status in LoadStatuses
  }

  /** The load the form describes: `{ id, ...data }` without its id. */
  function Edited(form: EditForm): Load {
    Load(form.loadIdName, form.assignedBrokerId, Some(form.pickupDate), Some(form.deliveryDate), form.status)
  }

  /** `.update(updates)`: every column takes the form's value. */
  function ApplyForm(form: EditForm): Load -> Load {
    (l: Load) => Edited(form)
  }

  /** Saving an untouched form keeps a load whose dates are plain dates. */
  lemma UntouchedFormKeepsLoad(l: Load)
    requires l.pickupDate.Some? && l.pickupDate.value != "" && 'T' !in l.pickupDate.value
    requires l.deliveryDate.Some? && l.deliveryDate.value != "" && 'T' !in l.deliveryDate.value
    ensures Edited(Prefill(l)) == l
  {
    DatePrefillOfTimestamp(l.pickupDate.value, "");
    DatePrefillOfTimestamp(l.deliveryDate.value, "");
  }

  /** A form the selects allow stores a listed broker and a known status. */
  lemma OfferedFormStoresKnownValues(form: EditForm, brokers: seq<Row<Broker>>)
    requires Offered(form, brokers)
    ensures Edited(form).status in LoadStatuses
    ensures Find(brokers, Edited(form).assignedBrokerId).Some?
  {
  }

  // ---------------------------------------------------------------------------
  // Saving
  // ---------------------------------------------------------------------------

  const UpdateErrorPrefix := "Could not update load: "

  datatype UpdateOutcome =
    | Blocked
    | Updated(row: Row<Load>, invalidated: set<CacheFilter>, navigateTo: string)
    | Rejected(message: string)

  /** `onSubmit` and `updateLoad`: the row with the page's id takes the form's
      columns; the list and this load's query are invalidated. An id no row
      has updates nothing and `.single()` rejects it. */
  method Submit(loads: Table<Load>, id: string, form: EditForm, outage: Option<string>) returns (o: UpdateOutcome)
    requires loads.Valid()
    modifies loads
    ensures loads.Valid()
    ensures !Complete(form) ==> o == Blocked
    ensures o.Updated? <==> Complete(form) && outage.None? && Find(old(loads.rows), id).Some?
    ensures o.Updated? ==> o.row == Row(id, Edited(form))
                           && o.invalidated == {Key(["loads"]), Key(["load", id])}
                           && o.navigateTo == "/admin/loads"
                           && Find(loads.rows, id) == Some(Edited(form))
    ensures forall other :: other != id ==> Find(loads.rows, other) == Find(old(loads.rows), other)
    ensures !o.Updated? ==> loads.rows == old(loads.rows)
    ensures o.Rejected? ==> StartsWith(o.message, UpdateErrorPrefix)
  {
    if !Complete(form) {
      o := Blocked;
      return;
    }
    ghost var before := loads.rows;
    var r := loads.Update(id, ApplyForm(form), outage);
    forall other | outage.None?
      ensures Find(loads.rows, other) == if other == id && Find(before, id).Some? then Some(Edited(form))
                                        else Find(before, other)
    {
      PatchedFind(before, id, ApplyForm(form), other);
    }
    if r.Err? {
      o := Rejected(UpdateErrorPrefix + r.message);
    } else {
      var one := Single(r.value);
      if one.Ok? {
        o := Updated(one.value, {Key(["loads"]), Key(["load", id])}, "/admin/loads");
      } else {
        PatchedAbsent(before, id, ApplyForm(form));
        o := Rejected(UpdateErrorPrefix + NotSingleMessage);
      }
    }
  }

  /** A save refreshes the load list and this page's own load query, but not
      the broker list nor another load's page. */
  lemma SaveRefreshesListAndThisLoad(id: string, other: string)
    requires other != id
    ensures Invalidated({Key(["loads"]), Key(["load", id])}, ["loads"])
    ensures Invalidated({Key(["loads"]), Key(["load", id])}, ["load", id])
    ensures !Invalidated({Key(["loads"]), Key(["load", id])}, ["brokers"])
    ensures !Invalidated({Key(["loads"]), Key(["load", id])}, ["load", other])
  {
    var list: QueryKey := ["loads"];
    var mine: QueryKey := ["load", id];
    var brokers: QueryKey := ["brokers"];
    var theirs: QueryKey := ["load", other];
    assert Matches(Key(list), list) && Matches(Key(mine), mine);
    assert !(list <= brokers) by { assert list[0] != brokers[0] by { assert |list[0]| != |brokers[0]|; } }
    assert !(mine <= brokers) by { assert |mine| > |brokers|; }
    assert !(list <= theirs) by { assert list[0] != theirs[0] by { assert |list[0]| != |theirs[0]|; } }
    assert !(mine <= theirs) by { assert mine[1] != theirs[1]; }
  }

  // ---------------------------------------------------------------------------
  // Rendering
  // ---------------------------------------------------------------------------

  const MissingBrokersReference := "ReferenceError: fetchBrokers is not defined"

  datatype View =
    | Loading
    | NotFound
    | Form(load: Row<Load>, brokers: seq<Row<Broker>>, values: EditForm)
    | Crashed(message: string)

  /** The page as written: the broker query names `fetchBrokers`, which the
      module neither declares nor imports, so every render throws before
      any of the page's own logic runs. */
  function RenderAsWritten(loadQ: Query<Row<Load>>): View {
    Crashed(MissingBrokersReference)
  }

  /** Whatever the stored load and the data service do, the written page
      never shows its form. */
  lemma EditPageAlwaysCrashes(loads: seq<Row<Load>>, id: string, f: Fetch)
    ensures RenderAsWritten(LoadQuery(loads, id, f)) == Crashed(MissingBrokersReference)
    ensures !RenderAsWritten(LoadQuery(loads, id, f)).Form?
  {
  }

  /** The page with a broker query that resolves: "Loading details..." while
      either query loads, "Load or Brokers not found." when either has no
      data, and otherwise the form pre-filled from the load. */
  function SelectView(loadQ: Query<Row<Load>>, brokersQ: Query<seq<Row<Broker>>>): (v: View)
    ensures v.Loading? <==> loadQ.Pending? || brokersQ.Pending?
    ensures v.Form? <==> loadQ.Done? && brokersQ.Done?
    ensures v.Form? ==> v.load == loadQ.data && v.brokers == brokersQ.data && v.values == Prefill(loadQ.data.fields)
    ensures !v.Crashed?
  {
    if loadQ.Pending? || brokersQ.Pending? then Loading
    else match (loadQ, brokersQ)
      case (Done(l), Done(bs)) => Form(l, bs, Prefill(l.fields))
      case _ => NotFound
  }

  /** The corrected page over the stored tables: the form shows exactly when
      both fetches are over and the load exists. */
  function Render(loads: seq<Row<Load>>, id: string, loadFetch: Fetch, brokersQ: Query<seq<Row<Broker>>>): View {
    SelectView(LoadQuery(loads, id, loadFetch), brokersQ)
  }

  lemma FormIffLoadStored(loads: seq<Row<Load>>, id: string, f: Fetch, brokers: seq<Row<Broker>>)
    requires f.settled && f.outage.None?
    ensures Render(loads, id, f, Done(brokers)).Form? <==> Find(loads, id).Some?
    ensures Render(loads, id, f, Done(brokers)).Form? ==>
              Render(loads, id, f, Done(brokers)).values == Prefill(Find(loads, id).value)
  {
  }
}
