/** The admin page that edits one broker (`/admin/brokers/edit/<id>`). */
module EditBrokerPage {
  import opened Wrappers
  import opened Text
  import opened Store
  import opened Queries
  import opened Schema
  import CreateBrokerForm

  /** The same two inputs as the create form. */
  type BrokerForm = CreateBrokerForm.BrokerForm

  const BrokerLookupPrefix := "Broker not found: "

  /** `fetchBrokerById(id)`: `select('*').eq('id', id).single()`. */
  function FetchBrokerById(brokers: seq<Row<Broker>>, id: string, outage: Option<string>)
    : (r: Result<Row<Broker>>)
    ensures r.Ok? <==> outage.None? && Find(brokers, id).Some?
    ensures r.Ok? ==> r.value == Row(id, Find(brokers, id).value)
    ensures r.Err? ==> StartsWith(r.message, BrokerLookupPrefix)
  {
    if outage.Some? then Err(BrokerLookupPrefix + outage.value)
    else match Find(brokers, id)
      case Some(b) => Ok(Row(id, b))
      case None => Err(BrokerLookupPrefix + NotSingleMessage)
  }

  /** The values `reset(brokerData)` puts in the two inputs. */
  function Prefill(b: Broker): (form: BrokerForm)
    ensures form.name == b.name && form.email == b.email
  {
    CreateBrokerForm.BrokerForm(b.name, b.email)
  }

  datatype View = Loading | NotFound | Form(broker: Row<Broker>, values: BrokerForm)

  /** "Loading broker details...", then "Broker not found." for no data,
      then the pre-filled form. */
  function SelectView(q: Query<Row<Broker>>): (v: View)
    ensures v.Loading? <==> q.Pending?
    ensures v.Form? <==> q.Done?
    ensures v.Form? ==> v.broker == q.data && v.values == Prefill(q.data.fields)
  {
    match q
    case Pending => Loading
    case Done(b) => Form(b, Prefill(b.fields))
    case _ => NotFound
  }

  /** Once the lookup is over, the form shows exactly for a stored broker. */
  lemma FormIffBrokerStored(brokers: seq<Row<Broker>>, id: string, f: Fetch)
    requires f.settled
    ensures SelectView(Run(true, f, FetchBrokerById(brokers, id, f.outage))).Form? <==>
              f.outage.None? && Find(brokers, id).Some?
    ensures SelectView(Run(true, f, FetchBrokerById(brokers, id, f.outage))).NotFound? <==>
              f.outage.Some? || Find(brokers, id).None?
  {
  }

  const NameRequired := "Name is required."
  const EmailInvalid := "A valid email is required."

  /** The page's rules: `name` required, `email` required and matching
      `^\S+@\S+$`. Unlike the create form there is no minimum length. */
  function FieldErrors(form: BrokerForm): (errs: seq<string>)
    ensures errs == [] <==> form.name != "" && MatchesEmailPattern(form.email)
    ensures NameRequired in errs <==> form.name == ""
    ensures EmailInvalid in errs <==> !MatchesEmailPattern(form.email)
  {
    (if form.name == "" then [NameRequired] else [])
    + (if form.email == "" || !MatchesEmailPattern(form.email) then [EmailInvalid] else [])
  }

  /** A one-character name is accepted here although the create form
      refuses it. */
  lemma EditAcceptsShorterNames()
    ensures FieldErrors(CreateBrokerForm.BrokerForm("A", "a@b")) == []
    ensures CreateBrokerForm.FieldErrors(CreateBrokerForm.BrokerForm("A", "a@b")) == [CreateBrokerForm.NameMessage]
  {
    EmailPatternAccepts("a", "b");
    assert "a" + "@" + "b" == "a@b";
  }

  /** `updateBroker({ id, name, email })`: only the two columns change. */
  function ApplyForm(form: BrokerForm): Broker -> Broker {
    (b: Broker) => b.(name := form.name, email := form.email)
  }

  /** The patch sets the name and email and keeps the creation time; an
      untouched form writes the broker back unchanged. */
  lemma PatchKeepsCreatedAt(form: BrokerForm, b: Broker)
    ensures ApplyForm(form)(b) == Broker(form.name, form.email, b.createdAt)
    ensures ApplyForm(Prefill(b))(b) == b
  {
  }

  const UpdateErrorPrefix := "Could not update broker: "

  datatype UpdateOutcome =
    | Blocked(errors: seq<string>)
    | Updated(row: Row<Broker>, invalidated: set<CacheFilter>, navigateTo: string)
    | Rejected(message: string)

  /** `onSubmit` and `updateBroker`: the row with the page's id takes the
      form's name and email; the broker list and this broker's query are
      invalidated. An id no row has updates nothing and `.single()` rejects
      it. */
  method Submit(brokers: Table<Broker>, id: string, form: BrokerForm, outage: Option<string>)
    returns (o: UpdateOutcome)
    requires brokers.Valid()
    modifies brokers
    ensures brokers.Valid()
    ensures o.Blocked? <==> FieldErrors(form) != []
    ensures o.Blocked? ==> o.errors == FieldErrors(form)
    ensures o.Updated? <==> FieldErrors(form) == [] && outage.None? && Find(old(brokers.rows), id).Some?
    ensures o.Updated? ==> o.row == Row(id, Broker(form.name, form.email, Find(old(brokers.rows), id).value.createdAt))
                           && Find(brokers.rows, id) == Some(o.row.fields)
                           && o.invalidated == {Key(["brokers"]), Key(["broker", id])}
                           && o.navigateTo == "/admin/brokers"
    ensures forall other :: other != id ==> Find(brokers.rows, other) == Find(old(brokers.rows), other)
    ensures !o.Updated? ==> brokers.rows == old(brokers.rows)
    ensures o.Rejected? ==> StartsWith(o.message, UpdateErrorPrefix)
  {
    var errs := FieldErrors(form);
    if errs != [] {
      o := Blocked(errs);
      return;
    }
    ghost var before := brokers.rows;
    var r := brokers.Update(id, ApplyForm(form), outage);
    forall other | outage.None?
      ensures Find(brokers.rows, other) == if other == id then (match Find(before, id)
                                                                case Some(b) => Some(ApplyForm(form)(b))
                                                                case None => None)
                                           else Find(before, other)
    {
      PatchedFind(before, id, ApplyForm(form), other);
    }
    if r.Err? {
      o := Rejected(UpdateErrorPrefix + r.message);
    } else {
      var one := Single(r.value);
      if one.Ok? {
        o := Updated(one.value, {Key(["brokers"]), Key(["broker", id])}, "/admin/brokers");
      } else {
        PatchedAbsent(before, id, ApplyForm(form));
        o := Rejected(UpdateErrorPrefix + NotSingleMessage);
      }
    }
  }
}
