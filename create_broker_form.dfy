/** The form that adds a broker. */
module CreateBrokerForm {
  import opened Wrappers
  import opened Text
  import opened Store
  import opened Queries
  import opened Schema

  /** The two registered inputs, which are also the broker's columns. */
  datatype BrokerForm = BrokerForm(name: string, email: string)

  const NameMessage := "Broker name is required (min 2 chars)."
  const EmailMessage := "A valid email address is required."

  /** The messages of the failing rules: `name` required with at least two
      characters, `email` required and matching `^\S+@\S+$`. */
  function FieldErrors(form: BrokerForm): (errs: seq<string>)
    ensures errs == [] <==> |form.name| >= 2 && MatchesEmailPattern(form.email)
    ensures NameMessage in errs <==> |form.name| < 2
    ensures EmailMessage in errs <==> !MatchesEmailPattern(form.email)
  {
    (if form.name == "" || |form.name| < 2 then [NameMessage] else [])
    + (if form.email == "" || !MatchesEmailPattern(form.email) then [EmailMessage] else [])
  }

  /** A name of two or more characters and an address `user@domain` whose
      halves are non-empty and hold no whitespace pass. */
  lemma AcceptedBrokers(name: string, user: string, domain: string)
    requires |name| >= 2 && user != [] && domain != [] && NoSpace(user) && NoSpace(domain)
    ensures FieldErrors(BrokerForm(name, user + "@" + domain)) == []
  {
    EmailPatternAccepts(user, domain);
  }

  /** An address with whitespace anywhere in it fails, whatever the name. */
  lemma SpacedAddressRejected(form: BrokerForm, i: nat)
    requires i < |form.email| && IsSpace(form.email[i])
    ensures EmailMessage in FieldErrors(form)
  {
    EmailPatternRejectsSpace(form.email, i);
  }

  /** `.insert([data])`: the row is exactly the form's columns, with the
      creation time the data service assigns. */
  function NewBroker(form: BrokerForm, now: string): (b: Broker)
    ensures b.name == form.name && b.email == form.email && b.createdAt == now
  {
    Broker(form.name, form.email, now)
  }

  datatype CreateOutcome =
    | Blocked(errors: seq<string>)
    | Added(row: Row<Broker>, toastName: string, invalidated: set<CacheFilter>, resetTo: BrokerForm,
            navigateTo: string)
    | Rejected(message: string)

  /** `handleSubmit(onSubmit)` and `createBroker`: a form with a failed rule
      is not sent; otherwise the broker is inserted. `createBroker` returns
      the submitted data, not the inserted row, so the toast names the
      submitted broker (`name || 'Unknown Broker'`). On success the broker
      list is invalidated, the form cleared and the page goes to the list. */
  method Submit(brokers: Table<Broker>, form: BrokerForm, newId: string, now: string, outage: Option<string>)
    returns (o: CreateOutcome)
    requires brokers.Valid()
    modifies brokers
    ensures brokers.Valid()
    ensures o.Blocked? <==> FieldErrors(form) != []
    ensures o.Blocked? ==> o.errors == FieldErrors(form)
    ensures o.Added? <==> FieldErrors(form) == [] && outage.None? && Find(old(brokers.rows), newId).None?
    ensures o.Added? ==> o.row == Row(newId, NewBroker(form, now))
                         && brokers.rows == old(brokers.rows) + [o.row]
                         && o.toastName == form.name
                         && o.invalidated == {Key(["brokers"])}
                         && o.resetTo == BrokerForm("", "") && o.navigateTo == "/admin/brokers"
    ensures !o.Added? ==> brokers.rows == old(brokers.rows)
    ensures o.Rejected? && outage.Some? ==> o.message == outage.value
  {
    var errs := FieldErrors(form);
    if errs != [] {
      o := Blocked(errs);
      return;
    }
    var r := brokers.Insert(newId, NewBroker(form, now), outage);
    if r.Err? {
      o := Rejected(r.message);
    } else {
      var one := Single(r.value);
      if one.Ok? {
        var returned := Some(form.name);
        o := Added(one.value, OrElse(returned, "Unknown Broker"), {Key(["brokers"])}, BrokerForm("", ""),
                   "/admin/brokers");
      } else {
        o := Rejected(NotSingleMessage);
      }
    }
  }
}
