/** The public review page a broker opens from an emailed link
    (`/submit-review?loadUuid=<id>`): it looks up the load, refuses a second
    review, shows the form and stores what the broker submits. */
module ReviewFormPage {
  import opened Wrappers
  import opened Text
  import opened Store
  import opened Queries
  import opened Schema

  // ---------------------------------------------------------------------------
  // Fetching
  // ---------------------------------------------------------------------------

  /** The load as the page fetches it, joined with its broker's name
      (`brokers ( name )`; absent when the broker row is gone). */
  datatype LoadDetails = LoadDetails(
    id: string,
    loadIdName: string,
    pickupDate: Option<string>,
    deliveryDate: Option<string>,
    assignedBrokerId: string,
    brokerName: Option<string>)

  const LoadLookupPrefix := "Load ID not found or invalid: "

  /** The rows `.eq('id', id)` selects in a table with distinct ids. */
  function ById<R(!new)>(rows: seq<Row<R>>, id: string): seq<Row<R>> {
    match Find(rows, id)
    case Some(x) => [Row(id, x)]
    case None => []
  }

  /** `fetchLoadAndBroker(loadUuid)`: the one load with that id, or an error
      carrying the lookup prefix. */
  function FetchLoadAndBroker(loads: seq<Row<Load>>, brokers: seq<Row<Broker>>, loadUuid: string,
                              outage: Option<string>): (r: Result<LoadDetails>)
    ensures r.Ok? <==> outage.None? && Find(loads, loadUuid).Some?
    ensures r.Ok? ==>
              var l := Find(loads, loadUuid).value;
              r.value == LoadDetails(loadUuid, l.loadIdName, l.pickupDate, l.deliveryDate,
                                     l.assignedBrokerId, BrokerName(brokers, l.assignedBrokerId))
    ensures r.Err? ==> StartsWith(r.message, LoadLookupPrefix)
  {
    if outage.Some? then Err(LoadLookupPrefix + outage.value)
    else match Single(ById(loads, loadUuid))
      case Err(m) => Err(LoadLookupPrefix + m)
      case Ok(row) =>
        Ok(LoadDetails(row.id, row.fields.loadIdName, row.fields.pickupDate, row.fields.deliveryDate,
                       row.fields.assignedBrokerId, BrokerName(brokers, row.fields.assignedBrokerId)))
  }

  /** `.eq('loadUuid', id)`; an absent id matches no review. */
  function ForLoad(loadUuid: Option<string>): Row<Review> -> bool {
    (x: Row<Review>) => loadUuid == Some(x.fields.loadUuid)
  }

  /** `fetchReviews(loadUuid)`: the reviews of that load, in table order. */
  function FetchReviews(reviews: seq<Row<Review>>, loadUuid: Option<string>, outage: Option<string>)
    : (r: Result<seq<Row<Review>>>)
    ensures r.Ok? <==> outage.None?
    ensures r.Ok? ==> forall x :: x in r.value <==> x in reviews && loadUuid == Some(x.fields.loadUuid)
  {
    if outage.Some? then Err(outage.value) else Ok(Where(reviews, ForLoad(loadUuid)))
  }

  /** The load query (`['reviewLoadDetails', loadUuid]`), enabled only for a
      truthy `loadUuid`. */
  function LoadQuery(loads: seq<Row<Load>>, brokers: seq<Row<Broker>>, loadUuid: Option<string>, f: Fetch)
    : Query<LoadDetails>
  {
    Run(Truthy(loadUuid), f, FetchLoadAndBroker(loads, brokers, loadUuid.GetOr(""), f.outage))
  }

  /** The reviews query (`['loadreviews']`), which is always enabled. */
  function ReviewsQuery(reviews: seq<Row<Review>>, loadUuid: Option<string>, f: Fetch): Query<seq<Row<Review>>> {
    Run(true, f, FetchReviews(reviews, loadUuid, f.outage))
  }

  // ---------------------------------------------------------------------------
  // What the page shows
  // ---------------------------------------------------------------------------

  datatype View =
    | AlreadyReviewed
    | Loading
    | NotFound
    | ThankYou(loadIdName: string)
    | Form(load: LoadDetails)

  /** `loadedReviews?.[0]?.comment` is truthy: only the first review counts. */
  predicate FirstHasComment(reviews: Query<seq<Row<Review>>>) {
    reviews.Done? && |reviews.data| > 0 && Truthy(reviews.data[0].fields.comment)
  }

  /** The page's chain of early returns, in the source's order. */
  function SelectView(reviews: Query<seq<Row<Review>>>, loadUuid: Option<string>, details: Query<LoadDetails>,
                      isSubmitted: bool): (v: View)
    ensures v.Form? ==> details == Done(v.load) && !isSubmitted
    ensures v.ThankYou? ==> details.Done? && details.data.loadIdName == v.loadIdName && isSubmitted
    ensures (v.Form? || v.ThankYou?) ==> Truthy(loadUuid) && !FirstHasComment(reviews)
    ensures v.AlreadyReviewed? <==> FirstHasComment(reviews)
    ensures !FirstHasComment(reviews) && details.Pending? ==> v == Loading
    ensures !FirstHasComment(reviews) && !details.Pending? && (!details.Done? || !Truthy(loadUuid)) ==> v == NotFound
    ensures !FirstHasComment(reviews) && details.Done? && Truthy(loadUuid) ==>
              v == if isSubmitted then ThankYou(details.data.loadIdName) else Form(details.data)
  {
    if FirstHasComment(reviews) then AlreadyReviewed
    else if details.Pending? then Loading
    else if details.Failed? || !Truthy(loadUuid) || !details.Done? then NotFound
    else if isSubmitted then ThankYou(details.data.loadIdName)
    else Form(details.data)
  }

  /** The page rendered over the stored tables. */
  function Render(loads: seq<Row<Load>>, brokers: seq<Row<Broker>>, reviews: seq<Row<Review>>,
                  loadUuid: Option<string>, loadFetch: Fetch, reviewsFetch: Fetch, isSubmitted: bool): View {
    SelectView(ReviewsQuery(reviews, loadUuid, reviewsFetch), loadUuid,
               LoadQuery(loads, brokers, loadUuid, loadFetch), isSubmitted)
  }

  /** The form and the thank-you note only ever show for a load that is in
      the table, and the form shows that load's own columns. */
  lemma FormOnlyForStoredLoad(loads: seq<Row<Load>>, brokers: seq<Row<Broker>>, reviews: seq<Row<Review>>,
                              loadUuid: Option<string>, loadFetch: Fetch, reviewsFetch: Fetch, isSubmitted: bool)
    ensures var v := Render(loads, brokers, reviews, loadUuid, loadFetch, reviewsFetch, isSubmitted);
            (v.Form? || v.ThankYou?) ==> Truthy(loadUuid) && Find(loads, loadUuid.value).Some?
    ensures var v := Render(loads, brokers, reviews, loadUuid, loadFetch, reviewsFetch, isSubmitted);
            v.Form? ==> v.load.id == loadUuid.value
                        && v.load.assignedBrokerId == Find(loads, loadUuid.value).value.assignedBrokerId
                        && v.load.loadIdName == Find(loads, loadUuid.value).value.loadIdName
  {
  }

  /** A fetched first review with a comment ends the flow, whatever the load
      lookup and the submit state are. */
  lemma CommentedFirstReviewBlocks(loads: seq<Row<Load>>, brokers: seq<Row<Broker>>, reviews: seq<Row<Review>>,
                                   loadUuid: Option<string>, loadFetch: Fetch, reviewsFetch: Fetch, isSubmitted: bool)
    requires reviewsFetch.settled && reviewsFetch.outage.None?
    requires var mine := Where(reviews, ForLoad(loadUuid)); |mine| > 0 && Truthy(mine[0].fields.comment)
    ensures Render(loads, brokers, reviews, loadUuid, loadFetch, reviewsFetch, isSubmitted) == AlreadyReviewed
  {
  }

  /** The duplicate-review gate looks only at fetched data: while the reviews
      query is in flight, or when it failed, an existing load shows the form,
      whatever reviews the table holds. */
  lemma GateIgnoresReviewsQueryState(loads: seq<Row<Load>>, brokers: seq<Row<Broker>>, reviews: seq<Row<Review>>,
                                     loadUuid: Option<string>, loadFetch: Fetch, reviewsFetch: Fetch)
    requires !reviewsFetch.settled || reviewsFetch.outage.Some?
    requires Truthy(loadUuid) && Find(loads, loadUuid.value).Some?
    requires loadFetch.settled && loadFetch.outage.None?
    ensures Render(loads, brokers, reviews, loadUuid, loadFetch, reviewsFetch, false).Form?
  {
  }

  // ---------------------------------------------------------------------------
  // The submission
  // ---------------------------------------------------------------------------

  /** The form's values, as the browser reports them (all text). */
  datatype ReviewAnswers = ReviewAnswers(
    onTimePickup: string,
    onTimeDelivery: string,
    useBtfsAgain: string,
    communicationRating: string,
    performanceRating: string,
    showOnSite: string,
    comment: string)

  const YesNoOptions: seq<string> := ["true", "false"]
  const UseAgainOptions: seq<string> := ["YES", "MAYBE", "NO"]
  const RatingOptions: seq<string> := ["5", "4", "3", "2", "1"]

  /** Every select holds one of the values its options offer. */
  predicate Offered(a: ReviewAnswers) {
    && a.onTimePickup in YesNoOptions
    && a.onTimeDelivery in YesNoOptions
    && a.useBtfsAgain in UseAgainOptions
    && a.communicationRating in RatingOptions
    && a.performanceRating in RatingOptions
    && a.showOnSite in YesNoOptions
  }

  /** The browser's `required` check: the selects always have a value, so
      only an empty comment stops the submit. */
  predicate BrowserAccepts(a: ReviewAnswers) {
    a.comment != ""
  }

  /** The record `onSubmit` sends: the load's keys, the form's text values,
      and the two ratings through `parseInt` (`None` for NaN, which is sent
      as null). */
  datatype ReviewSubmission = ReviewSubmission(
    loadUuid: string,
    brokerId: string,
    onTimePickup: string,
    onTimeDelivery: string,
    useBtfsAgain: string,
    communicationRating: Option<int>,
    performanceRating: Option<int>,
    showOnSite: string,
    comment: string)

  function BuildSubmission(load: LoadDetails, a: ReviewAnswers): ReviewSubmission {
    ReviewSubmission(load.id, load.assignedBrokerId, a.onTimePickup, a.onTimeDelivery, a.useBtfsAgain,
                     ParseInt(a.communicationRating), ParseInt(a.performanceRating), a.showOnSite, a.comment)
  }

  /** A text value read into a boolean column. */
  function BoolColumn(s: string): (r: Result<bool>)
    ensures r.Ok? <==> s in YesNoOptions
    ensures r.Ok? ==> (r.value <==> s == "true")
  {
    if s == "true" then Ok(true)
    else if s == "false" then Ok(false)
    else Err("invalid input syntax for type boolean: \"" + s + "\"")
  }

  /** The row the data service stores for a submission, stamped `now`. */
  function Stored(sub: ReviewSubmission, now: string): (r: Result<Review>)
    ensures r.Ok? <==> sub.onTimePickup in YesNoOptions && sub.onTimeDelivery in YesNoOptions
                       && sub.showOnSite in YesNoOptions
    ensures r.Ok? ==> r.value.loadUuid == sub.loadUuid && r.value.brokerId == sub.brokerId
                      && r.value.comment == Some(sub.comment) && r.value.createdAt == now
    ensures r.Ok? ==> r.value.communicationRating == sub.communicationRating
                      && r.value.performanceRating == sub.performanceRating
                      && r.value.useBtfsAgain == sub.useBtfsAgain
    ensures r.Ok? ==> (r.value.onTimePickup <==> sub.onTimePickup == "true")
                      && (r.value.onTimeDelivery <==> sub.onTimeDelivery == "true")
                      && (r.value.showOnSite <==> sub.showOnSite == "true")
  {
    match (BoolColumn(sub.onTimePickup), BoolColumn(sub.onTimeDelivery), BoolColumn(sub.showOnSite))
    case (Ok(p), Ok(d), Ok(show)) =>
      Ok(Review(sub.loadUuid, sub.brokerId, p, d, sub.useBtfsAgain, sub.communicationRating,
                sub.performanceRating, Some(sub.comment), show, now))
    case (Err(m), _, _) => Err(m)
    case (_, Err(m), _) => Err(m)
    case (_, _, Err(m)) => Err(m)
  }

  function ShowBool(b: bool): string {
    if b then "true" else "false"
  }

  function ShowRating(n: Option<int>): string {
    match n
    case Some(k) => if k >= 0 then ShowNat(k) else ""
    case None => ""
  }

  /** The form values a stored review was submitted with. */
  function AnswersOf(rv: Review): ReviewAnswers {
    ReviewAnswers(ShowBool(rv.onTimePickup), ShowBool(rv.onTimeDelivery), rv.useBtfsAgain,
                  ShowRating(rv.communicationRating), ShowRating(rv.performanceRating),
                  ShowBool(rv.showOnSite), rv.comment.GetOr(""))
  }

  /** Each rating option reads as the number 1 to 5 it spells. */
  lemma RatingOptionValue(s: string)
    requires s in RatingOptions
    ensures ParseInt(s).Some? && 1 <= ParseInt(s).value <= 5 && ShowNat(ParseInt(s).value) == s
  {
    var i :| 0 <= i < |RatingOptions| && RatingOptions[i] == s;
    var n: nat := 5 - i;
    assert ShowNat(n) == s;
    ParseIntShowNat(n);
  }

  /** Any answers the form offers are stored, keyed to the load and its
      broker, with ratings 1 to 5, and read back as the same answers. */
  lemma SubmissionRoundTrip(load: LoadDetails, a: ReviewAnswers, now: string)
    requires Offered(a)
    ensures Stored(BuildSubmission(load, a), now).Ok?
    ensures var rv := Stored(BuildSubmission(load, a), now).value;
            && rv.loadUuid == load.id && rv.brokerId == load.assignedBrokerId
            && rv.communicationRating.Some? && 1 <= rv.communicationRating.value <= 5
            && rv.performanceRating.Some? && 1 <= rv.performanceRating.value <= 5
            && AnswersOf(rv) == a
  {
    RatingOptionValue(a.communicationRating);
    RatingOptionValue(a.performanceRating);
  }

  const SubmitErrorPrefix := "Could not submit review: "

  /** `submitReview(record)`: `.insert([record]).select().single()`. There is
      no check for an earlier review of the same load. */
  method SubmitReview(reviews: Table<Review>, sub: ReviewSubmission, newId: string, now: string,
                      outage: Option<string>) returns (r: Result<Row<Review>>)
    requires reviews.Valid()
    modifies reviews
    ensures reviews.Valid()
    ensures r.Ok? <==> outage.None? && Stored(sub, now).Ok? && Find(old(reviews.rows), newId).None?
    ensures r.Ok? ==> r.value == Row(newId, Stored(sub, now).value)
                      && reviews.rows == old(reviews.rows) + [r.value]
    ensures r.Err? ==> reviews.rows == old(reviews.rows) && StartsWith(r.message, SubmitErrorPrefix)
  {
    match Stored(sub, now) {
      case Err(m) =>
        r := Err(SubmitErrorPrefix + (if outage.Some? then outage.value else m));
      case Ok(fields) =>
        var inserted := reviews.Insert(newId, fields, outage);
        if inserted.Err? {
          r := Err(SubmitErrorPrefix + inserted.message);
        } else {
          var one := Single(inserted.value);
          r := if one.Ok? then Ok(one.value) else Err(SubmitErrorPrefix + NotSingleMessage);
        }
    }
  }

  /** What pressing Submit does: nothing (the browser's check or a missing
      load), a stored review, or a rejection shown as a toast. */
  datatype SubmitOutcome =
    | Blocked
    | NotLoaded
    | Saved(row: Row<Review>, invalidated: set<CacheFilter>)
    | Rejected(message: string)

  /** The mounted page: its link's `loadUuid` and its `isSubmitted` state. */
  class Page {
    const loadUuid: Option<string>
    var isSubmitted: bool

    constructor (loadUuid: Option<string>)
      ensures this.loadUuid == loadUuid && !isSubmitted
    {
      this.loadUuid := loadUuid;
      isSubmitted := false;
    }

    function View(reviews: Query<seq<Row<Review>>>, details: Query<LoadDetails>): View
      reads this
    {
      SelectView(reviews, loadUuid, details, isSubmitted)
    }

    /** The form's submit: `onSubmit`, then the mutation's `onSuccess` or
        `onError`. */
    method Submit(details: Query<LoadDetails>, answers: ReviewAnswers, reviews: Table<Review>,
                  newId: string, now: string, outage: Option<string>) returns (o: SubmitOutcome)
      requires reviews.Valid()
      modifies this, reviews
      ensures reviews.Valid()
      ensures !BrowserAccepts(answers) ==> o == Blocked
      ensures BrowserAccepts(answers) && !details.Done? ==> o == NotLoaded
      ensures o.Blocked? ==> !BrowserAccepts(answers)
      ensures o.NotLoaded? ==> BrowserAccepts(answers) && !details.Done?
      ensures o.Saved? <==> BrowserAccepts(answers) && details.Done? && outage.None?
                            && Stored(BuildSubmission(details.data, answers), now).Ok?
                            && Find(old(reviews.rows), newId).None?
      ensures o.Saved? ==> isSubmitted && o.invalidated == {Key(["reviews"])}
                           && o.row == Row(newId, Stored(BuildSubmission(details.data, answers), now).value)
                           && reviews.rows == old(reviews.rows) + [o.row]
      ensures !o.Saved? ==> isSubmitted == old(isSubmitted) && reviews.rows == old(reviews.rows)
      ensures o.Rejected? ==> StartsWith(o.message, SubmitErrorPrefix)
    {
      if !BrowserAccepts(answers) {
        o := Blocked;
      } else if !details.Done? {
        o := NotLoaded;
      } else {
        var r := SubmitReview(reviews, BuildSubmission(details.data, answers), newId, now, outage);
        if r.Ok? {
          isSubmitted := true;
          o := Saved(r.value, {Key(["reviews"])});
        } else {
          o := Rejected(r.message);
        }
      }
    }
  }

  /** A saved review invalidates the public wall's cache but neither of this
      page's own queries, so the page moves on only through `isSubmitted`. */
  lemma SubmitLeavesPageQueries(loadUuid: string)
    ensures Invalidated({Key(["reviews"])}, ["reviews"])
    ensures !Invalidated({Key(["reviews"])}, ["loadreviews"])
    ensures !Invalidated({Key(["reviews"])}, ["reviewLoadDetails", loadUuid])
  {
    assert Matches(Key(["reviews"]), ["reviews"]);
    var gate: QueryKey := ["loadreviews"];
    var details: QueryKey := ["reviewLoadDetails", loadUuid];
    assert gate[0] != "reviews" && details[0] != "reviews" by {
      assert |gate[0]| != |"reviews"| && |details[0]| != |"reviews"|;
    }
    assert !Matches(Key(["reviews"]), gate);
    assert !Matches(Key(["reviews"]), details);
  }

  /** After a save the page thanks the broker for that load, unless a first
      review with a comment was already fetched. */
  lemma SavedShowsThankYou(details: Query<LoadDetails>, reviews: Query<seq<Row<Review>>>, loadUuid: Option<string>)
    requires details.Done? && Truthy(loadUuid) && !FirstHasComment(reviews)
    ensures SelectView(reviews, loadUuid, details, true) == ThankYou(details.data.loadIdName)
  {
  }
}
