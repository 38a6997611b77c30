/** The public review wall: the reviews an admin has marked for the site, one
    card each. */
module SiteReviewCard {
  import opened Wrappers
  import opened Text
  import opened Store
  import opened Queries
  import opened Schema

  predicate IsPublic(x: Row<Review>) {
    x.fields.showOnSite
  }

  /** `fetchPublicReviews()`: the reviews with `showOnSite = true`, in table
      order. The error is thrown as `new Error`, whose message is empty. */
  function FetchPublicReviews(reviews: seq<Row<Review>>, outage: Option<string>): (r: Result<seq<Row<Review>>>)
    ensures r.Ok? <==> outage.None?
    ensures r.Err? ==> r.message == ""
    ensures r.Ok? ==> forall x :: x in r.value <==> x in reviews && x.fields.showOnSite
  {
    if outage.Some? then Err("") else Ok(Where(reviews, IsPublic))
  }

  /** The longest array `Array(n)` accepts; a longer or negative length
      throws a RangeError. */
  const MaxArrayLength: int := 4294967295
  const InvalidArrayLength := "Invalid array length"

  /** The number of stars, `Array(communicationRating || 5)`: a NULL or zero
      rating shows five stars. */
  function Stars(rating: Option<int>): (r: Result<nat>)
    ensures r.Err? <==> rating.Some? && (rating.value < 0 || rating.value > MaxArrayLength)
    ensures r.Ok? ==> r.value == if rating.None? || rating.value == 0 then 5 else rating.value
  {
    var n := if rating.None? || rating.value == 0 then 5 else rating.value;
    if n < 0 || n > MaxArrayLength then Err(InvalidArrayLength) else Ok(n)
  }

  /** One card: stars, quoted comment, broker name and load line. */
  datatype Card = Card(stars: nat, quote: string, broker: string, load: string)

  function CardOf(x: Row<Review>, loads: seq<Row<Load>>, brokers: seq<Row<Broker>>): (r: Result<Card>)
    ensures r.Err? <==> Stars(x.fields.communicationRating).Err?
    ensures r.Ok? ==> r.value.stars == Stars(x.fields.communicationRating).value
    ensures r.Ok? ==> r.value.quote == if Truthy(x.fields.comment) then x.fields.comment.value else "N/A"
    ensures r.Ok? ==> r.value.broker == if Truthy(BrokerName(brokers, x.fields.brokerId))
                                        then BrokerName(brokers, x.fields.brokerId).value else "Unknown Broker"
    ensures r.Ok? ==> r.value.load == "Load: " + if Truthy(LoadName(loads, x.fields.loadUuid))
                                                 then LoadName(loads, x.fields.loadUuid).value else "N/A"
  {
    match Stars(x.fields.communicationRating)
    case Err(m) => Err(m)
    case Ok(n) =>
      Ok(Card(n, OrElse(x.fields.comment, "N/A"),
              OrElse(BrokerName(brokers, x.fields.brokerId), "Unknown Broker"),
              "Load: " + OrElse(LoadName(loads, x.fields.loadUuid), "N/A")))
  }

  /** `allReviews.map(...)`: a card per review, in order, or the first
      card's error. */
  function CardsOf(rows: seq<Row<Review>>, loads: seq<Row<Load>>, brokers: seq<Row<Broker>>)
    : (r: Result<seq<Card>>)
    ensures r.Ok? <==> forall i :: 0 <= i < |rows| ==> CardOf(rows[i], loads, brokers).Ok?
    ensures r.Ok? ==> |r.value| == |rows|
                      && forall i :: 0 <= i < |rows| ==> r.value[i] == CardOf(rows[i], loads, brokers).value
  {
    if rows == [] then Ok([])
    else match (CardOf(rows[0], loads, brokers), CardsOf(rows[1..], loads, brokers))
      case (Ok(c), Ok(cs)) =>
        assert forall i :: 1 <= i < |rows| ==> rows[i] == rows[1..][i - 1];
        Ok([c] + cs)
      case (Err(m), _) => Err(m)
      case (_, Err(m)) =>
        assert exists i :: 0 <= i < |rows[1..]| && CardOf(rows[1..][i], loads, brokers).Err?;
        Err(m)
  }

  datatype WallView =
    | WallLoading
    | WallError(text: string)
    | NoReviews
    | Cards(cards: seq<Card>)
    | Crashed(message: string)

  /** The wall's early returns: loading, the error's message and a period,
      the placeholder for an absent or empty list, then the cards (or the
      render's RangeError). */
  function Wall(q: Query<seq<Row<Review>>>, loads: seq<Row<Load>>, brokers: seq<Row<Broker>>): WallView {
    match q
    case Pending => WallLoading
    case Failed(m) => WallError(m + ".")
    case Idle => NoReviews
    case Done(rows) =>
      if rows == [] then NoReviews
      else match CardsOf(rows, loads, brokers)
        case Ok(cs) => Cards(cs)
        case Err(m) => Crashed(m)
  }

  /** The wall's query (`['reviews']`) over the stored tables. */
  function WallOf(reviews: seq<Row<Review>>, loads: seq<Row<Load>>, brokers: seq<Row<Broker>>, f: Fetch): WallView {
    Wall(Run(true, f, FetchPublicReviews(reviews, f.outage)), loads, brokers)
  }

  /** Once fetched, the wall shows the placeholder exactly when no review is
      marked for the site, and otherwise one card per public review. */
  lemma WallPlaceholderIffNonePublic(reviews: seq<Row<Review>>, loads: seq<Row<Load>>, brokers: seq<Row<Broker>>,
                                     f: Fetch)
    requires f.settled && f.outage.None?
    ensures WallOf(reviews, loads, brokers, f).NoReviews? <==> forall x :: x in reviews ==> !x.fields.showOnSite
    ensures WallOf(reviews, loads, brokers, f).Cards? ==>
              |WallOf(reviews, loads, brokers, f).cards| == |Where(reviews, IsPublic)|
  {
    var shown := Where(reviews, IsPublic);
    if shown != [] {
      assert shown[0] in shown;
    }
  }

  /** A rating the review form can store (1 to 5) is shown as that many
      stars, and the card renders. */
  lemma FormRatingsRender(rating: int)
    requires 1 <= rating <= 5
    ensures Stars(Some(rating)) == Ok(rating)
  {
  }

  /** A card with a rating the form can store renders, and names the broker
      and the load the review points at; a dangling broker id shows
      "Unknown Broker" and a dangling load id shows "Load: N/A". */
  lemma CardShowsJoinedRows(x: Row<Review>, loads: seq<Row<Load>>, brokers: seq<Row<Broker>>)
    requires x.fields.communicationRating.Some? ==> 1 <= x.fields.communicationRating.value <= 5
    ensures CardOf(x, loads, brokers).Ok?
    ensures Find(brokers, x.fields.brokerId).None? ==> CardOf(x, loads, brokers).value.broker == "Unknown Broker"
    ensures Find(brokers, x.fields.brokerId).Some? && Find(brokers, x.fields.brokerId).value.name != "" ==>
              CardOf(x, loads, brokers).value.broker == Find(brokers, x.fields.brokerId).value.name
    ensures Find(loads, x.fields.loadUuid).None? ==> CardOf(x, loads, brokers).value.load == "Load: N/A"
    ensures Find(loads, x.fields.loadUuid).Some? && Find(loads, x.fields.loadUuid).value.loadIdName != "" ==>
              CardOf(x, loads, brokers).value.load == "Load: " + Find(loads, x.fields.loadUuid).value.loadIdName
  {
  }

  /** A review with a negative rating makes the whole wall fail to render
      once it is public. */
  lemma NegativeRatingCrashesWall(rows: seq<Row<Review>>, k: nat, loads: seq<Row<Load>>, brokers: seq<Row<Broker>>)
    requires k < |rows|
    requires rows[k].fields.communicationRating.Some? && rows[k].fields.communicationRating.value < 0
    ensures Wall(Done(rows), loads, brokers).Crashed?
  {
    assert CardOf(rows[k], loads, brokers).Err?;
  }
}
