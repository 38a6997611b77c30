/** How the pages hand work to each other: the brokers table opens the
    add-load page for a broker, the loads table's share link opens the review
    form for a load, a stored review closes that form, and an admin's toggle
    puts a review on the public wall. */
module Workflow {
  import opened Wrappers
  import opened Text
  import opened Store
  import opened Queries
  import opened Schema
  import opened Urls
  import BrokersTable
  import CreateLoadPage
  import LoadsTable
  import ReviewFormPage
  import ReviewsTable
  import SiteReviewCard

  /** "Add load" on a stored broker opens the create form for that broker. */
  lemma AddLoadOpensCreateForm(brokers: seq<Row<Broker>>, brokerId: string, f: Fetch)
    requires PlainValue(brokerId) && brokerId != ""
    requires Find(brokers, brokerId).Some?
    requires f.settled && f.outage.None?
    ensures var param := GetParam(SearchOf(BrokersTable.AddLoadPath(brokerId)), "brokerId");
            CreateLoadPage.SelectView(CreateLoadPage.BrokerQuery(brokers, param, f))
              == CreateLoadPage.Form(CreateLoadPage.BrokerSummary(brokerId, Find(brokers, brokerId).value.name))
  {
    BrokersTable.AddLoadPathCarriesBrokerId(brokerId);
  }

  /** The link copied for a stored load that nobody has reviewed opens the
      review form for that load and its broker. */
  lemma ShareLinkOpensReviewForm(loads: seq<Row<Load>>, brokers: seq<Row<Broker>>, reviews: seq<Row<Review>>,
                                 origin: string, loadId: string, f: Fetch)
    requires '?' !in origin && PlainValue(loadId) && loadId != ""
    requires Find(loads, loadId).Some?
    requires forall x :: x in reviews ==> x.fields.loadUuid != loadId
    requires f.settled && f.outage.None?
    ensures var param := GetParam(SearchOf(LoadsTable.ReviewLink(origin, loadId)), "loadUuid");
            var v := ReviewFormPage.Render(loads, brokers, reviews, param, f, f, false);
            v.Form? && v.load.id == loadId
            && v.load.assignedBrokerId == Find(loads, loadId).value.assignedBrokerId
  {
    LoadsTable.ReviewLinkCarriesLoadId(origin, loadId);
    var param := Some(loadId);
    WhereNone(reviews, ReviewFormPage.ForLoad(param));
    var rq := ReviewFormPage.ReviewsQuery(reviews, param, f);
    assert rq == Done([]);
    assert !ReviewFormPage.FirstHasComment(rq);
    var lq := ReviewFormPage.LoadQuery(loads, brokers, param, f);
    assert lq.Done? && lq.data.id == loadId;
    assert ReviewFormPage.SelectView(rq, param, lq, false) == ReviewFormPage.Form(lq.data);
  }

  /** Once a commented review is stored for a load that had none, the
      review page for that load shows "already reviewed" from then on. */
  lemma StoredReviewClosesForm(loads: seq<Row<Load>>, brokers: seq<Row<Broker>>, reviews: seq<Row<Review>>,
                               newId: string, rv: Review, f: Fetch, isSubmitted: bool)
    requires rv.loadUuid != "" && Truthy(rv.comment)
    requires forall x :: x in reviews ==> x.fields.loadUuid != rv.loadUuid
    requires f.settled && f.outage.None?
    ensures ReviewFormPage.Render(loads, brokers, reviews + [Row(newId, rv)], Some(rv.loadUuid), f, f, isSubmitted)
              == ReviewFormPage.AlreadyReviewed
  {
    var p := ReviewFormPage.ForLoad(Some(rv.loadUuid));
    var before := Where(reviews, p);
    if before != [] {
      assert before[0] in before;
    }
    WhereAppend(reviews, Row(newId, rv), p);
  }

  /** A hidden review that an admin shows is then on the public wall, with
      only its visibility changed. */
  lemma ShownReviewReachesWall(reviews: seq<Row<Review>>, id: string)
    requires UniqueIds(reviews)
    requires Find(reviews, id).Some? && !Find(reviews, id).value.showOnSite
    ensures var after := Patched(reviews, id, ReviewsTable.SetVisibility(false));
            SiteReviewCard.FetchPublicReviews(after, None).Ok?
            && Row(id, Find(reviews, id).value.(showOnSite := true)) in SiteReviewCard.FetchPublicReviews(after, None).value
  {
    var after := Patched(reviews, id, ReviewsTable.SetVisibility(false));
    PatchedFind(reviews, id, ReviewsTable.SetVisibility(false), id);
    FindMember(after, id);
  }
}
