# btfs-review-app, modelled in Dafny

btfs-review-app is the admin and review web app of a freight brokerage. This
project models its core:

- **Review flow.** A broker gets a link to `/submit-review?loadUuid=<id>` and
  fills in the review form (`ReviewFormPage`). Admins list every review and
  choose which ones appear on the public wall (`ReviewsTable`). The public
  wall renders the chosen reviews as cards (`SiteReviewCard`).
- **Email function.** The edge function `send-broker-email` emails a broker
  the review link through Resend or SendGrid (`SendBrokerEmail`).
- **Loads and brokers.** Admins list, create, edit and delete loads and
  brokers (`LoadsTable`, `CreateLoadPage`, `EditLoadPage`, `BrokersTable`,
  `CreateBrokerForm`, `EditBrokerPage`).
- **Delivery tracking.** A separate table tracks the delivery of loads
  (`DeliveryLoadManager`, `CreateLoadDeliveryPage`).

How each page is modelled:

- Each page is a Dafny module.
- The data service's tables are `Store.Table<R>`. This class holds the rows
  (`seq<Row<R>>`, ids unique) and has `Insert`, `Update` and `Delete`
  methods. Each method takes an optional outage message that stands for the
  service returning an error.
- A query is `Queries.Query<T>`: idle, pending, failed or done. It is
  computed from whether the query is enabled, whether its fetch has settled,
  and the fetch's result.
- Cache invalidation is the set of `CacheFilter`s a success handler passes:
  a key prefix, or `AnyQuery` when the array form of `invalidateQueries`
  passes no filter.
- The pages that keep an open action popup (the two tables) and the review
  form (its "submitted" flag) are classes whose methods change those fields.
- Validation rules become `FieldErrors` functions, whose contracts say
  exactly when each message appears.
- Each page's submit is a method. Its contract ties the outcome and the new
  table rows to the form and the old rows.
- Module `Workflow` connects the pages:
  - the add-load link opens the create form for that broker;
  - the share link opens the review form;
  - a stored review closes the form;
  - showing a review puts it on the wall.

## Model

Source paths are relative to the repository root.

| member | source | states |
|---|---|---|
| Text.EmailPatternAccepts | app/src/components/CreateBrokerForm.jsx:111-114 | an address `user@domain` with non-empty, whitespace-free halves matches `^\S+@\S+$` |
| Text.EmailPatternSplits | app/src/components/CreateBrokerForm.jsx:111-114 | every matching address splits at an `@` into non-empty, whitespace-free halves |
| Text.EmailPatternRejectsSpace | app/src/components/EditBrokerPage.jsx:86 | an address with whitespace anywhere fails the pattern |
| Text.Lower | app/supabase/functions/send-broker-email/index.ts:58 | `toLowerCase` keeps the length and lowers each character |
| Text.LowerIdempotent | app/supabase/functions/send-broker-email/index.ts:58 | lowering twice is lowering once |
| Text.ParseIntShowNat | app/src/components/ReviewFormPage.jsx:110-111 | `parseInt` of a number's decimal text gives that number back |
| Text.SplitJoined | app/src/components/EditLoadPage.jsx:76-77 | the text before the first separator of `p + c + q`, with `c` not in `p`, is `p`, and the text after it is `q` |
| Text.LexLeTotal | app/src/components/BrokersTable.jsx:27 | the text order used for sorting is total |
| Text.LexLeTransitive | app/src/components/LoadsTable.jsx:19 | the text order used for sorting is transitive |
| Text.LexLeAntisymmetric | app/src/components/ReviewsTable.jsx:18 | the text order used for sorting is antisymmetric |
| Store.Where | app/src/components/ReviewFormPage.jsx:13-27 | an `.eq` filter keeps exactly the rows that satisfy it |
| Store.WhereAppend | app/src/components/ReviewFormPage.jsx:13-27 | filtering after an append is the old filter result, plus the new row when it qualifies |
| Store.PatchedFind | app/src/components/EditLoadPage.jsx:23-36 | after `.update(...).eq('id', id)`, the row with that id holds the patched value and every other id is unchanged |
| Store.PatchedAbsent | app/src/components/EditBrokerPage.jsx:23-32 | an update of an id no row has changes nothing |
| Store.WithoutFind | app/src/components/LoadsTable.jsx:28-37 | after `.delete().eq('id', id)` that id is gone and every other id is unchanged |
| Store.AppendFind | app/src/components/CreateLoadPage.jsx:22-31 | after an insert under a fresh id, the new row is found by its id and the other ids are unchanged |
| Store.Table.Insert | app/src/components/CreateLoadPage.jsx:22-31 | an insert under a fresh id appends the row and returns it; an outage or a duplicate id leaves the rows unchanged with an error |
| Store.Table.Update | app/src/components/EditLoadPage.jsx:23-36 | an update patches the row with that id and returns the updated rows; an outage changes nothing |
| Store.Table.Delete | app/src/components/BrokersTable.jsx:36-49 | a delete removes the rows with that id and returns them; an outage changes nothing |
| Store.OrderByCorrect | app/src/components/DeliveryLoadManager.jsx:22 | `.order(column, ...)` gives a permutation of the rows, sorted in the requested direction |
| Store.InsertSortedCorrect | app/src/components/LoadsTable.jsx:19 | inserting a row into a sorted list keeps it sorted and adds exactly that row |
| Store.PrecedesTransitive | app/src/components/ReviewsTable.jsx:18 | the row order, with missing keys sorted last, is transitive in both directions |
| Queries.Run | app/src/components/CreateLoadPage.jsx:42-46 | a disabled query is idle; a done or failed query was enabled and settled, and carries the fetch's value or message |
| Popup.ToggledOpensOrCloses | app/src/components/LoadsTable.jsx:80-82 | `togglePopup(id)` closes the popup that is open for `id` and otherwise opens `id`'s popup |
| Popup.ToggledTwice | app/src/components/BrokersTable.jsx:86-88 | toggling twice restores an open `id` popup and closes any other |
| Urls.ParamRoundTrip | app/src/components/ReviewFormPage.jsx:63-70 | `searchParams.get(name)` on `base?name=value` returns `value` |
| ReviewFormPage.FetchLoadAndBroker | app/src/components/ReviewFormPage.jsx:44-60 | the lookup succeeds exactly for a stored load and no outage; its result carries the load's name, broker id and broker; errors carry the lookup prefix |
| ReviewFormPage.FetchReviews | app/src/components/ReviewFormPage.jsx:13-27 | exactly the stored reviews for this load |
| ReviewFormPage.SelectView | app/src/components/ReviewFormPage.jsx:121-139 | "already reviewed" exactly when the first review for the load has a comment; otherwise loading while the load lookup is pending, and not found when the lookup failed, the `loadUuid` is missing or there is no load data; the thank-you page after a save and the form before it, both with the loaded details |
| ReviewFormPage.FormOnlyForStoredLoad | app/src/components/ReviewFormPage.jsx:73-77 | the form is shown only for a stored load, with that load's details |
| ReviewFormPage.CommentedFirstReviewBlocks | app/src/components/ReviewFormPage.jsx:121-139 | a load whose first review has a comment always shows "already reviewed" |
| ReviewFormPage.GateIgnoresReviewsQueryState | app/src/components/ReviewFormPage.jsx:95-98 | the form shows while the reviews query is pending or failed |
| ReviewFormPage.BoolColumn | app/src/components/ReviewFormPage.jsx:104-114 | a yes/no select value is stored as a boolean exactly when it is "true" or "false" |
| ReviewFormPage.Stored | app/src/components/ReviewFormPage.jsx:104-114 | refused exactly when a yes/no value is not "true" or "false"; otherwise the stored review carries the submission's load, broker, both ratings, `useBtfsAgain` and comment, each yes/no column is true exactly for "true", and the row is stamped with the creation time |
| ReviewFormPage.RatingOptionValue | app/src/components/ReviewFormPage.jsx:153-207 | every rating option parses to 1..5 and shows back as itself |
| ReviewFormPage.SubmissionRoundTrip | app/src/components/ReviewFormPage.jsx:101-117 | answers chosen from the offered options are stored and read back unchanged |
| ReviewFormPage.SubmitReview | app/src/components/ReviewFormPage.jsx:33-43 | the insert succeeds exactly without an outage, for storable answers, under a fresh id; it returns the stored row; errors leave the table unchanged and carry the prefix |
| ReviewFormPage.Page.Submit | app/src/components/ReviewFormPage.jsx:82-86 | blocked exactly when the browser rejects the answers; not loaded exactly when accepted answers meet missing details; on success the page is submitted and `['reviews']` invalidated; failures leave the page and table as they were |
| ReviewFormPage.SubmitLeavesPageQueries | app/src/components/ReviewFormPage.jsx:82-98 | the success handler refreshes `['reviews']` but neither `['loadreviews']` nor this page's load query |
| ReviewFormPage.SavedShowsThankYou | app/src/components/ReviewFormPage.jsx:121-139 | after a save the page thanks the broker by the load's name |
| ReviewsTable.FetchAllReviews | app/src/components/ReviewsTable.jsx:9-22 | every review, newest first; the service's error is passed on |
| ReviewsTable.DisplayFallbacks | app/src/components/ReviewsTable.jsx:82-90 | the load, broker and comment cells show the stored value, or "N/A" when it is missing or empty |
| ReviewsTable.SetVisibilityOnlyShown | app/src/components/ReviewsTable.jsx:25-35 | the patch writes `!showOnSite` and changes no other column |
| ReviewsTable.ToggleVisibility | app/src/components/ReviewsTable.jsx:25-55 | succeeds exactly for a stored id without an outage, returning the flipped row; other ids unchanged; errors carry the prefix; `['adminReviews']` and `['reviews']` invalidated |
| ReviewsTable.StaleToggleChangesNothing | app/src/components/ReviewsTable.jsx:93 | a click whose shown value is stale writes the value already stored |
| ReviewsTable.ToggleTwiceRestores | app/src/components/ReviewsTable.jsx:25-35 | two fresh toggles restore the table |
| SiteReviewCard.FetchPublicReviews | app/src/components/SiteReviewCard.jsx:7-24 | exactly the stored reviews with `showOnSite` |
| SiteReviewCard.Stars | app/src/components/SiteReviewCard.jsx:75 | the star count is the rating, 5 for a missing or zero rating; a negative or oversized rating fails as `Array(n)` does |
| SiteReviewCard.CardOf | app/src/components/SiteReviewCard.jsx:75-89 | a card fails exactly when its star count does; otherwise it has that many stars, the comment or "N/A", the broker's name or "Unknown Broker", and "Load: " followed by the load's name or "N/A" |
| SiteReviewCard.CardShowsJoinedRows | app/src/components/SiteReviewCard.jsx:75-89 | a card with a rating the form can store renders and names the stored broker and load; a dangling broker id shows "Unknown Broker" and a dangling load id "Load: N/A" |
| SiteReviewCard.CardsOf | app/src/components/SiteReviewCard.jsx:34-57 | one card per review, unless some card fails |
| SiteReviewCard.WallPlaceholderIffNonePublic | app/src/components/SiteReviewCard.jsx:34-57 | the placeholder shows exactly when no review is public; otherwise there is one card per public review |
| SiteReviewCard.FormRatingsRender | app/src/components/SiteReviewCard.jsx:75 | ratings from the form's options render that many stars |
| SiteReviewCard.NegativeRatingCrashesWall | app/src/components/SiteReviewCard.jsx:75 | one negative rating breaks the whole wall |
| SendBrokerEmail.HtmlTemplateInjective | app/supabase/functions/send-broker-email/index.ts:22-41 | different links give different HTML bodies |
| SendBrokerEmail.FixedLines | app/supabase/functions/send-broker-email/index.ts:43-53 | the fixed texts of the plain body are single lines |
| SendBrokerEmail.LinesUnlines | app/supabase/functions/send-broker-email/index.ts:43-53 | splitting joined single lines at newlines gives the lines back |
| SendBrokerEmail.PlainTemplateLines | app/supabase/functions/send-broker-email/index.ts:43-53 | the plain body's lines are the heading, the intro, the link label, the link on a line of its own, the load line only when a load name is given, and the sign-off |
| SendBrokerEmail.PlainTemplateLoadLine | app/supabase/functions/send-broker-email/index.ts:43-53 | the plain body has a line `Load: <name>` exactly when the load name is non-empty and equals `name` |
| SendBrokerEmail.ProviderSelection | app/supabase/functions/send-broker-email/index.ts:58-64 | the provider defaults to resend and is compared case-insensitively |
| SendBrokerEmail.Handle | app/supabase/functions/send-broker-email/index.ts:85-148 | every response status is 200, 400, 401, 405 or 500 |
| SendBrokerEmail.AuthorizationFirst | app/supabase/functions/send-broker-email/index.ts:85-93 | 401 exactly when the bearer check fails, before any other check |
| SendBrokerEmail.OnlyPost | app/supabase/functions/send-broker-email/index.ts:97-99 | 405 exactly for an authorised request that is not POST |
| SendBrokerEmail.MissingFieldsRejected | app/supabase/functions/send-broker-email/index.ts:102-107 | an unreadable body, or one missing the email or the link, gives 400 |
| SendBrokerEmail.ProviderCalledIff | app/supabase/functions/send-broker-email/index.ts:109-142 | the provider is called exactly for a complete request, sending enabled and the chosen provider's key set, with the subject, HTML and text built from the request |
| SendBrokerEmail.DisabledSendingSkipsProvider | app/supabase/functions/send-broker-email/index.ts:116-119 | with sending disabled a complete request gets 200 and the skip note, and nothing is sent |
| SendBrokerEmail.SuccessIff | app/supabase/functions/send-broker-email/index.ts:109-148 | 200 exactly for a complete request when sending is disabled, or the chosen provider's key is set and the provider call resolved |
| SendBrokerEmail.ProviderFailures | app/supabase/functions/send-broker-email/index.ts:124-148 | a thrown provider call and a missing key each give 500 with their own message; an unknown provider gives 400 |
| SendBrokerEmail.NullBodyIsServerError | app/supabase/functions/send-broker-email/index.ts:102-107 | a JSON `null` body fails the destructuring and gives 500 |
| LoadsTable.FetchLoads | app/src/components/LoadsTable.jsx:11-25 | every load, latest pickup first; the service's error is passed on |
| LoadsTable.BrokerCell | app/src/components/LoadsTable.jsx:136 | the joined broker's name, or "N/A" when the broker is unknown or its name is empty |
| LoadsTable.ReviewLinkCarriesLoadId | app/src/components/LoadsTable.jsx:99-104 | the copied link is under `<origin>/submit-review?` and its `loadUuid` is the load's id |
| LoadsTable.Page.constructor | app/src/components/LoadsTable.jsx:80-82 | no popup is open at first |
| LoadsTable.Page.TogglePopup | app/src/components/LoadsTable.jsx:80-82 | the popup state toggles for that id |
| LoadsTable.Page.ShareLink | app/src/components/LoadsTable.jsx:99-104 | returns the review link and closes the popup |
| LoadsTable.Page.Edit | app/src/components/LoadsTable.jsx:92-97 | goes to `/admin/loads/edit/<id>` and closes the popup |
| LoadsTable.Page.DeleteClicked | app/src/components/LoadsTable.jsx:55-65 | nothing without confirmation; with confirmation the load is deleted and `['loads']` invalidated, or the service's message is shown; the popup closes |
| BrokersTable.FetchBrokers | app/src/components/BrokersTable.jsx:23-34 | every broker, by name ascending; the service's error is passed on |
| BrokersTable.SelectView | app/src/components/BrokersTable.jsx:104-106 | loading, the error message, "deleting" while a delete is pending, otherwise the list |
| BrokersTable.DeletingHidesList | app/src/components/BrokersTable.jsx:104-106 | while a delete is pending the list is never shown |
| BrokersTable.AddLoadPathCarriesBrokerId | app/src/components/BrokersTable.jsx:98-102 | the add-load path's `brokerId` is the broker's id |
| BrokersTable.Page.constructor | app/src/components/BrokersTable.jsx:86-88 | no popup is open at first |
| BrokersTable.Page.TogglePopup | app/src/components/BrokersTable.jsx:86-88 | the popup state toggles for that id |
| BrokersTable.Page.Edit | app/src/components/BrokersTable.jsx:91-94 | goes to `/admin/brokers/edit/<id>` and closes the popup |
| BrokersTable.Page.AddLoad | app/src/components/BrokersTable.jsx:98-102 | goes to the add-load path and closes the popup |
| BrokersTable.Page.Delete | app/src/components/BrokersTable.jsx:36-71 | the broker is deleted and `['brokers']` invalidated, or the prefixed service message is shown |
| CreateLoadPage.FetchBrokerDetails | app/src/components/CreateLoadPage.jsx:11-19 | succeeds exactly for a stored broker without an outage, with its id and name; errors carry "Broker not found: " |
| CreateLoadPage.FormOnlyForStoredBroker | app/src/components/CreateLoadPage.jsx:42-46 | the form shows only for a stored broker; without a `brokerId`, or for an unknown one, the page says the broker is invalid |
| CreateLoadPage.NewLoadForcedFields | app/src/components/CreateLoadPage.jsx:61-64 | the inserted load takes the URL's broker id and the status "Dispatched", and the three form fields |
| CreateLoadPage.Submit | app/src/components/CreateLoadPage.jsx:22-64 | an incomplete form is not sent; created exactly for a complete form, no outage and a fresh id, with the load appended, `['loads']` invalidated, the link logged and a move to `/admin/loads`; otherwise nothing changes and errors carry "Could not create load: " |
| CreateLoadPage.LoggedLineCarriesLoadId | app/src/components/CreateLoadPage.jsx:55 | the logged line starts with its prefix and its link's `loadUuid` is the new load's id |
| EditLoadPage.FetchLoadById | app/src/components/EditLoadPage.jsx:12-20 | succeeds exactly for a stored load without an outage; errors carry "Load not found: " |
| EditLoadPage.DatePrefill | app/src/components/EditLoadPage.jsx:76-77 | the prefilled date holds no `T`, is a prefix of the stored value, and is empty for a missing value |
| EditLoadPage.DatePrefillOfTimestamp | app/src/components/EditLoadPage.jsx:76-77 | a timestamp `dateTtime` prefills as `date`; a plain date prefills as itself |
| EditLoadPage.DatePrefillIdempotent | app/src/components/EditLoadPage.jsx:76-77 | prefilling a prefilled date changes nothing |
| EditLoadPage.Prefill | app/src/components/EditLoadPage.jsx:71-80 | the form starts with the load's name, broker and status, and each date is the stored value's part before its first `T`, or empty when the stored date is missing |
| EditLoadPage.UntouchedFormKeepsLoad | app/src/components/EditLoadPage.jsx:71-84 | saving an untouched form writes the load back unchanged |
| EditLoadPage.OfferedFormStoresKnownValues | app/src/components/EditLoadPage.jsx:96-128 | choices from the selects store a known status and a stored broker |
| EditLoadPage.Submit | app/src/components/EditLoadPage.jsx:23-36 | updated exactly for a complete form, no outage and a stored id; the row becomes the form's values, `['loads']` and `['load', id]` invalidated, a move to `/admin/loads`; other ids unchanged; errors carry "Could not update load: " |
| EditLoadPage.SaveRefreshesListAndThisLoad | app/src/components/EditLoadPage.jsx:61-66 | saving refreshes the list and this load, and no other load or the broker list |
| EditLoadPage.RenderAsWritten | app/src/components/EditLoadPage.jsx:54 | every render ends in the `fetchBrokers` reference error |
| EditLoadPage.EditPageAlwaysCrashes | app/src/components/EditLoadPage.jsx:54 | as written, the edit form is never shown |
| EditLoadPage.SelectView | app/src/components/EditLoadPage.jsx:86-87 | loading while either query is pending; the form exactly when both are done, prefilled from the load; never a crash |
| EditLoadPage.FormIffLoadStored | app/src/components/EditLoadPage.jsx:46-55 | with the broker list available, the form shows exactly for a stored load, prefilled from it |
| DeliveryLoadManager.FetchDeliveryLoads | app/src/components/DeliveryLoadManager.jsx:16-26 | every delivery load, newest `created_at` first; the service's error is passed on |
| DeliveryLoadManager.SelectView | app/src/components/DeliveryLoadManager.jsx:73-74 | loading exactly while pending, the database error exactly on failure, otherwise the rows |
| DeliveryLoadManager.ListedRowsAreStoredRows | app/src/components/DeliveryLoadManager.jsx:16-26 | once fetched, the table lists exactly the stored rows, newest first |
| DeliveryLoadManager.CelebratesIffCompleted | app/src/components/DeliveryLoadManager.jsx:33-41 | the toast shows exactly when the click marks the row completed |
| DeliveryLoadManager.Toggle | app/src/components/DeliveryLoadManager.jsx:29-49 | exactly without an outage, `loadCompleted` at that id becomes `!currentStatus`, every query is invalidated and the toast shows iff `!currentStatus`; other ids unchanged; a failure changes nothing |
| DeliveryLoadManager.FreshToggleFlips | app/src/components/DeliveryLoadManager.jsx:33-34 | a click whose shown status is current flips the stored status |
| DeliveryLoadManager.DoubleClickWritesOnce | app/src/components/DeliveryLoadManager.jsx:33-34 | a second click before the refresh leaves the table as after one |
| DeliveryLoadManager.Delete | app/src/components/DeliveryLoadManager.jsx:52-71 | reports success and invalidates every query whether or not the delete failed; the row is gone only without an outage |
| CreateLoadDeliveryPage.FieldErrors | app/src/components/CreateLoadDeliveryPage.jsx:57-82 | no errors exactly when broker name and pickup date are set and the miles are at least 1; each message appears exactly when its rule fails |
| CreateLoadDeliveryPage.NewDeliveryLoad | app/src/components/CreateLoadDeliveryPage.jsx:26 | the inserted row is the form's fields with `loadCompleted` false |
| CreateLoadDeliveryPage.Submit | app/src/components/CreateLoadDeliveryPage.jsx:22-42 | a form with a failed rule is not sent; created exactly for a valid form, no outage and a fresh id, with the row appended, every query invalidated and a move to `/admin/loadsCompletion`; otherwise nothing changes |
| CreateLoadDeliveryPage.CreatedRowStartsOpen | app/src/components/CreateLoadDeliveryPage.jsx:26 | a created row has at least 1 mile and is open, so its first toggle completes it and shows the toast |
| CreateLoadDeliveryPage.StoredStatesOffered | app/src/components/CreateLoadDeliveryPage.jsx:98-117 | the stored states come from the list the selects offer |
| CreateBrokerForm.FieldErrors | app/src/components/CreateBrokerForm.jsx:100-114 | no errors exactly when the name has at least 2 characters and the email matches the pattern; each message appears exactly when its rule fails |
| CreateBrokerForm.AcceptedBrokers | app/src/components/CreateBrokerForm.jsx:100-114 | any name of 2 or more characters with a well-formed address passes |
| CreateBrokerForm.SpacedAddressRejected | app/src/components/CreateBrokerForm.jsx:111-114 | an address with whitespace always gets the email message |
| CreateBrokerForm.NewBroker | app/src/components/CreateBrokerForm.jsx:24 | the inserted broker is exactly the form's name and email |
| CreateBrokerForm.Submit | app/src/components/CreateBrokerForm.jsx:21-56 | a form with a failed rule is not sent; added exactly for a valid form, no outage and a fresh id; the toast names the submitted broker, `['brokers']` is invalidated, the form cleared and the page goes to `/admin/brokers`; an outage's message is shown and nothing changes |
| EditBrokerPage.FetchBrokerById | app/src/components/EditBrokerPage.jsx:12-20 | succeeds exactly for a stored broker without an outage; errors carry "Broker not found: " |
| EditBrokerPage.Prefill | app/src/components/EditBrokerPage.jsx:60-64 | the inputs start with the broker's name and email |
| EditBrokerPage.SelectView | app/src/components/EditBrokerPage.jsx:70-71 | loading exactly while pending; the form exactly when done, prefilled; otherwise "Broker not found." |
| EditBrokerPage.FormIffBrokerStored | app/src/components/EditBrokerPage.jsx:42-71 | once fetched, the form shows exactly for a stored broker without an outage, and "Broker not found." otherwise |
| EditBrokerPage.FieldErrors | app/src/components/EditBrokerPage.jsx:80-88 | no errors exactly when the name is set and the email matches the pattern; each message appears exactly when its rule fails |
| EditBrokerPage.EditAcceptsShorterNames | app/src/components/EditBrokerPage.jsx:80 | a one-character name passes here and fails on the create form |
| EditBrokerPage.PatchKeepsCreatedAt | app/src/components/EditBrokerPage.jsx:26-27 | the patch sets name and email only; an untouched form writes the broker back unchanged |
| EditBrokerPage.Submit | app/src/components/EditBrokerPage.jsx:23-55 | a form with a failed rule is not sent; updated exactly for a valid form, no outage and a stored id; the row takes the new name and email and keeps its creation time; `['brokers']` and `['broker', id]` invalidated; other ids unchanged; errors carry "Could not update broker: " |
| Workflow.AddLoadOpensCreateForm | app/src/components/BrokersTable.jsx:98-102 | "Add load" on a stored broker opens the create form for that broker |
| Workflow.ShareLinkOpensReviewForm | app/src/components/LoadsTable.jsx:99-104 | the shared link of an unreviewed stored load opens the review form for that load and its broker |
| Workflow.StoredReviewClosesForm | app/src/components/ReviewFormPage.jsx:121-139 | once a commented review is stored, the load's review page says it was already reviewed |
| Workflow.ShownReviewReachesWall | app/src/components/SiteReviewCard.jsx:7-24 | a hidden review an admin shows appears on the public wall |

## Left out

- The data service client. Tables are sequences of rows with unique ids. A
  service error is an optional outage message, and foreign-key failures are
  covered by that outage. The cascade of load deletes that the LoadsTable
  confirmation text promises is not modelled.
- Google sign-in, the protected route and sign-out (`Login`,
  `ProtectedRoute`, `Sidebar`): they grant access and hold no state.
- Query caching, refetch timing and retries. Invalidation is recorded only as
  the set of filters passed.
- Toasts, clipboard writes, document click listeners and the browser's
  history. The model records what is shown or where the page goes as values.
- `window.confirm` is a boolean input.
- Resend and SendGrid themselves. A send is an opaque outcome: the call
  resolved with a result, or threw. A call that resolves with an error
  payload (Resend reports errors that way) still gets 200, in the source as
  in the model. The environment is a map parameter.
- Locale, date and number rendering; floating-point steps of number inputs.
  Miles are `real`, and the browser's string-to-number conversion is not
  modelled.
- The browser's own `type="email"` validation: only the registered pattern
  is modelled.
- Presentation-only components and `DashboardPage.jsx`.
- `services/UsStates` is not part of this model: the list of states is a
  parameter.
- Text order stands in for the database's collation and timestamp order.
- Query strings are not percent-decoded: links are modelled for ids without
  `&`, `#` or `%`.
- `parseInt` is modelled for decimal text only. `toLowerCase` is ASCII only.
  Lengths count code points, not UTF-16 units.
- Non-string JSON field values in the email function's body count as absent.
- The database's boolean coercion of the review form's yes/no values is
  modelled for "true" and "false" only.
- `new Error(error)` in `ReviewFormPage` and `CreateBrokerForm` stringifies
  the service error. The model uses the service's message.
- `EditLoadPage` fills the form with every fetched column of the load
  (`reset({ ...loadData, ... })`) and sends all of them except the id to the
  update. The columns the model leaves out, such as the creation time, are
  written back unchanged. The model's load has only the five modelled
  columns, so only those are written.
- The race between the create pages' fresh-id check and the insert: ids are
  a parameter assumed fresh or found taken.
- The broker list query that `EditLoadPage` needs: the corrected view takes
  it as an opaque query input.
- The route table. `App.jsx` declares no route for the delivery pages, so
  `/admin/loadsCompletion` reaches the not-found page. The model records
  navigation targets only.
- The link to the review form that `CreateLoadPage` produces is only logged
  to the console, and no email is sent from that page.

## Findings

| source | as written | input that shows it | evidently intended | confidence | as-written member | corrected member |
|---|---|---|---|---|---|---|
| app/src/components/EditLoadPage.jsx:54 | the brokers query calls `fetchBrokers`, which the module neither declares nor imports, so every render throws a reference error | any load id, stored or not | the brokers query loads the broker list, and the page shows the form prefilled from the load once both queries finish | not executed | EditLoadPage.EditPageAlwaysCrashes | EditLoadPage.FormIffLoadStored |
