# Feedback tool — a verified Dafny model

The feedback tool lets a service company collect star ratings from its customers:

- An administrator generates a personal feedback link for each customer, with a QR code.
- The customer opens the link, picks one to five stars and may leave a comment.
- The administrator sees the results on a dashboard with filters, a rating distribution
  and a CSV export, and edits the settings: credentials, domains, and the concern types
  with the prompt each one shows.

This project models that behaviour in Dafny and proves properties of the model:

- the backend's REST handlers over the two tables `feedback_links` and `feedback`;
- the dashboard's filtering, counting and CSV export;
- the settings editor;
- the link generator;
- the customer's two-step feedback page;
- the star widget.

## Modules

| module | file | what it models |
|---|---|---|
| `Routes` | `routes.dfy` | `backend/src/routes.ts`. A class `Store` holds the links in a map keyed by id and the feedback rows in a sequence. Each handler is a method returning a `Response` (200 data, 400, 404, 500). |
| `Dashboard` | `dashboard.dfy` | The pure parts of `AdminDashboard.tsx`: the three filter predicates, the distribution, the comment count and the CSV text. |
| `Settings` | `settings.dfy` | `AdminSettings.tsx`. A class `Editor` holds the component state, and each handler is a method. The invariant `Covered` says every concern type has a prompt. |
| `LinkGenerator` | `link_generator.dfy` | `LinkGenerator.tsx`: the feedback URL, the QR URL and the download file name as functions, and a class `Generator` for the form, the list shown and local storage. |
| `CustomerFeedback` | `customer_feedback.dfy` | `CustomerFeedback.tsx`. The class `FeedbackPage` is the step machine plus the stored list, and `RatingLabel` is the label under the stars. |
| `StarRating` | `star_rating.dfy` | `StarRating.tsx`: the lit-star rule, and a class `Widget` for the hover state and the read-only guards. |
| `Seqs` | `seqs.dfy` | `Array.prototype.filter`, counting, and the descending order of `ORDER BY … DESC`. |
| `Text` | `text.dfy` | `trim` (the ECMAScript white space and line terminator set), `toLowerCase`, `includes`, `Number.prototype.toString`, `join` and `split`. |
| `Uri` | `uri.dfy` | `encodeURIComponent`, defined exactly as percent-encoding of the UTF-8 octets (section 2.1 of RFC 3986), plus its inverse. |
| `Wrappers` | `wrappers.dfy` | `Option`. |

Some inputs come from outside the code modelled here. Each becomes a parameter:

- database failures: `fails`, and the `SubmitFault` of the two queries of `POST /feedback`;
- the uuid and the clock;
- the page origin;
- a local-storage read or write that throws: `storageFails`;
- the calendar-day comparison behind the `today` filter: `sameDay`;
- the German date text of the CSV: `dateCell`.

The documented architecture does not match the code in a few places. The model follows the
code:

- the backend has no `DELETE` route and no settings endpoints;
- `src/components/AdminSettings.tsx:22` imports `fetchSettings`, `saveSettings` and
  `saveAdminCredentials` from `src/lib/api.ts`, which exports none of them, so as written
  loading and both saves cannot succeed. The model keeps the handlers' intended behaviour and
  reaches their failure paths only through the `fails` parameter and a failed load;
- the link generator builds the feedback and QR URLs in the browser and keeps the links in
  local storage only (`src/components/LinkGenerator.tsx:34`, `:85`); it never calls the
  backend;
- `POST /feedback-links` accepts URLs built by its caller and only checks that they are
  present;
- the backend returns the concern itself as `concernText`, without looking up a text.

Seven methods are usage scenarios, not models of a handler: `Routes.CreateSubmitFetch`,
`Settings.AddThenDelete`, `Settings.EditDuringSave`, `Settings.SaveSettingsBlocksCredentials`,
`LinkGenerator.GenerateTwice`,
`CustomerFeedback.RateCommentSubmit` and `StarRating.HoverAndLeave`. Each runs a short
sequence of handlers on a fresh object and asserts the state the contracts promise after it.
They carry no contract and have no row below.

## Model

| member | source | states |
|---|---|---|
| `Routes.MapLinkRow` | backend/src/routes.ts:48-60 | Mapping a row and mapping it back gives the same row, so every column survives under its camelCase name. |
| `Routes.MapLinkRowBijective` | backend/src/routes.ts:48-60 | The column mapping is a bijection between rows and API links. |
| `Routes.NewLinkRow` | backend/src/routes.ts:19-28 | The inserted row has the new id and the creation time, and starts unused. Each of the six other columns holds the body field of the same name. |
| `Routes.NewFeedbackRow` | backend/src/routes.ts:103-111 | The inserted feedback row has the new id, the timestamp, the given `refId` and the given rating. Comment, customer, customer name and concern are stored as given, `NULL` when absent. |
| `Routes.MarkUsed` | backend/src/routes.ts:115 | The UPDATE keeps the set of ids. It sets `used` on the row with that id only, and every other row is unchanged. |
| `Routes.MarkUsedIdempotent` | backend/src/routes.ts:108-118 | Marking twice is marking once. The marked link is used. An unknown `refId` leaves the table unchanged. |
| `Routes.InsertLink` | backend/src/routes.ts:66-67 | Inserting a link with a new id into the sorted listing keeps ids distinct and adds exactly that id. |
| `Routes.Store.CreateLink` | backend/src/routes.ts:12-44 | Any missing or empty field of the six gives 400 "Missing fields" with nothing inserted. A database error gives 500 with nothing inserted. Otherwise exactly one unused row is added under the new id, and the reply carries the id, both URLs unchanged, `concernText = concern` and the creation time. |
| `Routes.Store.ListLinks` | backend/src/routes.ts:63-74 | Every stored link comes back exactly once, mapped, ordered by `created_at` descending. A database error gives 500, and a working database always gives 200. |
| `Routes.Store.GetLink` | backend/src/routes.ts:77-91 | The result is the mapped link with that id when it exists. Otherwise it is 404 "Not found", which is distinct from a database error (500). |
| `Routes.Store.SubmitFeedback` | backend/src/routes.ts:94-123 | A missing rating, a rating of 0 or a missing `refId` gives 400 with no writes. On success exactly one row is appended and only the referenced link becomes used. A failing UPDATE leaves the row written and the link unused. |
| `Routes.Store.ListFeedback` | backend/src/routes.ts:126-136 | A working database always gives 200, and a database error gives 500. Every row comes back, as a permutation of the table, ordered by timestamp descending. |
| `Seqs.Filter` | src/components/AdminDashboard.tsx:48 | The result holds exactly the elements that satisfy the predicate, each as often as in the input. |
| `Seqs.FilterIsSubsequence` | src/components/AdminDashboard.tsx:47-67 | Filtering keeps the survivors in their original order. |
| `Seqs.SortDesc` | backend/src/routes.ts:129 | `ORDER BY … DESC` gives a permutation that is sorted by the key, largest first. |
| `Seqs.CountPartition` | src/components/AdminDashboard.tsx:193 | The items that satisfy a predicate and the items that do not add up to the whole list. |
| `Text.TrimSpec` | src/components/AdminSettings.tsx:120 | `trim` returns the slice between a white-space prefix and a white-space suffix, and the slice neither starts nor ends with white space. |
| `Text.BlankIffAllWhiteSpace` | src/components/AdminSettings.tsx:100 | `!s.trim()` holds exactly when the string consists of white space only. |
| `Text.TrimIdempotent` | src/components/AdminSettings.tsx:122 | Trimming a trimmed value changes nothing. `AddDomain` and `AddConcernType` use it to show that what they append is already trimmed. |
| `Text.ToLower` | src/components/AdminDashboard.tsx:49-50 | `toLowerCase` maps each character on its own and keeps the length. |
| `Text.ToLowerIdempotent` | src/components/AdminDashboard.tsx:49-50 | Lower-casing twice is lower-casing once. `Dashboard.SearchIgnoresTermCase` rests on it. |
| `Text.Includes` | src/components/AdminDashboard.tsx:49-50 | `includes` holds exactly when the needle occurs at some position. |
| `Text.IncludesEmpty` | src/components/AdminDashboard.tsx:49-50 | The empty string occurs in every string. |
| `Text.IntToString` | src/components/AdminDashboard.tsx:56 | The decimal form is made of digits, with a leading `-` exactly for negative numbers. |
| `Text.IntToStringInjective` | src/components/AdminDashboard.tsx:56 | Two numbers print the same exactly when they are equal. |
| `Text.ParseIntToString` | src/components/AdminDashboard.tsx:104 | Parsing the printed rating gives the rating back. |
| `Text.SplitJoin` | src/components/AdminDashboard.tsx:108-110 | When no part contains the separator, splitting at it undoes joining with it. |
| `Text.JoinSplit` | src/components/AdminDashboard.tsx:108-110 | Joining undoes splitting. |
| `Uri.Enc` | src/components/LinkGenerator.tsx:66 | `encodeURIComponent` produces only unreserved characters and `%`. |
| `Uri.EncHasNoDelimiters` | src/components/LinkGenerator.tsx:66 | An encoded value contains none of `& = ? # / :` or space, and contains `-` only if the value did. |
| `Uri.DecEnc` | src/components/LinkGenerator.tsx:66 | Decoding an encoded value gives it back, for every string. |
| `Uri.EncInjective` | src/components/LinkGenerator.tsx:66 | Distinct values have distinct encodings. |
| `Uri.EncAppend` | src/components/LinkGenerator.tsx:66 | Encoding distributes over concatenation. |
| `Dashboard.FilteredFeedbackSpec` | src/components/AdminDashboard.tsx:47-67 | The filtered list is an order-preserving subsequence of the feedback. An item is in it exactly when it is in the feedback and passes the search, rating and date predicates. |
| `Dashboard.EmptySearchKeepsAll` | src/components/AdminDashboard.tsx:49-50 | An empty search term keeps every item. |
| `Dashboard.SearchIgnoresTermCase` | src/components/AdminDashboard.tsx:49-50 | Lower-casing the search term first changes no match, so the term's case does not matter. |
| `Dashboard.SearchIsSubstring` | src/components/AdminDashboard.tsx:49-50 | An item matches exactly when the lower-cased term occurs in the lower-cased comment or in the lower-cased customer. |
| `Dashboard.RatingFilterKeywords` | src/components/AdminDashboard.tsx:52-55 | `all` keeps every item. `low` keeps exactly ratings ≤ 2, `medium` exactly 3 and `high` exactly ≥ 4. |
| `Dashboard.RatingStringNotKeyword` | src/components/AdminDashboard.tsx:56 | A rating's decimal text is never one of the keywords, so the numeric branch cannot overlap them. |
| `Dashboard.RatingFilterNumeric` | src/components/AdminDashboard.tsx:56 | The filter value `n.toString()` keeps exactly the items rated `n`. |
| `Dashboard.DateFilterWindows` | src/components/AdminDashboard.tsx:58-63 | `all` keeps every item and `today` keeps the same calendar day. `week` and `month` keep items at most 604800000 and 2592000000 ms old. Any other value keeps nothing. |
| `Dashboard.Distribution` | src/components/AdminDashboard.tsx:73-76 | There are exactly five buckets. |
| `Dashboard.DistributionSpec` | src/components/AdminDashboard.tsx:73-76 | Bucket i counts the items rated i+1. The labels are "1 Stern", then "2 Sterne" … "5 Sterne". |
| `Dashboard.DistributionTotal` | src/components/AdminDashboard.tsx:70-76 | The bucket counts add up to the number of items rated 1 to 5, which is at most the total. |
| `Dashboard.RatingCountsSum` | src/components/AdminDashboard.tsx:75 | The five per-rating counts add up to the count of items rated 1 to 5. |
| `Dashboard.HasCommentSpec` | src/components/AdminDashboard.tsx:193 | An item has a comment exactly when its comment has a character other than white space. |
| `Dashboard.CommentCountSpec` | src/components/AdminDashboard.tsx:193 | Items with and without a comment add up to all items. The count is the total exactly when every item has a comment. |
| `Dashboard.DoubleQuotesSpec` | src/components/AdminDashboard.tsx:105 | After doubling, quotes occur only in adjacent pairs, and undoubling gives the comment back. |
| `Dashboard.QuoteCellRoundTrip` | src/components/AdminDashboard.tsx:105 | The comment cell is quoted as in section 2, items 6 and 7, of RFC 4180, and unquoting it gives the comment back. |
| `Dashboard.CsvRows` | src/components/AdminDashboard.tsx:101-106 | There is one row per filtered item. |
| `Dashboard.CsvHeaderText` | src/components/AdminDashboard.tsx:100 | The header row is `Datum,Kunde,Bewertung,Kommentar`. |
| `Dashboard.ExportCsvStructure` | src/components/AdminDashboard.tsx:108-110 | The export starts with the header. With no items it is the header alone, and each further item appends exactly `\n` plus its row. |
| `Dashboard.ExportCsvLines` | src/components/AdminDashboard.tsx:108-110 | When no cell holds a line break, splitting at `\n` gives the header and then the rows in filtered order. |
| `Dashboard.JoinAppend` | src/components/AdminDashboard.tsx:110 | Joining one more part appends the separator and that part. |
| `Settings.DefaultsCovered` | src/components/AdminSettings.tsx:52-69 | In the initial state every concern type has a prompt and every prompt belongs to a listed type. |
| `Settings.WithoutSpec` | src/components/AdminSettings.tsx:130 | Filtering out a value removes every copy of it. It keeps the other entries with their multiplicities and order, and changes nothing when the value is absent. |
| `Settings.UpdateTextCovered` | src/components/AdminSettings.tsx:136-138 | Setting a prompt keeps every type covered. |
| `Settings.AddTypeCovered` | src/components/AdminSettings.tsx:141-155 | Appending a type together with a prompt for it keeps every type covered. |
| `Settings.DeleteTypeCovered` | src/components/AdminSettings.tsx:158-167 | Removing a type from the list and its key from the map keeps every remaining type covered. |
| `Settings.Editor.constructor` | src/components/AdminSettings.tsx:47-73 | The initial state: username `admin`, an empty password, the single default domain, the seven concern types with their prompts, empty inputs, `loading` false, and the invariant. The prompt for new types is the one at line 150. |
| `Settings.Editor.SetCredentials` | src/components/AdminSettings.tsx:235-245 | The credential inputs set username and password, and nothing else changes. |
| `Settings.Editor.SetNewDomain` | src/components/AdminSettings.tsx:303 | The domain input changes only `newDomain`. |
| `Settings.Editor.SetNewConcernType` | src/components/AdminSettings.tsx:403 | The concern-type input changes only `newConcernType`. |
| `Settings.Editor.LoadSettings` | src/components/AdminSettings.tsx:77-96 | Each of domains, prompts and types is replaced only when the loaded document has it. A failed load changes nothing. Credentials and inputs are never touched. |
| `Settings.Editor.BeginSaveCredentials` | src/components/AdminSettings.tsx:99-107 | A password that is blank after trimming is refused, nothing is sent and the buttons stay enabled. Otherwise the credentials as typed at the click are sent and `loading` disables the save buttons. The form is not touched. |
| `Settings.Editor.CompleteSaveCredentials` | src/components/AdminSettings.tsx:107-115 | On success the form is set from the credentials captured at the click, with the password cleared, so an edit typed during the request is overwritten. On failure the form stays. Either way `loading` is reset. |
| `Settings.Editor.SaveCredentials` | src/components/AdminSettings.tsx:99-116 | With no edit during the request: a blank password is refused and nothing is sent; otherwise the typed credentials are sent, and on success the password is cleared and the username kept, on failure both stay. |
| `Settings.Editor.AddDomain` | src/components/AdminSettings.tsx:119-126 | A blank input changes nothing. Otherwise the trimmed input is appended at the end, earlier entries and duplicates stay, and the input is cleared. The appended domain is already trimmed. |
| `Settings.Editor.DeleteDomain` | src/components/AdminSettings.tsx:129-133 | The domains become the old list without that value, and nothing else changes. |
| `Settings.Editor.UpdateConcernText` | src/components/AdminSettings.tsx:136-138 | Only that one key of the prompt map changes, and the invariant is kept. |
| `Settings.Editor.AddConcernType` | src/components/AdminSettings.tsx:141-155 | A blank input changes nothing. Otherwise the trimmed name is appended and given the default prompt, overwriting any old one, and the input is cleared. The appended type is already trimmed. The invariant is kept. |
| `Settings.Editor.DeleteConcernType` | src/components/AdminSettings.tsx:158-167 | Every copy of the type leaves the list and its key leaves the map. The other prompts stay, and the invariant is kept. |
| `Settings.Editor.BeginSaveSettings` | src/components/AdminSettings.tsx:169-176 | The payload is exactly the current domains, prompts and types, covered under the invariant. `loading` is set, which disables every save button, the credentials save included. Nothing else changes. |
| `Settings.Editor.CompleteSaveSettings` | src/components/AdminSettings.tsx:176-183 | The outcome says whether the request failed, `loading` is reset, and nothing else changes. |
| `Settings.Editor.SaveSettings` | src/components/AdminSettings.tsx:170-185 | Run to completion: the payload is the values at the click, covered under the invariant; the outcome follows `fails`, `loading` ends false, and the form is untouched. |
| `LinkGenerator.QrCodeUrlSpec` | src/components/LinkGenerator.tsx:40-44 | The QR URL is the fixed endpoint with two parameters, `size=200x200` and `data=`. The data decodes to the feedback URL. |
| `LinkGenerator.QrSplit` | src/components/LinkGenerator.tsx:43 | After the endpoint, a value with no `&` leaves exactly the two parameters. |
| `LinkGenerator.FeedbackUrlTemplate` | src/components/LinkGenerator.tsx:65-66 | The feedback URL is exactly `origin + "/?ref=" + id + "&customer=" + Enc(customerNumber) + "&name=" + Enc(firstName + " " + lastName) + "&concern=" + Enc(concern)`. |
| `LinkGenerator.FeedbackUrlSpec` | src/components/LinkGenerator.tsx:65-66 | When the id has no `&`, the query splits into exactly the four parameters `ref`, `customer`, `name` and `concern`, and each encoded value decodes to the form's value. |
| `LinkGenerator.QrFileNameInjective` | src/components/LinkGenerator.tsx:117-122 | The file name `qr-code-<customer>-<id>.png` determines the customer number and the id when ids have no `-`. |
| `LinkGenerator.NewLink` | src/components/LinkGenerator.tsx:71-81 | The new link copies the input fields and carries the feedback URL, the QR URL built from it and the creation time. It starts unused. |
| `LinkGenerator.Generator.constructor` | src/components/LinkGenerator.tsx:25-30 | The form starts empty, with no links shown and not generating. |
| `LinkGenerator.Generator.LoadStored` | src/components/LinkGenerator.tsx:33-38 | A stored list replaces the list shown; with none stored, nothing changes. |
| `LinkGenerator.Generator.SetFields` | src/components/LinkGenerator.tsx:151-190 | The form inputs set the four fields, and nothing else changes. |
| `LinkGenerator.Generator.Generate` | src/components/LinkGenerator.tsx:46-107 | An empty field (fields are not trimmed) refuses the request and changes nothing. Otherwise exactly one new unused link is appended and earlier links stay. When storing succeeds, the stored list equals the list shown and the four fields are reset. When storing fails, the store and the fields keep their values. |
| `CustomerFeedback.EntryOf` | src/components/CustomerFeedback.tsx:29-35 | The stored entry has the captured rating and comment, the customer `Anonymous`, the id and the timestamp. |
| `CustomerFeedback.RatingLabelSpec` | src/components/CustomerFeedback.tsx:102-107 | Each rating 0..5 shows exactly its own message, the six messages are distinct, and any other value shows nothing. |
| `CustomerFeedback.FeedbackPage.Existing` | src/components/CustomerFeedback.tsx:37 | The list read is the stored list, or the empty list when none is stored. |
| `CustomerFeedback.FeedbackPage.constructor` | src/components/CustomerFeedback.tsx:10-14 | The page starts at step 1 with rating 0, an empty comment and both flags false. |
| `CustomerFeedback.FeedbackPage.SetRating` | src/components/CustomerFeedback.tsx:95 | The star widget sets the rating. The step invariant is kept as long as the page is on step 1 or the rating is positive. |
| `CustomerFeedback.FeedbackPage.SetComment` | src/components/CustomerFeedback.tsx:141 | The comment box sets only the comment. |
| `CustomerFeedback.FeedbackPage.RatingSubmit` | src/components/CustomerFeedback.tsx:16-20 | "Weiter" moves to step 2 exactly when the rating is positive, and otherwise the step stays. The invariant "step 2 only with a rating" is kept. |
| `CustomerFeedback.FeedbackPage.BeginSubmit` | src/components/CustomerFeedback.tsx:22-26 | Pressing a submit button sets `isSubmitting` and captures the current rating and comment. |
| `CustomerFeedback.FeedbackPage.CompleteSubmit` | src/components/CustomerFeedback.tsx:28-42 | After the delay exactly one entry with the captured values is appended to the stored list, and the entries already there stay. Then `isSubmitting` is false and `isSubmitted` is true. When reading or writing local storage throws, nothing is stored and both flags keep their values, so the page stays submitting. |
| `CustomerFeedback.FeedbackPage.FeedbackSubmit` | src/components/CustomerFeedback.tsx:22-43 | A submit run to completion appends `{id, rating, comment, timestamp, 'Anonymous'}` at the end, keeps the existing entries and sets the flags. When local storage throws, nothing is stored and the page is left submitting, with its buttons disabled. |
| `CustomerFeedback.FeedbackPage.SkipFeedback` | src/components/CustomerFeedback.tsx:45-47 | Skip starts exactly the same submission, so any comment already typed is sent too. |
| `StarRating.Lit` | src/components/StarRating.tsx:35-36 | Star n is lit exactly when n ≤ the effective rating, which is the hover if non-zero and the rating otherwise. |
| `StarRating.LitIsPrefix` | src/components/StarRating.tsx:35-36 | The lit stars form a prefix whose length is the effective rating clamped to 0..5. With no hover the row shows the rating. |
| `StarRating.Widget.constructor` | src/components/StarRating.tsx:13 | The widget starts with no hover. |
| `StarRating.Widget.Click` | src/components/StarRating.tsx:15-19 | A read-only widget reports nothing. Otherwise a click on star n (1..5) reports exactly n. |
| `StarRating.Widget.Hover` | src/components/StarRating.tsx:21-25 | A read-only widget ignores hover. Otherwise the hover becomes the star, and the row lights exactly up to it. |
| `StarRating.Widget.MouseLeave` | src/components/StarRating.tsx:27-31 | A read-only widget ignores it. Otherwise the hover is reset to 0, so the row falls back to the rating. |

## Left out

- Network and storage I/O (the pg pool, `fetch` wrappers, local storage, session storage,
  the clipboard, Blob downloads) are not modelled. The model keeps only their results:
  stored values, the `fails`, `fault` and `storageFails` parameters, and loaded documents.
- Toasts, console logging and JSX rendering are not modelled. Only the values the JSX shows
  or passes to handlers are kept: the lit stars, the rating label, and the arguments of
  `downloadQRCode` at `src/components/LinkGenerator.tsx:267`.
- The average rating and the seven-day timeline of the dashboard are left out. They use
  floating-point division and the browser's time zone.
- The German date texts (`toLocaleDateString('de-DE')`) are the parameter `dateCell`, and the
  same-calendar-day test of the `today` filter is the parameter `sameDay`. Both depend on
  the time zone.
- Timestamps are integers in milliseconds. The ISO strings the code writes and parses are
  not modelled, except in the browser-only lists, where they are kept as opaque strings
  (`createdAt`, `timestamp`).
- The uuid, `Date.now()` and `Math.random()` ids are parameters. A new feedback row whose id
  is already taken, or a link id already in the table, gives a database error, as a
  primary-key violation would.
- The login page, the admin page's session flag, the index page's query-parameter
  plumbing, the Express start-up and the SQL schema are not part of this model.
- Text.ToLower: it lower-cases A–Z and the Latin-1 capitals U+00C0–U+00DE except U+00D7. It
  does not cover the full Unicode case mapping of `toLowerCase`.
- Uri.Enc: Dafny's `char` is a Unicode scalar value, so the URIError that
  `encodeURIComponent` throws for a lone surrogate cannot arise. Characters are taken as
  code points, not UTF-16 units.
- Routes.Store.SubmitFeedback covers concurrent submissions only as one submission after
  another. Interleaving them is not modelled.
- Routes.Store: `ref_id` is not checked against the links table, and neither is it in the
  code (`MarkUsed` of an unknown id does nothing). Whether the database has a foreign key
  is not part of this model.
- Request bodies carry their fields as absent or typed values. A non-numeric `rating` or a
  non-string field sent by a client is not modelled.
- Settings.Editor.LoadSettings: the loaded types and prompts are taken as they come, as in
  the code, so a loaded document can leave a type without a prompt. The texts tab then shows
  an empty text for it. The invariant is proved for the editing handlers, not for loading.
- CustomerFeedback.FeedbackPage.SetRating: the step-2 and thank-you screens show the
  widget read-only, so no rating change reaches the page there. The model does not enforce
  this; its contract keeps the invariant only on step 1 or for a positive rating.
- CustomerFeedback.FeedbackPage.BeginSubmit requires that no submission is under way,
  because both buttons are disabled while `isSubmitting` holds (lines 150 and 157). The
  model does not capture what a second concurrent submission would do.
- The one-second delay of the submission is the split between `BeginSubmit` and
  `CompleteSubmit`. Time itself is not modelled. In the same way, the request of
  `handleSaveCredentials` is the split between `BeginSaveCredentials` and
  `CompleteSaveCredentials`, and that of `handleSaveSettings` the split between
  `BeginSaveSettings` and `CompleteSaveSettings`.
- LinkGenerator.Generator.LoadStored: the stored `feedbackLinks` entry is either absent or a
  list of links. A corrupt, non-empty entry makes `JSON.parse` throw in the mount effect
  (`src/components/LinkGenerator.tsx:36`, outside any `try`); the model does not capture it.
- Dashboard.FeedbackItem: comment and customer are strings. The backend stores both as given
  and returns `NULL` when a client left them out (`backend/src/routes.ts:96`, `:111`, `:131`).
  A `NULL` comment makes the source's search filter (`src/components/AdminDashboard.tsx:49`),
  the comment count (`:193`) and the CSV export (`:105`) throw a `TypeError`. A `NULL`
  customer makes the search filter throw whenever the comment does not match (`:50`). The
  model does not capture these failures.
- Dashboard.FilteredFeedback: the date filter compares every item with one clock reading
  `now`. The source reads `new Date()` once per item (`src/components/AdminDashboard.tsx:58`),
  so items filtered across a millisecond or day boundary may see different clocks. The model
  does not capture that.
