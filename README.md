# Green Vakil frontend — a verified model of its form and article logic

This project models the behaviour behind the marketing site of a U.S.
legal-referral service that connects clients with attorneys across the United
States (U.S. states and cities, a +1 contact number). The site is a
Next.js/React application. The model covers:

- **The attorney-signup modal** of the home page (`LeadForm`):
  - its six-field schema and the phone formatter that runs on every keystroke;
  - the cascade from the chosen U.S. state to its list of cities;
  - the reset on close;
  - the two halves of a submission: the request built from an accepted form, then the handling of the reply. A failure shows the backend's `message`, else its `error`, else a fixed text.
- **The footer contact form** (`Footer`):
  - its schema, where the phone number is optional;
  - the state picker, with its hard-coded city lists for thirteen territories and its state-code label table;
  - the reset on submit;
  - the hand-over of a legal service picked on the home page, either through browser storage or through an event.
- **The footer newsletter sign-up** (`Newsletter`):
  - the email pattern, proved equal to a plain description of the accepted texts;
  - the handling of success, a 409 reply and any other failure.
- **The article service** (`ArticlesApi`):
  - the URLs it requests, with round-trip and injectivity lemmas;
  - the loop that drains every page of published articles. It is a method proved against a `Collected` specification of the pages' results.
- **The two article listings** (`ArticlesClient`, `ArticlesPage`):
  - the route a card opens and the alt text of a card's image;
  - which view is shown;
  - the partial HTML-entity unescape of descriptions, with its lemmas: no "&lt;" or "&gt;" remains, the text never grows, a text without "&lt;" and "&gt;" (every other entity, anywhere) is kept as it is, unescaping twice equals unescaping once, and it inverts the escaping of `<` and `>`;
  - the loading and error flags of the fetch.
- **The sitemap configuration** (`Sitemap`): how a path is classified into a change frequency and a priority (in tenths), and the two paths added by hand.

Shared pieces:

- `Phone` holds the phone formatter and both phone rules.
- `Location` is the state/city reference data, given as an oracle.
- `Remote` is the outcome of a remote call the forms await.
- `Wrappers` holds `Option`/`Result` and JavaScript's `|| ""` and truthiness for strings.

React components whose handlers update state are modelled as classes:

- `LeadForm.ModalController`
- `Footer.FooterController`
- `Newsletter.NewsletterController`
- `ArticlesPage.ArticlesListing`

Each handler is a method, with `modifies this`, that states the whole new state. An awaited call is split at the `await` into a `Begin…` method and a `Finish…` method.

The two forms carry a `Valid()` invariant that every handler keeps:

- `LeadForm.ModalController.Valid`: the city candidates are those of the current state, there is no city without a state, the stored phone is already formatted, and the service picker shows the form's service.
- `Footer.FooterController.Valid`: the state picker shows the form's state, there is no city without a state, the stored phone is already formatted, and the service picker shows the form's service. It says nothing about the city candidates, because the footer keeps the previous list for an unknown state name and while a state is being typed.

`Newsletter.NewsletterController` and `ArticlesPage.ArticlesListing` have no such invariant; their methods state the new state directly.

Two behaviours of the code worth knowing:

- A failed modal submission does **not** reset the form: only the success branch calls `handleCloseModal` (src/app/page.tsx:231).
- The footer contact form's `onSubmit` sends no request: it shows the success toast and clears the form (src/Components/Footer/page.tsx:72-116).

## Model

| member | source | states |
|---|---|---|
| Wrappers.OrEmpty | src/app/page.tsx:1571-1574 | `v \|\| ""` on a possibly-null string gives the string when present and "" otherwise |
| Phone.DigitsOf | src/app/page.tsx:188 | the digits kept from the input are all digits and never more than its length |
| Phone.DigitsOfFixesExactlyDigitStrings | src/app/page.tsx:188 | dropping non-digits leaves a string unchanged exactly when it is made of digits only |
| Phone.DigitsOfAppend | src/app/page.tsx:188 | the digit filter distributes over concatenation |
| Phone.FormatCases | src/app/page.tsx:187-202 | the formatted value for 0, 1-3, 4-6 and 7 or more digits: the first 3, then a space and the next 3, then a space and at most 4 more |
| Phone.FormatLayout | src/app/page.tsx:187-202 | the output has only digits and spaces; a space stands at index 3 iff more than 3 digits were typed and at 7 iff more than 6; its digits are the first min(10, n) typed digits |
| Phone.FormatShape | src/app/page.tsx:187-202 | the formatted value is at most 12 characters, keeps at most ten digits in typed order and puts spaces only after the third and sixth digit |
| Phone.FormatTenDigits | src/app/page.tsx:187-202 | ten typed digits are stored as three groups of 3, 3 and 4 separated by single spaces |
| Phone.FormatIdempotent | src/app/page.tsx:1534-1537 | formatting a formatted value changes nothing, so the stored phone is stable under re-typing |
| Phone.GroupedIsFormatted | src/app/page.tsx:53 | a value in the `XXX XXX XXXX` shape is left as it is by the formatter |
| Phone.FormattedIsGroupedIffTenDigits | src/app/page.tsx:187-202 | the formatter yields the `XXX XXX XXXX` shape exactly when at least ten digits were typed |
| Phone.ModalAcceptsFormattedIffTenDigits | src/app/page.tsx:45-55 | the modal's phone test accepts the formatted input exactly when at least ten digits were typed |
| Phone.FooterAcceptsFormattedIffNoneOrTenDigits | src/Components/Footer/page.tsx:21-42 | the footer's phone test accepts the formatted input exactly when no digit or at least ten digits were typed |
| Phone.FooterPhoneOnChange | src/Components/Footer/page.tsx:656-671 | the footer's inline digit filter and straight-line grouping `if`s compute the same value as the modal's `formatPhoneNumber` |
| Location.KnownCode | src/app/page.tsx:129-133 | a state code is used exactly when the lookup found a non-empty code, and it is that code |
| LeadForm.ModalErrors | src/app/page.tsx:39-59 | a field is reported exactly when the modal schema's rule for it fails: required fields empty, email failing the email grammar, phone not `XXX XXX XXXX` |
| LeadForm.ApplicationOf | src/app/page.tsx:216-223 | the request carries each form field under its own name, the phone as `phoneNumber` |
| LeadForm.SubmitErrorMessage | src/app/page.tsx:236-243 | the error toast shows the backend `message` if non-empty, else its `error` if non-empty, else the fixed connection text; never empty |
| LeadForm.ModalCandidates | src/app/page.tsx:128-145 | no state or an unknown state gives no cities; a known state gives its cities |
| LeadForm.AcceptedApplication | src/app/page.tsx:205-223 | a form the schema accepts sends a request with all six fields present, a valid email and a grouped phone |
| LeadForm.TypedLeadAccepted | src/app/page.tsx:39-59 | with the other five fields filled in, the form with the typed phone formatted passes the schema exactly when at least ten digits were typed, and its request then carries a grouped number |
| LeadForm.ModalController.constructor | src/app/page.tsx:63-94 | the modal starts closed, not submitting, with empty fields, no cities and no picked service |
| LeadForm.ModalController.Open | src/app/page.tsx:162-164 | opening changes only the open flag |
| LeadForm.ModalController.Close | src/app/page.tsx:167-184 | closing clears every field, the city list and the picked service |
| LeadForm.ModalController.TypeFullName | src/app/page.tsx:1474-1496 | typing the name changes only the name |
| LeadForm.ModalController.TypeEmail | src/app/page.tsx:1499-1520 | typing the email changes only the email |
| LeadForm.ModalController.TypePhone | src/app/page.tsx:1534-1537 | the phone is stored formatted, and the invariant that it is a fixed point of the formatter is kept |
| LeadForm.ModalController.CityCascade | src/app/page.tsx:128-145 | after the effect the city list is that of the watched state; with no state the city is also cleared |
| LeadForm.ModalController.SelectState | src/app/page.tsx:1571-1574 | picking a state sets it, clears the city and leaves the city list of the new state |
| LeadForm.ModalController.SetCity | src/app/page.tsx:1606-1616 | picking or typing a city changes only the city; the picker is disabled without a state |
| LeadForm.ModalController.SelectLegalService | src/app/page.tsx:1653-1657 | the form keeps `newValue \|\| ""`, the picker `newValue` |
| LeadForm.ModalController.BeginSubmit | src/app/page.tsx:205-223 | a form with schema errors sends nothing; an accepted form sends its application and marks the form as submitting |
| LeadForm.ModalController.FinishSubmit | src/app/page.tsx:224-251 | success shows the thank-you toast and resets as on close; failure shows the error toast and keeps the form; submitting ends either way |
| Footer.ContactErrors | src/Components/Footer/page.tsx:22-37 | among the name, email and phone fields, one is reported exactly when its rule fails |
| Footer.RequestErrors | src/Components/Footer/page.tsx:38-41 | among the message, service, state and city fields, one is reported exactly when its rule fails; the message has none |
| Footer.FooterErrors | src/Components/Footer/page.tsx:21-42 | a field is reported exactly when the footer schema's rule for it fails; the message is never reported |
| Footer.PhoneIsOptional | src/Components/Footer/page.tsx:21-42 | an empty phone is never an error; a non-empty one is an error exactly when it is not `XXX XXX XXXX` |
| Footer.OverrideDomain | src/Components/Footer/page.tsx:714-769 | exactly the thirteen listed territories have a hard-coded city list, each non-empty |
| Footer.FooterCandidates | src/Components/Footer/page.tsx:714-769 | a territory gets its hard-coded list; a known state its cities; an unknown name keeps the previous list; no selection empties it |
| Footer.OverrideIgnoresLookup | src/Components/Footer/page.tsx:714-769 | for a territory neither the reference data nor the previous list matters |
| Footer.FooterAgreesWithModal | src/Components/Footer/page.tsx:714-769 | for a known state without an override, the footer offers the same cities as the modal |
| Footer.StateNamesShape | src/Components/Footer/page.tsx:840-894 | every key of the label table is a two-letter code and every name has at least four letters |
| Footer.LabelIn | src/Components/Footer/page.tsx:893 | `table[option] \|\| option` on a table whose names are non-empty is the name for a key and the option itself otherwise |
| Footer.StateLabel | src/Components/Footer/page.tsx:840-894 | a code in the table is shown as its name; any other option as itself |
| Footer.StateLabelChangesExactlyCodes | src/Components/Footer/page.tsx:840-894 | an option's label differs from it exactly when it is one of the fifty codes |
| Footer.FooterController.constructor | src/Components/Footer/page.tsx:55-64 | the form starts at its default values, with no state, no cities and no picked service |
| Footer.FooterController.TypeText | src/Components/Footer/page.tsx:405-420 | typing into the first-name field, or the same way into the last-name (446), email (569) or message (986) field, changes only that field |
| Footer.FooterController.TypePhone | src/Components/Footer/page.tsx:656-671 | the phone is stored formatted and stays a fixed point of the formatter |
| Footer.FooterController.SelectState | src/Components/Footer/page.tsx:714-769 | picking a state sets it in the form and the picker, clears the city and sets the candidates as FooterCandidates says |
| Footer.FooterController.TypeState | src/Components/Footer/page.tsx:770-778 | typing a state sets it in the form and the picker and clears the city; the list stays |
| Footer.FooterController.SetCity | src/Components/Footer/page.tsx:908-920 | picking or typing a city changes only the city; the picker is disabled without a state |
| Footer.FooterController.SelectLegalService | src/Components/Footer/page.tsx:494-498 | the form keeps `newValue \|\| null`, the picker `newValue` |
| Footer.FooterController.OnServiceSelected | src/Components/Footer/page.tsx:147-154 | a service picked on the home page becomes the form's service and the picker's |
| Footer.FooterController.ApplyStoredService | src/Components/Footer/page.tsx:157-163 | a non-empty stored service is applied and removed from storage; an empty or missing one changes nothing |
| Footer.FooterController.Submit | src/Components/Footer/page.tsx:72-116 | with schema errors nothing changes; otherwise the success toast is shown and the form, state, cities and service are cleared |
| Footer.StoredServiceHandoff | src/app/page.tsx:267 | a service stored by a card click is shown by a footer mounted afterwards, and the storage entry is emptied |
| Newsletter.IndexOf | src/Components/Footer/page.tsx:179 | the first index of a character, or the length when it is absent |
| Newsletter.PatternIffShape | src/Components/Footer/page.tsx:179 | the pattern `^[^\s@]+@[^\s@]+\.[^\s@]+$` accepts exactly the texts with no white space, exactly one '@' not in first place, and a '.' after it neither adjacent to it nor last |
| Newsletter.PatternGivesShape | src/Components/Footer/page.tsx:179 | a match of the pattern has the plain shape |
| Newsletter.ShapeGivesPattern | src/Components/Footer/page.tsx:179 | a text of the plain shape matches the pattern |
| Newsletter.GateIsPattern | src/Components/Footer/page.tsx:180 | the empty-email test of the gate adds nothing to the pattern, which needs at least five characters |
| Newsletter.NewsletterController.constructor | src/Components/Footer/page.tsx:68 | the sign-up starts with no email, no error and no request in flight |
| Newsletter.NewsletterController.TypeEmail | src/Components/Footer/page.tsx:310-311 | typing stores the text and clears the inline error |
| Newsletter.NewsletterController.BeginSubscribe | src/Components/Footer/page.tsx:174-190 | an email failing the gate sets the invalid-email error and sends nothing; otherwise that email is sent |
| Newsletter.NewsletterController.FinishSubscribe | src/Components/Footer/page.tsx:191-212 | success clears the email with a toast; 409 sets the already-subscribed error; any other failure shows an error toast; submitting ends |
| Newsletter.SubscribeRound | src/Components/Footer/page.tsx:174-212 | a rejected email never reaches the network and shows the invalid-email error; an accepted one is sent unchanged, then a 409 shows the already-subscribed error and any other failure an error toast with the inline error empty |
| ArticlesApi.NatToDecimal | src/services/api.ts:40 | a page number is rendered as a non-empty string of decimal digits |
| ArticlesApi.DecimalRoundTrip | src/services/api.ts:40 | reading the rendered page number back gives the number |
| ArticlesApi.PageUrlRoundTrip | src/services/api.ts:40 | the page number is read back from the page URL built for it |
| ArticlesApi.PageUrlInjective | src/services/api.ts:40 | distinct pages are requested at distinct URLs |
| ArticlesApi.ArticleUrlRoundTrip | src/services/api.ts:71-93 | the id is read back from `/articles/<id>`, and `/articles/published/<slug>` reads back as the id `published/<slug>` |
| ArticlesApi.GetArticle | src/services/api.ts:69-88 | the article at `/articles/<id>` on an ok reply, else an error carrying the status |
| ArticlesApi.GetPublishedArticleBySlug | src/services/api.ts:91-110 | the article at `/articles/published/<slug>` on an ok reply, else an error carrying the status |
| ArticlesApi.ReportedTotal | src/services/api.ts:57 | a missing or zero page count reads as one page; any other is taken as given |
| ArticlesApi.GetPublishedArticles | src/services/api.ts:33-66 | pages 1, 2, … are requested in order until the first that fails or reports no more pages; a failure is an error with its status, otherwise the result is every page's results in order |
| ArticlesApi.StopPageUnique | src/services/api.ts:39-59 | the page the loop stops at is determined by the replies |
| ArticlesApi.SingleRequestWhenOnePage | src/services/api.ts:57-59 | a first reply reporting at most one page, none or zero ends the loop after one request |
| ArticlesApi.CollectedMembers | src/services/api.ts:53-54 | an article is in the result exactly when it is in the results of one of the pages fetched |
| ArticlesApi.CollectedPrefix | src/services/api.ts:53-54 | the list only grows from page to page; earlier pages' results stay first |
| ArticlesClient.RouteKey | src/app/articles/ArticlesClient.tsx:30 | the slug when present and non-empty, otherwise the id |
| ArticlesClient.CardRoute | src/app/articles/ArticlesClient.tsx:29-32 | the route is "/articles/" followed by the chosen key |
| ArticlesClient.RouteRoundTrip | src/app/articles/ArticlesClient.tsx:31 | the key is read back from its route, and only "/articles/…" routes carry a key |
| ArticlesClient.SlugDecidesRoute | src/app/articles/ArticlesClient.tsx:30-31 | two articles with the same non-empty slug open the same page whatever their ids |
| ArticlesClient.AltTextParts | src/app/articles/ArticlesClient.tsx:130-132 | the alt text starts with the title, is the title alone exactly when the subtitle is missing or empty, and otherwise continues with " - " and the subtitle |
| ArticlesClient.ListingOf | src/app/articles/ArticlesClient.tsx:34-89 | a non-empty error shows only the error; otherwise an empty list shows "No articles found" and a non-empty one its cards |
| ArticlesClient.ErrorHidesArticles | src/app/articles/ArticlesClient.tsx:34-51 | while there is an error the articles passed in do not affect the view |
| ArticlesPage.ReplaceRemovesAll | src/app/articles/page.tsx:209-211 | after a global replacement whose text shares no character with the pattern, the pattern no longer occurs |
| ArticlesPage.ReplaceCreatesNothing | src/app/articles/page.tsx:209-211 | a global replacement whose text shares no character with a word creates no occurrence of it |
| ArticlesPage.ReplaceNoLonger | src/app/articles/page.tsx:209-211 | replacing a pattern by no longer text never lengthens the input |
| ArticlesPage.UnescapeLeavesNoEntities | src/app/articles/page.tsx:209-211 | the unescaped description contains neither "&lt;" nor "&gt;" |
| ArticlesPage.UnescapeNoLonger | src/app/articles/page.tsx:209-211 | the unescaped description is never longer than the stored one |
| ArticlesPage.UnescapeKeepsPlainText | src/app/articles/page.tsx:209-211 | a description without '&' is shown as it is |
| ArticlesPage.UnescapeLeavesAmp | src/app/articles/page.tsx:209-211 | a leading "&amp;" is kept and the text after it is unescaped as usual |
| ArticlesPage.ReplaceAbsentUnchanged | src/app/articles/page.tsx:209-211 | a global replacement leaves a text in which the pattern does not occur unchanged |
| ArticlesPage.UnescapeKeepsOtherEntities | src/app/articles/page.tsx:209-211 | a description without "&lt;" and "&gt;" is shown exactly as stored, so "&amp;", "&quot;", "&#39;" and "&nbsp;" survive anywhere in the text |
| ArticlesPage.UnescapeIdempotent | src/app/articles/page.tsx:209-211 | unescaping an unescaped description changes nothing |
| ArticlesPage.UnescapeInvertsEscape | src/app/articles/page.tsx:209-211 | on text without '&', unescaping undoes the escaping of '<' as "&lt;" and '>' as "&gt;" |
| ArticlesPage.RenderedDescription | src/app/articles/page.tsx:200-213 | an empty description renders nothing; any other renders unescaped |
| ArticlesPage.IdRoute | src/app/articles/page.tsx:34-36 | a click opens "/articles/" followed by the id, from which the id is read back |
| ArticlesPage.ArticlesListing.constructor | src/app/articles/page.tsx:29-32 | the listing starts loading, unmounted, with no articles and no error |
| ArticlesPage.ArticlesListing.View | src/app/articles/page.tsx:57-139 | a spinner exactly while unmounted or loading; then the error or the list as ListingOf says |
| ArticlesPage.ArticlesListing.BeginFetch | src/app/articles/page.tsx:38-43 | the effect marks the page mounted and loading and changes nothing else |
| ArticlesPage.ArticlesListing.FinishFetch | src/app/articles/page.tsx:43-51 | success stores the articles and clears the error; failure sets the fixed message and keeps the articles; loading ends either way |
| ArticlesPage.LoadListing | src/app/articles/page.tsx:38-139 | a failed fetch shows the fixed message; a successful one shows "No articles found" or the cards it got |
| Sitemap.Transform | next-sitemap.config.js:25-51 | every entry's `loc` is the path and its priority lies between 0.7 and 1.0 |
| Sitemap.DailyExactlyHome | next-sitemap.config.js:27-34 | only "/" is daily, and only it has priority 1.0 |
| Sitemap.ArticlesSectionPriority | next-sitemap.config.js:36-43 | priority 0.8 exactly for paths starting with "/articles", "/articles" and "/articlesX" included |
| Sitemap.OtherPathsGetDefaults | next-sitemap.config.js:7-8 | every other path gets weekly and 0.7, the configuration's defaults |
| Sitemap.PriorityOrder | next-sitemap.config.js:25-51 | the home page ranks above article pages, which rank above the rest |
| Sitemap.AdditionalPaths | next-sitemap.config.js:10-14 | two entries are added by hand: "/" then "/articles" |
| Sitemap.AdditionalPathsEntries | next-sitemap.config.js:10-14 | the added entries are "/" daily at 1.0 and "/articles" weekly at 0.8 |

## Left out

- Rendering, styling, layout, the navigation bar, the scroll-to-footer and the close-on-scroll listener. These are presentation and window events.
- The `country-state-city` package is an oracle (`Location.LocationData`). Its data is not part of this model.
- A state with no city list takes the `if (stateCities)` false branch. That branch is not modelled, because the oracle always returns a list.
- yup's `.email()` grammar is an oracle parameter `emailOk`. The validation messages are not modelled: a form's errors are the set of failing fields.
- `submitAttorneyApplication`, `subscribeToNewsletter`, `getArticles` and `ApiError` are not defined in the service file. They are modelled only by their outcome (`Remote.CallOutcome`).
- The HTTP transport and JSON parsing are not modelled. `fetch` is an oracle from URL to reply, and a failure of `response.json()` is not modelled.
- A `totalPages` of NaN or a non-number is not modelled.
- ArticlesApi.GetPublishedArticles: `lastPage` bounds the loop, because the real loop terminates only if the server eventually reports no more pages.
- `formatDate`, the sitemap's `lastmod` and every other use of the clock and locale are not modelled.
- The author shown on a card is not modelled, because the two listings read different fields (`author.name` and `authorName`).
- Toasts are values, not timed notifications. Console logging is not modelled.
- The delayed `reset()` after a close or submit is not modelled. It sets the values already cleared just before it.
- Footer.FooterController.Submit: the footer's `isSubmitting` flag and the `catch` branch of its `onSubmit` are not modelled. Nothing in that handler is awaited or can throw, so the flag is false between events.
- Footer.StateLabel: the label table is modelled as a map with exactly the fifty codes as keys. In the source it is a plain object literal, so an option named after a member inherited from `Object.prototype` (`constructor`, `toString`, `valueOf`, `hasOwnProperty`, `__proto__`, …), which typing into the state box can make the picker's value, is labelled with that inherited member rather than shown as itself; those names are not modelled.
- Footer.StateLabelChangesExactlyCodes: holds for the prototype-free table above; in the source the inherited member names also change their label.
- `trigger()` revalidation is not modelled separately: a form's errors are computed on submission from its values.
- The home page's `states` list, loaded once on mount, is not modelled. Only the cities derived from a picked state are.
- The configuration files `next.config.js`, `src/app/layout.tsx` and `src/app/ClientLayout.tsx` are not part of this model.
