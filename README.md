# Summit Connect site core in Dafny

Summit Connect's marketing site is a single-page React application with a
small client-side CRM. This project models its decision logic:

- **Types** (`types.ts`): the string-valued enums of the qualification
  questionnaire and of the lead lifecycle, and the intake form's shape.
- **Booking** (`components/Booking.tsx`): the lead-intake form. It covers
  multi-select toggling and validation that reports every missing answer.
  It builds the lead record, prepends it to the leads kept in browser
  storage under `summit_leads`, and switches from the form to the
  scheduling step.
- **Dashboard** (`components/InternalDashboard.tsx`): the internal
  dashboard. It covers the statistics row, loading from storage, the
  confirmed bulk clear, and the status edits made from the detail drawer,
  each written back to storage.
- **Router** (`App.tsx`): the hash router. It covers fragment
  normalisation, view selection, header and footer visibility, and the
  scroll a fragment change asks for.
- **Header** (`components/Header.tsx`): the navigation header. It covers
  the scrolled style, the scroll-spy loop, the nav-link click handler,
  the highlighted item and the mobile menu.
- **GenerateOutreach** and **AnalyzeLeads** (`api/generate-outreach.ts`,
  `api/analyze-leads.ts`): the two serverless handlers. Each is a chain of
  guards that sends exactly one response.

Components whose fields change are classes: `BookingForm`,
`LeadDashboard`, `App`, `NavHeader`, and the shared `LocalStore` and
`Location`. Their methods state their whole new state, in terms of pure
functions. The properties are proved about those functions, as `ensures`
clauses and lemmas.

The browser is abstracted as follows:

- storage is a `Slot` (`Missing | Corrupt | Present(records)`) rather than
  JSON text;
- `Math.random()` becomes a `roll < 900` parameter, and the current time
  becomes `now` and `today` parameters;
- the DOM is a map from element id to `(top, bottom)`;
- scrolling is a returned `ScrollAction`;
- the 1500 ms reveal timer of the booking form is a counter of pending
  reveals plus a `RevealTimerFires` event;
- the AI upstream of the handlers is the result it would produce.

Three behaviours of the code are worth stating up front:

- On unparseable storage the dashboard keeps its previous list rather than
  clearing it.
- A lead id is "SC-" plus a number in 100..999.
- Nothing in the site sets `bookedAt`.

## Model

| member | source | states |
|---|---|---|
| Types.StatusFromLabel | types.ts:57-64 | the select's string is read back as a status exactly when it is one of the six status values, and then as that status |
| Types.StatusLabelRoundTrip | types.ts:57-64 | every status is recovered from its own string value |
| Types.StatusLabelInjective | types.ts:57-64 | the six status values are pairwise distinct |
| Types.PriceRangeLabelInjective | types.ts:2-6 | the three price ranges have distinct values |
| Types.ClosingLabelInjective | types.ts:8-13 | the four closing methods have distinct values |
| Types.BreakdownLabelInjective | types.ts:15-21 | the five setting breakdowns have distinct values |
| Types.FlowLabelInjective | types.ts:23-27 | the three lead-flow answers have distinct values |
| Types.GenLabelInjective | types.ts:29-37 | the seven lead-generation methods have distinct values |
| Booking.Without | components/Booking.tsx:33 | the filter removes every copy of the item; every other element keeps its number of occurrences |
| Booking.WithoutConcat | components/Booking.tsx:33 | the filter distributes over concatenation, so the kept elements keep their relative order |
| Booking.WithoutAbsent | components/Booking.tsx:33 | filtering out an absent item changes nothing |
| Booking.Toggle | components/Booking.tsx:31-35 | the item is selected afterwards iff it was not selected before; other items keep their membership; an absent item is appended at the end, and a selected one is removed by the filter, which keeps the other items in order (`Without`) |
| Booking.ToggleTwiceAbsent | components/Booking.tsx:31-35 | toggling an unselected item twice gives back the original selection exactly |
| Booking.ToggleTwicePresent | components/Booking.tsx:31-35 | toggling a selected item twice restores the set of selected items, with the item moved to the end |
| Booking.Report | components/Booking.tsx:39-43 | one check adds exactly itself to the list when it fails and nothing otherwise |
| Booking.ExtendOrdered | components/Booking.tsx:37-43 | a check that runs after every check already reported keeps the list in check order |
| Booking.ReportedIffFails | components/Booking.tsx:37-43 | a check appears among the five checks' messages iff it fails |
| Booking.ReportsOrdered | components/Booking.tsx:37-43 | the messages come in the order the checks run |
| Booking.ReportsEmptyIffComplete | components/Booking.tsx:37-46 | no check reports a message iff the form is complete |
| Booking.MessageInjective | components/Booking.tsx:39-43 | the five messages are pairwise different, so the list of failed checks and the list of messages shown determine each other |
| Booking.CompleteIffNoFailure | components/Booking.tsx:39-43 | the form is complete iff none of the five checks fails |
| Booking.ValidationErrors | components/Booking.tsx:37-46 | every failing check is reported, in check order, and nothing else; the list is empty iff the form is complete |
| Booking.LeadId | components/Booking.tsx:56 | an id is "SC-" plus three digits that read back as the drawn number 100..999 |
| Booking.NewLead | components/Booking.tsx:55-71 | the new record has status Audit Submitted, owner "Unassigned", timezone "Auto-detected" and no booking time; name, e-mail, phone, price range and lead flow are the form's; the notes are the fixed website text; its breakdown and closing method are the first selected; it keeps all generation methods; canInvest holds iff the answer is exactly "Yes" |
| Booking.SaveLead | components/Booking.tsx:74-79 | a save puts the new record first, followed by the stored records in their order; a missing item counts as empty; a parse or write failure leaves storage as it was |
| Booking.BookingForm.constructor | components/Booking.tsx:16-29 | the component starts on the form step with the initial answers, no errors and nothing pending |
| Booking.BookingForm.ToggleClosingMethod | components/Booking.tsx:139 | only the closing-method selection changes, by a toggle |
| Booking.BookingForm.ToggleBreakdown | components/Booking.tsx:161 | only the breakdown selection changes, by a toggle |
| Booking.BookingForm.ToggleGenMethod | components/Booking.tsx:205 | only the generation-method selection changes, by a toggle |
| Booking.BookingForm.Validate | components/Booking.tsx:37-46 | the displayed errors become the validation errors of the form; success iff the form is complete |
| Booking.BookingForm.Submit | components/Booking.tsx:48-80 | an invalid form creates nothing, writes nothing and keeps the step; a valid one creates exactly the new record, saves it and arms the reveal timer |
| Booking.BookingForm.Press | components/Booking.tsx:241-267 | a form whose contact inputs are empty or whose e-mail the browser rejects never reaches the submit handler, so nothing changes; an accepted one is submitted, and the contact message is then never among the errors |
| Booking.BookingForm.RevealTimerFires | components/Booking.tsx:81-85 | when the timer fires, the scheduling step shows whatever became of the save, submitting ends, and the page scrolls to the top |
| Booking.BookingForm.Reset | components/Booking.tsx:293 | "Reset Audit" returns to the form step and keeps the answers |
| Dashboard.Count | components/InternalDashboard.tsx:62-68 | a filtered count never exceeds the number of leads |
| Dashboard.NewTodayCount | components/InternalDashboard.tsx:65-68 | today's audits are at most the number of leads |
| Dashboard.StatusCountsBounded | components/InternalDashboard.tsx:62-64 | booked calls are at most the qualified count; qualified plus no-shows are at most the total |
| Dashboard.QualifiedPercent | components/InternalDashboard.tsx:74 | the percentage is 0 without leads, otherwise 100·q/t rounded half up, and at most 100 |
| Dashboard.RevenueString | components/InternalDashboard.tsx:75 | the text is "$", digits with no leading zero, ".", one digit and "k"; the tenths digit is 0 for an even qualified count and 5 for an odd one |
| Dashboard.TenthsDigit | components/InternalDashboard.tsx:75 | q × 12.5 ends in tenths digit 0 for an even q and 5 for an odd one |
| Dashboard.RevenueRoundTrip | components/InternalDashboard.tsx:75 | the revenue string denotes exactly q × 125 tenths of a thousand |
| Dashboard.ComputeStats | components/InternalDashboard.tsx:60-77 | today's audits are at most the total; booked calls are at most the qualified count; booked plus at-risk are at most the total; the percentage is in 0..100 and 0 without leads; the revenue reads back as 125 tenths per qualified lead; and the row is exactly today's count, the Call Booked count, the No Show count, the rounded percentage of Qualified-or-Call-Booked leads and the revenue text of that count |
| Dashboard.WithStatus | components/InternalDashboard.tsx:577 | every record with the id takes the new status; all other records, all other fields, the length and the order are unchanged |
| Dashboard.WithStatusIdempotent | components/InternalDashboard.tsx:577 | setting the same status twice equals setting it once |
| Dashboard.MarkNoShowAddsOneAtRisk | components/InternalDashboard.tsx:593 | with unique ids, marking a lead that is not already a no-show raises the at-risk count by exactly one |
| Dashboard.NewLeadStats | components/InternalDashboard.tsx:62-68 | a newly submitted record changes none of the status counts, and adds one to today's audits iff it is dated today |
| Dashboard.Loaded | components/InternalDashboard.tsx:44-52 | a missing item gives the empty list, stored records give themselves, unparseable contents give the current list |
| Dashboard.LoadAfterSave | components/InternalDashboard.tsx:47 | after a successful save, the next load shows the new record first, then the earlier records in order |
| Dashboard.LeadDashboard.constructor | components/InternalDashboard.tsx:37-41 | the dashboard starts with no leads and no selection |
| Dashboard.LeadDashboard.Load | components/InternalDashboard.tsx:44-52 | a missing item loads as empty, stored records load as they are, and unparseable contents keep the previous list |
| Dashboard.LeadDashboard.Open | components/InternalDashboard.tsx:263 | clicking a row selects that record |
| Dashboard.LeadDashboard.Close | components/InternalDashboard.tsx:443-461 | the backdrop and the close button clear the selection |
| Dashboard.LeadDashboard.ClearAll | components/InternalDashboard.tsx:93-99 | a confirmed clear removes the stored item, empties the list and clears the selection; a declined one changes nothing |
| Dashboard.LeadDashboard.ChangeStatus | components/InternalDashboard.tsx:575-581 | the new status goes to every record with the selected id; storage holds exactly the new list; the drawer shows the new status |
| Dashboard.LeadDashboard.MarkNoShow | components/InternalDashboard.tsx:592-597 | the same update with No Show, from any prior status |
| Strings.RemoveFirst | App.tsx:32 | `replace('#', '')` leaves a text without "#" unchanged and otherwise removes exactly one character |
| Strings.RemoveFirstSplit | App.tsx:32 | the character removed is the first "#"; the text before it and the text after it are kept |
| Router.NormalizePath | App.tsx:16-20 | the result always starts with "#/"; it is the fragment itself iff the fragment starts with "#/", and "#/" otherwise |
| Router.NormalizeIdempotent | App.tsx:16-20 | normalising twice is normalising once |
| Router.RenderContent | App.tsx:67-119 | the booking view iff the path is "#/booking", the dashboard iff it is "#/internal", the landing page otherwise |
| Router.ViewOfHash | App.tsx:67-91 | "#/booking" selects the booking view and "#/internal" the dashboard, and every other fragment the landing page |
| Router.ShowChrome | App.tsx:122-125 | header and footer are rendered iff the path does not select the dashboard |
| Router.ScrollDecision | App.tsx:25-43 | an anchor scrolls to the id without its "#", with the path at "#/"; otherwise it scrolls to the top iff the normalised path is "#/"; there is no scroll iff the fragment is a route other than "#/" |
| Router.UnknownRoute | App.tsx:16-20 | "#/bogus" is kept as the path, renders the landing page with header and footer, and does not scroll |
| Router.App.constructor | App.tsx:22 | the initial path is the normalised fragment |
| Router.App.HandleHashChange | App.tsx:25-43 | the path becomes the normalised fragment and the scroll is the one the fragment asks for |
| Router.App.ReturnHome | App.tsx:73 | "Return Home" sets the fragment to "#/" |
| Router.App.GetStrategy | App.tsx:110 | "Get Your Strategy" sets the fragment to "#/booking" |
| Header.FirstSpanning | components/Header.tsx:37-47 | the result is the first section, in list order, whose element exists and spans y = 150, or the list length when none does |
| Header.IsHighlighted | components/Header.tsx:95 | an anchor item is highlighted iff the active section is its href without "#"; the home item iff the active section is "home" or "/" |
| Header.HighlightMatchesSection | components/Header.tsx:95 | each active section highlights exactly its own nav item |
| Header.NavHeader.constructor | components/Header.tsx:7-9 | not scrolled, menu closed, "home" active |
| Header.NavHeader.HandleScroll | components/Header.tsx:35-48 | scrolled iff scrollY > 50; the first spanning section becomes active, and without one the active section is unchanged |
| Header.NavHeader.HandleNavClick | components/Header.tsx:53-72 | a route other than "#/" is left to the browser; "#/" sets the fragment and scrolls to the top; an anchor whose element exists scrolls to it and closes the menu; an anchor without one sets the fragment to the href |
| Header.NavHeader.ToggleMenu | components/Header.tsx:124 | the mobile toggle flips the menu |
| Header.NavHeader.GetStrategy | components/Header.tsx:109 | "Get Strategy" sets the fragment to "#/booking" |
| Header.NavHeader.BookFromMenu | components/Header.tsx:149 | "Book Strategy" sets the fragment to "#/booking" and closes the menu |
| Http.Truthy | api/generate-outreach.ts:10 | a value is falsy iff it is undefined, null, false, 0, NaN or the empty string |
| Http.Field | api/generate-outreach.ts:9 | a property of the body reads as undefined when the body is falsy (it then stands for an empty object) or lacks the property, and as its value otherwise |
| Http.UpstreamResponse | api/generate-outreach.ts:15-25 | 200 with the upstream value unchanged iff that value is truthy; 500 "AI returned empty response" for a falsy value; 500 with the error text for an exception |
| Http.SuccessBodyTruthy | api/generate-outreach.ts:17-21 | a 200 response always carries a truthy body |
| GenerateOutreach.HasInputs | api/generate-outreach.ts:10 | a body passes only if it is an object with both properties, and then iff both are truthy |
| GenerateOutreach.Handle | api/generate-outreach.ts:3-26 | 405 iff the method is not POST; 400 iff it is POST and industry or product is falsy; the upstream is called iff both guards pass, with industry and product, and its result decides the response |
| GenerateOutreach.MethodCheckFirst | api/generate-outreach.ts:4-7 | a non-POST request gets the same 405 whatever its body |
| GenerateOutreach.RejectedIgnoresUpstream | api/generate-outreach.ts:4-13 | a request turned away by a guard does not depend on the upstream |
| GenerateOutreach.MissingInputsRejected | api/generate-outreach.ts:9-13 | a POST without a body, or with an empty product, gets 400 |
| AnalyzeLeads.Handle | api/analyze-leads.ts:3-26 | 405 iff the method is not POST; 400 iff it is POST and leads is falsy; otherwise the upstream gets `JSON.stringify(leads)` and its result decides the response |
| AnalyzeLeads.MethodCheckFirst | api/analyze-leads.ts:4-7 | a non-POST request gets the same 405 whatever its body |
| AnalyzeLeads.RejectedIgnoresUpstream | api/analyze-leads.ts:4-13 | a request turned away by a guard does not depend on the upstream |
| AnalyzeLeads.EmptyLeads | api/analyze-leads.ts:9-16 | an empty-string leads value gets 400, while an empty array reaches the upstream |

## Left out

- The `ServiceCategory` and `RevenueBracket` enums (types.ts:39-55): nothing in the modelled core uses them.
- Text inputs for name, e-mail and phone, and the single-choice setters for price range, lead capacity and the invest answer: each is a plain field assignment with no logic. `LeadForm` holds these fields, and validation and record construction read them.
- JSON encoding and decoding. Storage is a `Slot`. A stored value that parses but is not an array of records is treated as `Corrupt`. `JSON.stringify` in the analyze handler stays symbolic (`Stringify`).
- Dashboard.LeadDashboard.ChangeStatus: assumes the storage write succeeds. In the source a throwing `setItem` escapes the handler after the list has already been updated. The booking form's write failure is modelled, as `writeFails`.
- Dashboard.QualifiedPercent: the percentage is computed exactly with rationals. Floating-point division can round differently at exact .5 boundaries.
- Dashboard.RevenueString: `toFixed` switches to exponent notation above 10^21. This is not modelled.
- Dashboard.LeadDashboard.MarkNoShow: assumes the storage write succeeds, as for the status select. In the source a throwing `setItem` escapes the handler after the list has already been updated.
- Booking.BookingForm.ToggleClosingMethod, ToggleBreakdown, ToggleGenMethod, Submit, Press and Reset: the page offers the first five only on the form step and "Reset Audit" only on the calendly step (components/Booking.tsx:96, 280-293). The methods do not require the step, so the model also admits these events on the other step.
- Booking.BookingForm.Press: the browser's e-mail syntax test is a parameter, not an implementation of it. Keyboard submission while a submit is pending is not told apart from a click; the button only ignores pointer events then.
- The cross-tab `storage` listener (components/InternalDashboard.tsx:56): the model covers what one load does, not concurrency between tabs.
- The dashboard login gate (components/InternalDashboard.tsx:79-86): it accepts any input after a timer.
- The performance, calendar and AI-insights tabs: mock figures, floating point and network calls.
- The notes textarea and "Sync Changes": notes are never persisted and the button has no handler.
- Timers: the 100 ms anchor delay and the 1500 ms reveal are separate events or returned actions. The 1200 ms login delay is left out with the login gate. The element-existence test inside the 100 ms anchor timeout belongs to the browser, so `ScrollIntoView(id)` is a request.
- The IntersectionObserver reveal (App.tsx:45-54) and all presentational components.
- `services/geminiServer.ts` and `services/geminiService.ts` are network and SDK calls. The handlers take their result as a parameter.
- Numbers in request bodies are reals with a separate `NaN`. Scroll offsets and element boxes are integers.
- `Math.random()` and the clock are parameters (`roll`, `now`, `today`).
