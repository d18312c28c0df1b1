# Train-ticketing admin screens, modelled in Dafny

This project models the logic inside seven screens of an admin front end for a train-ticketing
system. The screens are React components built with antd.

- **Station list.** Filters the cached stations by name and location. Rejects a duplicate
  station before it is created or updated. Chooses between create and update, and defaults the
  page settings.
- **Trip manager.** Marks a trip as cancelled in the list. Shows a collapsed schedule (first two
  stops, an ellipsis, last two stops) and the booked-seat count of each carriage.
- **Train schedules.** An exact-match filter on train name and route name, the
  distinct-name option lists, and the create-or-update choice.
- **Add-trip form.** Train keys with their `fallback-<name>` default, and a case-insensitive
  train search. The submit chain checks the train, then the date, then sends the request. Each
  server answer maps to a notification.
- **Trains.** The route validator and the route filter, and the add-or-update request. Each
  answer maps to a notification. The modal closes once validation passes.
- **Change password.** The OTP cool-down as a state machine, and the form's checks and payload.
  Also the redirect to the login page after success.
- **Sales ranking card.** Builds the top-seven ranking list entry by entry and highlights the
  first three ranks.

How the model is built:

- Each screen is one module. The pure parts are functions, and lemmas state their properties.
- Where a screen keeps React state, the state is a class whose fields are the `useState`
  variables. Each handler or settled request is a method that states the whole new state.
- Every request to the server is an input: its outcome (success, status code, message) is a
  parameter.
- Each notification the screen raises is a `Toast` value carrying the screen's own text.
- Strings are `seq<char>`.
- JavaScript's falsy values are written out wherever the code relies on them:
  - `''` for `||` defaults;
  - an id of 0 in the station payload;
  - a page number of 0;
  - `undefined !== undefined` in the duplicate check while creating.

Shared pieces:

- `text.dfy` holds `Option` and `Toast`. It also models `toLowerCase`, `trim` and `includes`, and
  proves about them: trimming is idempotent and leaves no white space at either end, and
  `includes` holds iff the text occurs at some position.
- `seqs.dfy` holds `filter`, `map` and `[...new Set(xs)]` as functions on sequences. It also
  proves about them:
  - a filtered list is an order-preserving subsequence;
  - filtering keeps exactly the matching elements, with all their occurrences;
  - `filter(...).length` counts the matching positions;
  - the deduplicated list has every element exactly once.

## Model

| member | source | states |
|---|---|---|
| Text.LowerIsLowerCase | src/pages/station/index.tsx:82-88 | lower-casing leaves no upper-case letter and is idempotent |
| Text.TrimShape | src/pages/station/index.tsx:82-87 | the trimmed text is a contiguous slice of the input with only white space cut off around it |
| Text.TrimEnds | src/pages/station/index.tsx:82-87 | trimmed text neither starts nor ends with white space |
| Text.TrimUnchanged | src/pages/station/index.tsx:82-87 | text without white space at its ends is left as it is |
| Text.TrimIdempotent | src/pages/station/index.tsx:82-87 | trimming twice is trimming once |
| Text.NormalizeIdempotent | src/pages/station/index.tsx:82-88 | trim-then-lower-case is idempotent, so normalised keys compare stably |
| Text.ContainsIff | src/pages/station/index.tsx:46-47 | `includes` holds exactly when the substring occurs at some position |
| Text.ContainsEmpty | src/pages/station/index.tsx:46 | every text includes the empty text, so an empty filter matches everything |
| Seqs.Filter | src/pages/station/index.tsx:44-48 | a filtered list is no longer than its input and holds only input elements satisfying the test |
| Seqs.FilterIsSubsequence | src/pages/station/index.tsx:44-48 | filtering keeps the order of the input |
| Seqs.FilterMultiplicity | src/pages/trainschedule/index.tsx:40-44 | a matching element keeps all its occurrences; any other element disappears |
| Seqs.FilterAll | src/pages/trainschedule/index.tsx:40-44 | a test every element passes leaves the list unchanged |
| Seqs.FilterIdempotent | src/pages/station/index.tsx:44-49 | re-filtering a filtered list with the same test changes nothing |
| Seqs.FilterLengthCountsIndices | src/pages/trip/trip-detail/index.tsx:333 | `filter(...).length` is the number of positions whose element passes |
| Seqs.AnyIff | src/pages/station/index.tsx:85-90 | `some` holds exactly when some element satisfies the test |
| Seqs.MapMembers | src/pages/trip/add-trip/index.tsx:34-37 | a mapped list holds exactly the images of the input's elements |
| Seqs.MapSlice | src/pages/dashboard/analysis/components/SalesCard.tsx:57 | mapping the first k elements gives the first k elements of the mapped list |
| Seqs.DistinctSpec | src/pages/trainschedule/index.tsx:117-118 | `[...new Set(xs)]` holds exactly the elements of `xs`, each once, listed in the order of their first occurrences in `xs`, and as an order-preserving subsequence of `xs` |
| Seqs.SubsequenceMembers | src/pages/station/index.tsx:44-49 | a subsequence is no longer than its source and holds only its elements |
| Stations.FilteredStations | src/pages/station/index.tsx:43-49 | the filtered stations are an ordered selection of the cache; stations matching both filters keep all their occurrences and all others are dropped; every kept station's name contains the name filter, ignoring case |
| Stations.EmptyFiltersKeepAll | src/pages/station/index.tsx:46-47 | with both filters empty the whole cache is shown |
| Stations.FiltersIdempotent | src/pages/station/index.tsx:43-49 | filtering the filtered list again with the same filters gives the same list |
| Stations.DuplicateIff | src/pages/station/index.tsx:82-90 | a submit is a duplicate iff some cached station other than the edited one has the same trimmed, lower-cased name and location |
| Stations.DuplicateIgnoresCaseAndSpaces | src/pages/station/index.tsx:82-88 | trimming and lower-casing the typed name and location first does not change the duplicate answer |
| Stations.EditedStationIsNotItsOwnDuplicate | src/pages/station/index.tsx:89 | re-submitting the edited station's own values is no duplicate unless another station has them, while the same values submitted as a new station are |
| Stations.SubmitDecision | src/pages/station/index.tsx:92-109 | a duplicate opens the error dialog and sends nothing; otherwise editing updates the edited station's id and sends that id in the body unless it is 0 (`|| undefined`), and creating sends a body without an id, both with the typed name and location |
| Stations.PageValueSettles | src/pages/station/index.tsx:126-131 | with a non-zero default the stored page setting is never 0, is the table's value or the default, and feeding it back keeps it |
| Stations.StationManager.constructor | src/pages/station/index.tsx:11-23 | the initial state: empty lists and filters, page 1 of size 10 |
| Stations.StationManager.StartLoad | src/pages/station/index.tsx:29-30 | loading starts |
| Stations.StationManager.LoadSucceeded | src/pages/station/index.tsx:32-35 | after a load both the cache and the displayed list are the response |
| Stations.StationManager.LoadFailed | src/pages/station/index.tsx:37-40 | a failed load stores the error text or the default, and the lists stay |
| Stations.StationManager.ChangeNameFilter | src/pages/station/index.tsx:145-150 | the name filter is stored and the cache re-filtered with the current location filter |
| Stations.StationManager.ChangeLocationFilter | src/pages/station/index.tsx:168-173 | the location filter is stored and the cache re-filtered with the current name filter |
| Stations.StationManager.OpenCreate | src/pages/station/index.tsx:52-56 | the modal opens with no station being edited |
| Stations.StationManager.OpenEdit | src/pages/station/index.tsx:58-65 | the modal opens on the chosen station |
| Stations.StationManager.HandleSubmit | src/pages/station/index.tsx:78-109 | the submit outcome is decided against the cache and the edited station |
| Stations.StationManager.SubmitSucceeded | src/pages/station/index.tsx:112-116 | success is reported by mode, the modal closes and a reload starts |
| Stations.StationManager.SubmitFailed | src/pages/station/index.tsx:117-119 | a failed request reports its text or the default |
| Stations.StationManager.ValidationFailed | src/pages/station/index.tsx:121-123 | rejected form values are reported and nothing is sent |
| Stations.StationManager.CancelModal | src/pages/station/index.tsx:231 | cancelling hides the modal |
| Stations.StationManager.HandleTableChange | src/pages/station/index.tsx:126-131 | the page settings are stored with their defaults, and a reload starts exactly when the page number changed |
| TripDetail.CancelChangesOnlyStatus | src/pages/trip/trip-detail/index.tsx:63-67 | cancelling keeps length and order, sets the status of exactly the matching trips to 'Cancelled' (their cancel button is then disabled) and changes no other field |
| TripDetail.CancelIdempotent | src/pages/trip/trip-detail/index.tsx:63-67 | applying the cancel update twice is applying it once |
| TripDetail.FullScheduleRows | src/pages/trip/trip-detail/index.tsx:156-163 | expanded, or with at most five stops, every stop is shown in order numbered 1..n |
| TripDetail.CollapsedScheduleRows | src/pages/trip/trip-detail/index.tsx:164-187 | collapsed with more than five stops, exactly five rows: stops 1 and 2, the ellipsis, stops n-1 and n |
| TripDetail.RowNumbersArePositions | src/pages/trip/trip-detail/index.tsx:156-187 | every stop row's number is its stop's 1-based position; the ellipsis appears iff collapsed with more than five stops |
| TripDetail.BookedCountSpec | src/pages/trip/trip-detail/index.tsx:333 | the booked count is the number of 'Booked' seats, 0 without seats, and at most the number of seats |
| TripDetail.CarriageRowsSpec | src/pages/trip/trip-detail/index.tsx:327-336 | one row per carriage (none when the list is missing), numbered from 1, each with its bounded booked count |
| TripDetail.TripManager.constructor | src/pages/trip/trip-detail/index.tsx:8-16 | the initial state: no trips, nothing open |
| TripDetail.TripManager.StartLoad | src/pages/trip/trip-detail/index.tsx:22-23 | loading starts |
| TripDetail.TripManager.TripsLoaded | src/pages/trip/trip-detail/index.tsx:24-31 | a load replaces the list or reports the error, and the spinner stops |
| TripDetail.TripManager.StartDetail | src/pages/trip/trip-detail/index.tsx:34-35 | the detail spinner starts |
| TripDetail.TripManager.DetailLoaded | src/pages/trip/trip-detail/index.tsx:36-44 | a loaded trip opens the modal; a failure is reported and changes nothing else |
| TripDetail.TripManager.HandleCancelTrip | src/pages/trip/trip-detail/index.tsx:59-70 | a confirmed cancel marks the trip cancelled on success and leaves the list alone on failure, with the matching notification |
| TripDetail.TripManager.ToggleSchedule | src/pages/trip/trip-detail/index.tsx:194 | the toggle flips the expanded flag |
| TripDetail.TripManager.CloseDetailModal | src/pages/trip/trip-detail/index.tsx:281-285 | closing the modal forgets the trip and collapses the schedule |
| TripDetail.TripManager.CloseDetailFooter | src/pages/trip/trip-detail/index.tsx:286 | the footer button only hides the modal |
| TripDetail.TripManager.OpenCarriageSeats | src/pages/trip/trip-detail/index.tsx:47-51 | the seat modal opens on the carriage's seats (none when missing) and name |
| TripDetail.TripManager.CloseCarriageSeats | src/pages/trip/trip-detail/index.tsx:389-390 | either close control hides the seat modal |
| TripDetail.TripManager.ScheduleRows | src/pages/trip/trip-detail/index.tsx:381 | the schedule table shows the display rows of the selected trip |
| TrainSchedules.FilteredSchedules | src/pages/trainschedule/index.tsx:39-45 | the filtered list is an ordered selection of the cache keeping exactly the entries whose names equal the non-empty keys, case-sensitively |
| TrainSchedules.EmptySelectionKeepsAll | src/pages/trainschedule/index.tsx:41-43 | with both keys empty the whole list is shown |
| TrainSchedules.NameOptions | src/pages/trainschedule/index.tsx:117-118 | each option list holds every name present, exactly once, and nothing else |
| TrainSchedules.OfferedTrainNameSelectsSomething | src/pages/trainschedule/index.tsx:117-118 | picking any offered train name shows at least one entry |
| TrainSchedules.Submit | src/pages/trainschedule/index.tsx:99-101 | update with the edited entry's id when editing, create otherwise; the body is sent as built |
| TrainSchedules.TrainScheduleManager.constructor | src/pages/trainschedule/index.tsx:11-19 | the initial state |
| TrainSchedules.TrainScheduleManager.StartLoad | src/pages/trainschedule/index.tsx:25-26 | loading starts |
| TrainSchedules.TrainScheduleManager.LoadSucceeded | src/pages/trainschedule/index.tsx:28-31 | after a load both lists are the response |
| TrainSchedules.TrainScheduleManager.LoadFailed | src/pages/trainschedule/index.tsx:33-36 | a failed load stores the error text or the default |
| TrainSchedules.TrainScheduleManager.HandleTrainNameFilterChange | src/pages/trainschedule/index.tsx:48-51 | the train key is stored and the list re-filtered with the current route key |
| TrainSchedules.TrainScheduleManager.HandleRouteNameFilterChange | src/pages/trainschedule/index.tsx:53-56 | the route key is stored and the list re-filtered with the current train key |
| TrainSchedules.TrainScheduleManager.OpenCreate | src/pages/trainschedule/index.tsx:58-62 | the modal opens with nothing being edited |
| TrainSchedules.TrainScheduleManager.OpenEdit | src/pages/trainschedule/index.tsx:64-75 | the modal opens on the chosen entry |
| TrainSchedules.TrainScheduleManager.HandleSubmit | src/pages/trainschedule/index.tsx:88-101 | the request is chosen from the edited entry |
| TrainSchedules.TrainScheduleManager.SubmitSucceeded | src/pages/trainschedule/index.tsx:104-108 | success is reported by mode, the modal closes and a reload starts |
| TrainSchedules.TrainScheduleManager.HandleDelete | src/pages/trainschedule/index.tsx:77-86 | the record's id is sent; success is reported and starts a reload; a failure shows the error text or 'Xóa thất bại!' |
| TrainSchedules.TrainScheduleManager.SubmitFailed | src/pages/trainschedule/index.tsx:109-111 | a failed request reports its text or the default |
| TrainSchedules.TrainScheduleManager.ValidationFailed | src/pages/trainschedule/index.tsx:112-114 | rejected form values are reported |
| TrainSchedules.TrainScheduleManager.CancelModal | src/pages/trainschedule/index.tsx:236 | cancelling hides the modal |
| TrainSchedules.TrainScheduleManager.FilterOptions | src/pages/trainschedule/index.tsx:117-118 | the drop-downs offer the distinct train and route names |
| AddTrip.TrainKeySpec | src/pages/trip/add-trip/index.tsx:35 | a key is the train id when non-empty and `fallback-` plus the name otherwise, and never empty |
| AddTrip.EmptySearchOffersAll | src/pages/trip/add-trip/index.tsx:48-54 | an empty search offers one option per train, in order, with the key as value and `name - route` as label |
| AddTrip.SearchSelectsMatchingTrains | src/pages/trip/add-trip/index.tsx:47-67 | a search offers the options of an ordered selection of the trains keeping exactly those whose name or route contains the text, ignoring case |
| AddTrip.FindTrainSpec | src/pages/trip/add-trip/index.tsx:80-82 | the lookup finds the first train whose key is the value, and nothing iff no key matches |
| AddTrip.ValidatorAgreesWithSubmitCheck | src/pages/trip/add-trip/index.tsx:162-166 | the field validator accepts exactly the values for which the submit check finds a train |
| AddTrip.PayloadSpec | src/pages/trip/add-trip/index.tsx:109-116 | the payload copies price, date and counts and turns a missing train id into '' |
| AddTrip.ReplyToastSpec | src/pages/trip/add-trip/index.tsx:119-138 | success only on a successful body; 'already exists' in any case gives the conflict text; 409 gives its own; other failures show the server message or a default |
| AddTrip.SubmitChain | src/pages/trip/add-trip/index.tsx:76-131 | an unknown train, then a date at or before the start of today, stop the submit with no request; otherwise the payload is sent and the form reset only on success |
| AddTrip.AddTripForm.constructor | src/pages/trip/add-trip/index.tsx:21-24 | the initial state |
| AddTrip.AddTripForm.HandleSelect | src/pages/trip/add-trip/index.tsx:71-73 | the picked key becomes the field value |
| AddTrip.AddTripForm.HandleChange | src/pages/trip/add-trip/index.tsx:156-183 | the form item stores the typed text as the field value, and clearing the text clears the field |
| AddTrip.AddTripForm.TrainsLoaded | src/pages/trip/add-trip/index.tsx:27-44 | the loaded trains are stored and all offered, or the failure is reported |
| AddTrip.AddTripForm.HandleSearch | src/pages/trip/add-trip/index.tsx:47-68 | the options become the search's options |
| AddTrip.AddTripForm.HandleSubmit | src/pages/trip/add-trip/index.tsx:76-142 | for the train id the field holds, the outcome is the submit chain's; the loading flag is down afterwards and the train field is emptied on an unknown train or a reset |
| Trains.OfferedRoutesAreValid | src/pages/train/index.tsx:268-277 | the route options are the routes in order, and each passes the validator |
| Trains.FilterOptionSpec | src/pages/train/index.tsx:275-277 | an empty input shows every option, a missing value shows only for empty input, and a value containing the input is shown |
| Trains.ValidateFields | src/pages/train/index.tsx:254-267 | the form validates iff the name is filled and the route is a non-empty exact route name |
| Trains.PlanCall | src/pages/train/index.tsx:115-154 | update with the selected record's id exactly in edit mode with a record, add otherwise, both with the form's name and route |
| Trains.ReplyToastSpec | src/pages/train/index.tsx:129-171 | success iff the list is refreshed; 409 gives the conflict text, 400 the server message or 'invalid data', anything else the generic failure |
| Trains.ModesShareOutcomes | src/pages/train/index.tsx:129-171 | update and add succeed on the same answers and differ only in their texts |
| Trains.TrainManager.constructor | src/pages/train/index.tsx:25-30 | the initial state |
| Trains.TrainManager.TrainsLoaded | src/pages/train/index.tsx:33-43 | the loaded trains are stored or the failure is reported |
| Trains.TrainManager.RoutesLoaded | src/pages/train/index.tsx:46-56 | the loaded routes are stored or the failure is reported |
| Trains.TrainManager.HandleAdd | src/pages/train/index.tsx:98-103 | an empty form opens in add mode |
| Trains.TrainManager.HandleEdit | src/pages/train/index.tsx:105-110 | the form opens in edit mode on the record's name and route |
| Trains.TrainManager.ChangeTrainName | src/pages/train/index.tsx:254-260 | typing into the name input stores the text and leaves the route |
| Trains.TrainManager.ChangeRoute | src/pages/train/index.tsx:261-279 | typing or picking a route stores the text and leaves the name |
| Trains.TrainManager.HandleOk | src/pages/train/index.tsx:112-192 | invalid input warns and changes nothing; valid input sends the planned request, refreshes only after success, and closes and empties the modal whatever the answer |
| Trains.TrainManager.HandleCancel | src/pages/train/index.tsx:227-230 | cancelling closes and empties the modal |
| ChangePassword.AfterTicksSpec | src/pages/account/change-password/index.tsx:31-38 | from a non-negative value, k ticks give max(c - k, 0) |
| ChangePassword.CooldownLastsThirtyTicks | src/pages/account/change-password/index.tsx:30-38 | after a successful send the cool-down is positive for exactly 30 ticks |
| ChangePassword.NatToDecimal | src/pages/account/change-password/index.tsx:166 | the printed seconds are a non-empty string of digits |
| ChangePassword.DecimalRoundTrip | src/pages/account/change-password/index.tsx:166 | reading the printed seconds back gives the number, with no leading zero |
| ChangePassword.SendLabelShowsSeconds | src/pages/account/change-password/index.tsx:165-166 | the disabled button shows `Send (<seconds>s)` with the remaining seconds; the enabled one reads 'Send OTP' |
| ChangePassword.SubmitSpec | src/pages/account/change-password/index.tsx:51-89 | differing passwords stop the submit with no request; the body drops the confirmation and adds the user's email; a logout follows exactly an 'OK' |
| ChangePassword.FormRulesPreventMismatch | src/pages/account/change-password/index.tsx:141-151 | values the form's rules accept always pass the mismatch check |
| ChangePassword.LogoutRedirect | src/pages/account/change-password/index.tsx:69-79 | a navigation happens exactly when the page is not the login page and has no non-empty `redirect` parameter; it goes to '/user/login', which never redirects again, with a `redirect` value starting with the current path |
| ChangePassword.NoRedirectFromLogin | src/pages/account/change-password/index.tsx:73 | logging out from the login page navigates nowhere, whatever the query |
| ChangePassword.ChangePasswordPage.constructor | src/pages/account/change-password/index.tsx:9-11 | the initial state: no cool-down, no interval |
| ChangePassword.ChangePasswordPage.ClickSendOtp | src/pages/account/change-password/index.tsx:15-49 | a disabled button ignores the click; no email only warns; 'OK' starts the 30-second cool-down; anything else reports a failure |
| ChangePassword.ChangePasswordPage.Tick | src/pages/account/change-password/index.tsx:31-39 | a tick maps the count to 0 (stopping the interval) when at most 1 and decrements it otherwise, keeping the interval running exactly while the count is positive |
| ChangePassword.ChangePasswordPage.HandleSubmit | src/pages/account/change-password/index.tsx:51-94 | the outcome is the submit's; a response becomes the page state and an 'OK' schedules the logout |
| ChangePassword.ChangePasswordPage.Alert | src/pages/account/change-password/index.tsx:102-118 | the success alert shows iff the state is 'OK', the error alert iff it is 'ERROR' |
| ChangePassword.CountDown | src/pages/account/change-password/index.tsx:30-39 | k ticks after a successful send the count is the ticks function's value, and the button is disabled iff k < 30 |
| SalesCard.RankingListSpec | src/pages/dashboard/analysis/components/SalesCard.tsx:56-63 | the list is empty unless data is present and not loading; then it has one entry per route of the first seven, titled `dep → arr` with the ticket count |
| SalesCard.LaterRoutesIgnored | src/pages/dashboard/analysis/components/SalesCard.tsx:57 | routes after the seventh never change the list |
| SalesCard.BuildRankingList | src/pages/dashboard/analysis/components/SalesCard.tsx:37-63 | pushing one entry per route of `slice(0, 7)` builds exactly the ranking list |
| SalesCard.BadgesSpec | src/pages/dashboard/analysis/components/SalesCard.tsx:142-150 | row i shows rank i + 1, exactly the first three rows are highlighted, and the number highlighted is min(3, length) |

## Left out

- The server and its HTTP wrappers are not modelled. Each request is an input describing how it
  settled. The route ranking's own request is likewise reduced to its data and loading flag.
- The station screen's `handleDelete` is not modelled: its only button is commented out, so the
  screen never calls it. The schedule screen's `handleDelete`, which has a live button, is
  modelled.
- `toLowerCase` and `trim` are modelled for ASCII letters. `trim` cuts ASCII white space, NBSP and
  BOM. Other Unicode case mappings and Unicode space characters are not modelled.
- Dates and times are integers. The add-trip date is one point in time, compared with the start
  of today, which is an input. Formatting with `YYYY-MM-DD` or `HH:mm:ss` and moment parsing are
  not modelled. The payload carries the picked date unformatted.
- The query string of the login redirect is kept as the raw `pathname + search`; `stringify`'s
  URL encoding is not modelled. The logout request and the 1.5-second delay before it are
  reduced to a flag.
- `setInterval` is reduced to discrete ticks; time and concurrent intervals are not modelled.
- antd form internals are reduced to the rules each form declares: what `validateFields`
  returns, `setFields` and `resetFields`. Only the add-trip train field and the train form's two
  fields are kept as state.
- The station form's values and the schedule form's values arrive already validated. The
  schedule payload is sent as built, with no arrival-after-departure or day-range check; the
  screen has none.
- `src/pages/station/data.d.ts` is not part of this model. The station shape (optional numeric
  id, name, location) follows its use in `src/pages/station/index.tsx`.
- Station table paging: `total` is `stations.length`, the full cache, whatever the filters show.
  A reload after a page change or a submit shows the whole response while the filter text stays
  typed. The model keeps both behaviours as written.
- Rendering is not modelled: the JSX layout, the seat-status labels, currency formatting of the
  base price, and the chart of `salesData`.
- Dashboard parts outside the ranking card are not modelled: the time progress in the
  introduction row, the currency formatting helpers, and the top-search and ticket-strip
  components.
- The account-creation page is not modelled.
- `console` logging is not modelled.
- ChangePassword.ChangePasswordPage.ClickSendOtp: the `otpLoading` flag is down again when the
  method returns, so the model does not show the button's spinner during the request.
- AddTrip.AddTripForm.HandleSubmit: the loading flag is lowered on every path. The model does
  not show the spinner while the request is in flight.
