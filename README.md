# barber2go — a Dafny model of the appointment lifecycle

barber2go is a small booking service for a mobile barber shop. Customers book an
appointment. A barber claims it, then accepts, declines or completes it. An administrator
can rewrite any appointment. Every change goes out as a server-sent event and, when a
customer subscribed, as a web-push notification. The server is Rust (actix-web over
SQLite). The pages are plain browser scripts that reconcile their lists with the event
stream.

This project models that core in Dafny and proves what the code promises about it:

- **Shared state.** The database tables, the event log and the push-attempt log are the
  fields of one class, `State.AppState`. Each route handler is a method that names the
  fields it may change.
- **Server rules.** The barber status rule, the admin edit, booking validation, login
  redirects, role gating, subscription upserts, seeding and the SQLite URL parsing are
  functions with their properties proved as lemmas.
- **Streams.** Both event streams (staff and per-appointment public) and their framing are
  modelled as functions over the sequence of received messages.
- **Browser scripts.** The list and card reconciliation, the status-page merge, address
  formatting, HTML escaping, the base64url key decoding and the notification toggle are
  modelled on values. Elements are records and lists are classes holding sequences of them.

Modules follow the source files:

| file | module | models |
|---|---|---|
| text.dfy | `Text`, `Wrappers` | Rust and JavaScript whitespace trimming, prefixes, ASCII case |
| models.dfy | `Models` | status and role constants, appointment and user records |
| state.dfy | `State` | `PushConfig::enabled`, `ServerEvent::from_row`, the application state |
| http.dfy | `Http`, `Forms` | responses; the accumulated validation-error list |
| db.dfy | `Db` | `ensure_sqlite_dir`, `fetch_appointment_event`, `seed_admin`, `seed_cms` |
| push.dfy | `Push` | `store_subscription`, `notify_appointment` |
| auth.dfy | `Auth` | `authenticate_credentials`, the three validators, `logout_guard` |
| barber.dfy | `Barber` | `update_status`, the barber list, `to_view` |
| admin.dfy | `Admin` | `update_appointment`, `create_barber`, `appointment_detail`, `to_view` |
| public.dfy | `Public` | `login`, `create_booking`, `subscribe_notifications`, initials |
| json.dfy | `Json` | how serde writes a JSON string, and reading it back |
| events.dfy | `Events` | the staff and public streams and their framing |
| dom.dfy | `Dom` | JavaScript values, truthiness, `String(v)`, `updateStatus` |
| html.dfy | `Html` | `escapeHtml` (admin.js and book.js) |
| admin_js.dfy | `AdminJs` | the staff pages' stream listener, `applyPayload`, both upserts |
| status_js.dfy | `StatusJs` | the status page's listener |
| book_js.dfy | `BookJs` | `formatAddress`, `formatSecondary`, `searchAddress` and its guards |
| app_js.dfy | `AppJs` | `urlBase64ToUint8Array`, the notification toggle, the booking submit step |

## Model

| member | source | states |
|---|---|---|
| State.EnabledIffKeysPresent | src/state.rs:22-24 | push is enabled iff both VAPID keys are non-blank after trimming; the subject never matters |
| State.FromRow | src/state.rs:45-63 | the event carries the given kind and `Some(row.id)`, and the six required fields are always present |
| State.FromRowLosesOnlyRequestedAt | src/state.rs:45-63 | the row can be rebuilt from its event and its `requested_at`: every other column is carried unchanged |
| State.AppState.constructor | src/state.rs:8-12 | a fresh state is empty, online and satisfies the state invariant |
| Forms.ErrorsMembership | src/routes/public.rs:209-224 | a message is reported iff some check with that message fails: every check runs, none stops the others |
| Forms.ErrorsEmpty | src/routes/public.rs:226 | the error list is empty iff no check fails |
| Forms.PushFailures | src/routes/admin.rs:447-456 | running the checks in order, pushing each failing check's message, yields exactly the reported error list |
| Forms.ErrorsReportEachCheck | src/routes/admin.rs:447-467 | with distinct messages, each check's message is reported exactly when that check fails |
| Db.UrlPath | src/db.rs:16-28 | no path unless the URL starts with "sqlite:"; "sqlite://" is stripped in preference to "sqlite:"; the path ends before the first '?' |
| Db.QueryIgnored | src/db.rs:28 | the query string never reaches the path |
| Db.MemoryCreatesNothing | src/db.rs:29-31 | an in-memory database creates no directory |
| Db.EmptyPathCreatesNothing | src/db.rs:29-31 | an empty path creates no directory |
| Db.FilePrefixDropped | src/db.rs:33-36 | a "file:" path creates exactly its parent directory |
| Db.ParentOfJoin | src/db.rs:33-36 | the parent of `dir/name` is `dir` |
| Db.EnsureSqliteDir | src/db.rs:15-39 | a directory is created only for a sqlite URL with a real file path |
| Db.FetchAppointmentEvent | src/db.rs:68-86 | a row comes back iff the store answers and the id exists; it is that record with the assigned barber's name joined in |
| Db.JoinedName | src/db.rs:68-86 | the barber's name is found only for an id that some user has |
| Db.SeedTwice | src/db.rs:88-125 | seeding an admin twice is seeding once, and leaves at least one and at most one more user of the role |
| Db.SeedAdmin | src/db.rs:88-125 | the admin is inserted only when none exists; the seed fails, inserting nothing, when the store is offline, when hashing ADMIN_PASSWORD (default "admin") fails, or on an id clash |
| Db.CountRoleAppend | src/db.rs:89-98 | appending a user raises its role's count by one and no other count |
| Db.SeededCmsKeeps | src/db.rs:149-156 | seeding keeps every existing block unchanged, adds every seed key, and adds nothing else |
| Db.SeededCmsIdempotent | src/db.rs:149-156 | seeding the blocks again changes nothing |
| Db.SeededAllPresent | src/db.rs:149-156 | when every seed key exists, seeding is a no-op |
| Db.SeedCms | src/db.rs:127-202 | the blocks become the seeded blocks; a barber is added only when SEED_BARBER is "true" and none exists; a failed hash of BARBER_PASSWORD (default "change-me") fails the seed after the blocks and adds no barber |
| Push.UpsertSpec | src/push.rs:45-59 | after an upsert exactly one row has the pair; an existing row keeps its id and takes the new keys; a new pair adds one row; other rows are untouched |
| Push.ResubmitReplacesKeys | src/push.rs:45-51 | resubmitting an endpoint replaces its keys and leaves one row for the pair |
| Push.StoreSubscription | src/push.rs:32-62 | an unparseable subscription writes nothing and still succeeds; otherwise the table becomes the upserted table |
| Push.SubscriptionsFor | src/push.rs:75-81 | a row is selected iff it belongs to the appointment |
| Push.NotificationPayload | src/push.rs:87-91 | the url defaults to "/" |
| Push.DeliverAll | src/push.rs:94-98 | one attempt is logged per row, in order, to that row's endpoint, and a failed attempt does not stop the loop; each attempt records the number of events already published |
| Push.NotifyAppointment | src/push.rs:64-99 | nothing is attempted when push is disabled; otherwise one attempt per subscription of the appointment, all made with the event log as it stands |
| Push.NoSubscriptionsNoAttempt | src/push.rs:83-85 | with no subscriptions nothing is attempted |
| Auth.FindActive | src/auth.rs:63-67 | only an active user with that username is found, and the first one |
| Auth.AuthenticateCredentials | src/auth.rs:57-89 | a user is returned iff the store answers, an active user has the name and the password verifies against that user's hash |
| Auth.InactiveNeverAuthenticates | src/auth.rs:63-67 | a username held only by inactive users never authenticates |
| Auth.Gatekeep | src/auth.rs:91-134 | the basic gate admits any user; the admin gate only admins; the barber gate only barbers; each refusal has its message |
| Auth.RoleGatesAreDisjoint | src/auth.rs:104-134 | no user passes both the admin and the barber gate, and every user passes the basic gate |
| Auth.Request.constructor | src/auth.rs:91-102 | a request starts with no authenticated user |
| Auth.Validate | src/auth.rs:91-134 | the verdict is the gate applied to the authenticated user; the user is attached to the request only on admission |
| Auth.LoggedOutWhateverValue | src/auth.rs:164-166 | the logout cookie logs out whatever its value, and its absence does not |
| Auth.LogoutGuard | src/auth.rs:168-230 | the next handler runs iff not logged out; the login link leads back to the barber or the admin dashboard by the path |
| Barber.StatusDecision | src/routes/barber.rs:188-215 | an unknown status is refused first, then a missing row, then a row held by another barber; accepting claims the row, any other status keeps its barber |
| Barber.NeverReassigns | src/routes/barber.rs:206-215 | a write never moves an appointment from one barber to a different one |
| Barber.ClaimExcludesOthers | src/routes/barber.rs:206-215 | after one barber accepts, another barber's update of that row is refused |
| Barber.UpdateStatus | src/routes/barber.rs:179-253 | on a write only that row's status and barber change, the clients are notified, and the re-read row is published; every push attempt is made while the event log still has its old length, so before the publication; every refusal leaves the whole state unchanged |
| Barber.ListFor | src/routes/barber.rs:154-168 | a row is listed iff it is the barber's, or pending and unassigned |
| Barber.ListedRowsAreEditable | src/routes/barber.rs:206-209 | every listed row is one the barber may update |
| Barber.AcceptedRowListedOnlyForClaimer | src/routes/barber.rs:161 | an accepted row is listed for its claimer only |
| Barber.ToView | src/routes/barber.rs:255-273 | missing email and notes read ""; the has-flags hold iff the trimmed value is non-empty |
| Admin.FormBarber | src/routes/admin.rs:361-367 | a blank barber id clears the assignment; any other is stored trimmed |
| Admin.AdminEdit | src/routes/admin.rs:360-398 | the status is written verbatim, the barber as the form gives it, the schedule only when non-blank and then trimmed; nothing else changes |
| Admin.AdminMayReassign | src/routes/admin.rs:361-367 | unlike the barber path, the admin can move an appointment to another barber |
| Admin.UpdateAppointment | src/routes/admin.rs:352-428 | an unknown id writes and publishes nothing but still redirects; a known id gets the admin edit, is notified, then published: every push attempt is made before the new event |
| Admin.Utf8LengthAscii | src/routes/admin.rs:453 | the password length counts bytes, which for ASCII is the character count |
| Admin.BarberFormErrorsSpec | src/routes/admin.rs:447-467 | the three checks run independently and report in order |
| Admin.CheckBarberForm | src/routes/admin.rs:447-456 | the error list is the one the three checks (blank username, blank display name, trimmed password under 6 bytes) give, in that order |
| Admin.CreateBarber | src/routes/admin.rs:441-514 | the form's errors are answered iff there are some, and then nothing is inserted; a hash failure iff the form is valid and hashing fails; an insert failure iff the form is valid, the hash exists and the store is offline or the id taken; otherwise one active barber is added |
| Admin.SelectBarber | src/routes/admin.rs:321-324 | a barber is selected iff its id is the appointment's barber; with unique ids at most one is |
| Admin.StatusOptions | src/routes/admin.rs:325-342 | the four statuses in order; at most one is selected, and one is iff the status is one of them |
| Admin.ToView | src/routes/admin.rs:677-697 | a missing barber reads "Unassigned" with id ""; the has-flags hold iff the trimmed value is non-empty |
| Admin.AppointmentDetail | src/routes/admin.rs:294-349 | not found iff the fetch finds nothing; otherwise the view, the status options, and the fetched barbers and admins with exactly the assigned one selected |
| Admin.FetchBarbersMembers | src/routes/admin.rs:655-675 | the admin's barber list holds exactly the users whose role is barber or admin, active or not, none selected |
| Public.LoginRedirect | src/routes/public.rs:141-159 | `next` is honoured only when it starts with "/" and the role's area; otherwise the role's dashboard |
| Public.RedirectStaysInArea | src/routes/public.rs:141-159 | an admin always lands under /admin, anyone else under /barber |
| Public.LogoutLinkLeadsBack | src/routes/public.rs:141-159 | the login link the logout guard gives brings the right role back to its own dashboard |
| Public.Login | src/routes/public.rs:123-166 | no credentials challenge; good credentials redirect as above; bad ones challenge |
| Public.WordStarts | src/routes/public.rs:411-415 | the positions are exactly the starts of the whitespace-separated words, in order |
| Public.Initials | src/routes/public.rs:411-419 | the initials are the upper-cased first characters of at most the first two words |
| Public.InitialsOfTwoWords | src/routes/public.rs:411-419 | two words give their two upper-cased first letters, whatever follows |
| Public.BlankNameNoInitials | src/routes/public.rs:411-419 | a blank name has no initials |
| Public.FetchBarbersMembers | src/routes/public.rs:401-424 | the public barber list holds exactly the active barbers, each with the initials of its display name; admins and inactive barbers are never offered |
| Public.BookingErrorsSpec | src/routes/public.rs:209-224 | each of the five blank fields adds its own message, in fixed order |
| Public.CheckBooking | src/routes/public.rs:209-224 | the error list is the one the five checks give |
| Public.SelectService | src/routes/public.rs:227-230 | a service is selected iff it is the submitted one |
| Public.SelectPreferred | src/routes/public.rs:231-235 | a barber is selected iff it is the preferred one |
| Public.PreferredBarber | src/routes/public.rs:254-263 | a blank preferred barber means none, otherwise the trimmed id |
| Public.PreferredBarberAsAdminForm | src/routes/public.rs:254-263 | the booking and the admin form read a barber id the same way |
| Public.NewAppointmentIsPending | src/routes/public.rs:252-293 | a new appointment is always pending and requested now, carries the form's fields, and is assigned to the trimmed preferred barber unless that is blank |
| Public.RejectBooking | src/routes/public.rs:226-250 | a rejected booking echoes the submitted values and the errors |
| Public.AnnounceBooking | src/routes/public.rs:304-325 | a non-blank subscription is stored (the table becomes `BookingSubscriptions`) and notified; every push attempt is made before the event is published |
| Public.BookingSubscriptionsSpec | src/routes/public.rs:304-311 | storing a booking's subscription keeps the table well formed and changes it only to hold the submitted pair with its keys, after a non-blank field that parses |
| Public.CreateBooking | src/routes/public.rs:204-331 | any error inserts nothing and re-renders with the active barbers, the preference selected; otherwise one pending appointment is added under the new id, the subscription stored, the clients notified, and only then the row published |
| Public.InsertBooking | src/routes/public.rs:273-325 | the insert adds the row under its id, then stores and notifies, and publishes the row with its barber's name after every push attempt |
| Public.SubscribeNotifications | src/routes/public.rs:364-394 | an unknown id is NotFound and a blank body BadRequest, both before any write; otherwise the subscription is upserted when the body parses and the upsert succeeds, and the table is left as it was when either fails (the store's error is ignored) |
| Json.HexRoundTrip | src/routes/events.rs:42-45 | a hex digit reads back as its value |
| Json.EscapeChar | src/routes/events.rs:42-45 | an escaped character holds no control character |
| Json.UnescapeEscape | src/routes/events.rs:42-45 | a JSON string reads back as the original text |
| Events.UnframeFrame | src/routes/events.rs:42-45 | a frame carries its JSON, or "{}" when serialization failed |
| Events.FrameIsOneEvent | src/routes/events.rs:42-45 | a frame is "event: update", one data line and a blank line |
| Events.EventJsonIsOneLine | src/routes/events.rs:42-45 | a staff event's JSON has no newline, so it fits one data line |
| Events.PublicJsonIsOneLine | src/routes/events.rs:86-89 | a public event's JSON has no newline |
| Events.StaffEventsMembers | src/routes/events.rs:29-40 | every delivered event is forwarded, and nothing else |
| Events.LagDoesNotEndStream | src/routes/events.rs:31-34 | a lag notice emits nothing and the stream goes on |
| Events.StaffSeesEverything | src/routes/events.rs:29-40 | without lag the staff stream is exactly what was published |
| Events.PublicEvents | src/routes/events.rs:56-84 | every event passed is of the requested appointment |
| Events.PublicEventsMembers | src/routes/events.rs:56-84 | exactly the delivered events of the requested appointment pass, each reduced to five fields |
| Events.PublicIsNarrowedStaff | src/routes/events.rs:67-76 | the public stream is the staff stream narrowed to the appointment and projected |
| Dom.UpdateStatus | static/js/admin.js:114-119 | the loop leaves the element as the status update specifies |
| Dom.OnlyStatusClass | static/js/admin.js:114-119 | after an update the element shows the status and carries it as its only status class; other classes are kept |
| Dom.FalsyStatusIsNoOp | static/js/status.js:44-45 | an empty status changes nothing |
| Dom.StatusUpdateIdempotent | static/js/status.js:44-49 | updating twice to a status is updating once |
| Html.EscapeHtmlIsEscapeEach | static/js/admin.js:560-567 | the five chained replacements escape each character exactly once, because `&` goes first |
| Html.NoRawMarkup | static/js/book.js:222-229 | escaped text holds no `<`, `>`, `"` or `'` |
| Html.EscapeHtmlRoundTrip | static/js/admin.js:560-567 | decoding the entities gives back the original text |
| AdminJs.Accept | static/js/admin.js:12-21 | a payload is used iff it parses to an object with a truthy appointment id |
| AdminJs.ApplyPayload | static/js/admin.js:73-112 | the element becomes the applied payload: dataset, then the field pass, then the badges |
| AdminJs.FieldRule | static/js/admin.js:87-105 | a null, absent or empty value keeps the field, except the barber name, which reads "Unassigned"; other values are shown |
| AdminJs.BadgesAgree | static/js/admin.js:74-111 | with a status, every status field and badge shows it as its only status class, and the dataset records it |
| AdminJs.AppliedIdempotent | static/js/admin.js:73-112 | the same event applied twice leaves the element as once |
| AdminJs.AppliedKeepsId | static/js/admin.js:73-112 | applying a payload never changes the element's appointment id |
| AdminJs.AdminRemovesFilteredOut | static/js/admin.js:131-137 | a row whose status leaves the filter disappears, and every other row stays |
| AdminJs.AdminPrependsWhenShown | static/js/admin.js:143-146 | an absent row is prepended iff the list is unfiltered or the status is the filter |
| AdminJs.AdminLeavesOthers | static/js/admin.js:121-149 | rows of other appointments survive an upsert |
| AdminJs.AdminUpsertKeepsInvariants | static/js/admin.js:121-149 | the list keeps unique ids and a filtered list shows only its status |
| AdminJs.AdminList.Upsert | static/js/admin.js:121-149 | the list becomes the upserted list and keeps its invariants |
| AdminJs.BarberCardIffShown | static/js/admin.js:188-219 | after an upsert the stack holds the card iff it is pending and unassigned or assigned to this barber |
| AdminJs.BarberUpsertKeepsUniqueIds | static/js/admin.js:188-219 | an upsert keeps the stack's appointment ids unique, so upserts can follow one another |
| AdminJs.BarberStack.Upsert | static/js/admin.js:188-219 | the stack becomes the upserted stack, keeps its ids unique, and holds the card iff it shows it |
| AdminJs.ShowsCardIffListed | static/js/admin.js:194-198 | the page shows a card for an event iff the server lists the row for that barber |
| StatusJs.StatusPage.OnUpdate | static/js/status.js:9-40 | an unparseable payload or one for another appointment changes nothing; otherwise every field is merged |
| StatusJs.FieldMergeRule | static/js/status.js:18-32 | a missing barber name reads "Unassigned"; other empty fields keep their text; values are shown |
| StatusJs.MergeAgreesWithAdmin | static/js/status.js:18-38 | on server payloads the status page and the staff pages merge fields alike |
| StatusJs.MergeDiffersOnFalse | static/js/status.js:26-28 | a `false` barber name reads "Unassigned" here but "false" on the staff pages |
| StatusJs.PublicEventsReachThePage | static/js/status.js:16-38 | every event of the appointment's public stream passes the guard and shows its status |
| BookJs.FirstOf | static/js/book.js:190-197 | the chain is empty iff every part is; otherwise it is the part of the first key whose part is non-empty |
| BookJs.RoadFallback | static/js/book.js:190-192 | the road falls back to pedestrian, footway, then path |
| BookJs.LocalityFallback | static/js/book.js:193-197 | the locality is city, else town, else village, else municipality, else county, and empty iff all five are |
| BookJs.RoadLeads | static/js/book.js:199-204 | a road leads the address, then the house number and the locality when present |
| BookJs.AmenityStandsIn | static/js/book.js:199-204 | without a road the amenity takes its place |
| BookJs.NameThenDisplayName | static/js/book.js:199-204 | without either the name is the line; without a name the display name is the whole address |
| BookJs.FormatSecondary | static/js/book.js:207-220 | the secondary line is empty iff neither neighbourhood nor locality exists |
| BookJs.SecondaryJoinsBoth | static/js/book.js:207-220 | with both, they are joined by ", " |
| BookJs.Render | static/js/book.js:154-160 | the list opens iff the results are a non-empty list |
| BookJs.AddressSearch.OnInput | static/js/book.js:92-104 | typing stops auto-fill; a trimmed query shorter than two closes the list and schedules nothing |
| BookJs.AddressSearch.Search | static/js/book.js:112-152 | a cached lower-case query renders without fetching; a miss fetches once and caches what it receives |
| AppJs.PaddedLength | static/js/app.js:188 | the padding brings the length to a multiple of four, with fewer than four '=' |
| AppJs.ToStandardEach | static/js/app.js:189-191 | '-' and '_' become '+' and '/', mapping the base64url alphabet of RFC 4648 onto the standard one |
| AppJs.UrlBase64RoundTrip | static/js/app.js:187-194 | decoding the unpadded base64url text of any bytes gives back those bytes |
| AppJs.OneOverIsRejected | static/js/app.js:188-192 | a text one character past a multiple of four is rejected |
| AppJs.DecodeSextets | static/js/app.js:192-193 | every decoded value is a byte, three for every four characters |
| AppJs.ToggleStates | static/js/app.js:119-146 | enabled iff supported, granted and subscribed (and posted); blocked iff unsupported, denied or failing; idle otherwise |
| AppJs.Toggle.SetState | static/js/app.js:94-108 | the indicator has "on" iff enabled and "blocked" iff blocked, other classes kept |
| AppJs.Toggle.RefreshState | static/js/app.js:110-146 | the page shows the refresh decision, after posting an existing subscription when there is a URL |
| AppJs.ClickStates | static/js/app.js:150-183 | a click enables iff supported, not denied, granted and subscribed; it never leaves the toggle idle |
| AppJs.ClickThenRefreshAgree | static/js/app.js:119-183 | a click that enabled notifications is confirmed by the next page load |
| AppJs.Toggle.Click | static/js/app.js:150-183 | without an appointment id nothing happens; otherwise the click decision is shown after posting the subscription |
| AppJs.BookingSubmit.OnSubmit | static/js/app.js:28-68 | the form is held back iff the listener was installed (form and VAPID key present), no submission is under way, the hidden field exists and is empty, and push exists; it is then always submitted |

## Left out

- I/O and foreign code are parameters or left out: SQL execution and migrations, argon2 hashing (a verify predicate), uuid and the clock (`newId`, `now`), VAPID signing and the web-push transport (an outcome per attempt), `JSON.parse` and `serde_json::from_str` (an optional parsed value), and the Nominatim fetch (a `Fetched` outcome).
- A store that fails some queries and answers others is not modelled: one `online` flag answers all queries or fails all of them.
- Concurrency is left out: the broadcast channel's capacity and which messages lag, the actix runtime, the debounce timer and `AbortController`. The barber claim is a read and then a write. The model states the sequential outcome only and claims nothing about two barbers racing.
- Floating point is left out: latitude and longitude are carried as reals, and their JSON text comes from a `number` parameter. `toFixed`, ryu formatting and the map code are not modelled.
- `ORDER BY` is not modelled: listings keep table order.
- Text is modelled as sequences of characters. Case mapping is ASCII only. JavaScript's UTF-16 code units are not distinguished from characters.
- DOM construction is not modelled: the children `buildAdminRow` and `buildBarberCard` make are a `built` parameter. `toggleEmptyState`, `scheduleMapSync`, the suggestion markup, the menus, cms.js and sw.js are also left out.
- Elements are values in the model, so DOM node identity and aliasing are not captured. `updateExistingAppointments` (static/js/admin.js:66-71) applies a payload to every element with the id and is not modelled separately.
- `classList.add` throwing on a status that contains whitespace is not modelled.
- Db.ParentDir: `Path` component normalisation is not modelled. A "." component is kept, so the parent of "a/./b" is "a/." rather than "a"; both name the same directory.
- The click handler used when no VAPID key is configured (static/js/app.js:72-86) is not modelled. It only sets fixed texts.
- Dashboards, statistics, `log_activity`, the CMS editor and templates are left out.
- Admin.Utf8Length: counts the bytes of each character's UTF-8 encoding, and surrogate code points are not distinguished.

Where the code and the intended design differ, the model follows the code:

- The barber claim has no compare-and-set (src/routes/barber.rs:193-223).
- A barber's decline keeps the assignment, so "assigned ⇒ accepted or completed" is not an invariant.
- A booking may assign a barber at creation (src/routes/public.rs:254-263).
- The push notification is awaited before the event is published. Each push attempt records how many events were already out, and the handlers that publish state that all their attempts were made before their event.
- The admin path checks neither the status nor whether the appointment exists.
- The barber password length counts UTF-8 bytes (`len()`), not characters.
- The status page and the staff pages treat a falsy, non-string barber name differently (see `StatusJs.MergeDiffersOnFalse`).
