# TNSTC Cargo logistics app — a Dafny model of its screen logic

TNSTC Cargo is a React Native front end for a state-transport courier service.
Customers book parcels that travel on buses between bus stands, track them by
their RWB number and look back over their history. Administrators manage the
pickup points, the bus assignments, the user log and the system settings.
All data is mock data. The logic worth modelling lives in the screens' event
handlers. They are small, sequential rules over records, lists of records and
strings.

This project models those rules, one module per source file:

- **Booking** (`new-booking.tsx`): the ten-field booking draft, the three
  per-step validators, and the next, back and submit transitions. It also
  covers the drop-point option list and the RWB display id. The screen's state
  is the class `BookingWizard`. Its handlers are proved equal to pure
  transition functions. Those functions are proved to keep the step in 1..3
  under the screen's render guards.
- **PickupPoints** and **BusAssignment** (`pickup-points.tsx`,
  `bus-assignment.tsx`): lists of records updated by id (append, replace,
  remove, flip a flag, set a status) and the header statistics. Each screen is
  a class holding a `seq`.
- **UserLogs** and **History** (`user-logs.tsx`, `history.tsx`): case-insensitive
  substring search combined with a keyed filter tab, plus the statistics and
  the empty-state choice.
- **Tracking** (`tracking.tsx`): the two-record demo lookup, the status colour,
  and the choice between the result card, "not found" and the instructions.
- **Settings** (`settings.tsx`): three records of named settings, a per-field
  toggle, and the "section.setting" edit/save path.
- **Auth**, **LoginScreen**, **Dashboard**, **Header** (`AuthContext.tsx`,
  `index.tsx`, `dashboard.tsx`, `Header.tsx`):
  - the credential check and the signed-in user;
  - the empty-field guard and the navigation after login;
  - the role-based dashboard and menu;
  - the status translation key.
- **Wrappers**, **Strings**, **Seqs**: shared helpers.
  - an `Option` type;
  - ASCII case mapping, substring search and decimal text;
  - `filter`, `map`, counts and sums over sequences, with their lemmas.

A few conventions hold throughout:

- Navigation (`router.push`/`replace`) is recorded in a ghost sequence of routes.
- Alerts appear only as return values (`LoginFeedback`, `HandleAddPoint`'s `added`).
- The clock is a parameter.

### Behaviour worth knowing

- `nextStep` (`new-booking.tsx:92-98`) increments the step without a cap. The
  step stays within 1..3 because the Next button is not rendered at step 3
  (`new-booking.tsx:367`). The model makes that guard `HandleNextStep`'s
  precondition and proves the bound for every run of offered actions
  (`Booking.RunKeepsStepInRange`).
- The Done button (`new-booking.tsx:514-517`) only hides the confirmation; the
  draft's fields keep their values. `HandleDismissConfirmation` does the same.
- Pickup-point ids are `length + 1`. After a delete this can repeat an id that
  is still in the list (`PickupPoints.AddAfterDeleteRepeatsId`). The code
  guarantees no uniqueness, and the model claims none.

## Model

| member | source | states |
|---|---|---|
| Booking.SetField | project/app/new-booking.tsx:75-77 | the named field takes the new value; every other field keeps its value |
| Booking.Step1Iff | project/app/new-booking.tsx:79-82 | step 1 validates iff pickup and drop point are both non-empty and differ |
| Booking.Steps2And3Iff | project/app/new-booking.tsx:83-86 | step 2 validates iff category, type, weight and description are all non-empty; step 3 iff the three receiver fields are |
| Booking.OtherStepsFail | project/app/new-booking.tsx:87-88 | any step number other than 1, 2, 3 fails validation |
| Booking.ValidationReadsOwnFields | project/app/new-booking.tsx:79-90 | changing a field of another step, or the volume, never changes a step's validation (the volume is checked by no step) |
| Booking.NextStep | project/app/new-booking.tsx:92-98 | when the current step validates the step rises by exactly one; otherwise nothing changes; the draft is never touched |
| Booking.PrevStep | project/app/new-booking.tsx:100-102 | the step drops by one with no validation; nothing else changes |
| Booking.GenerateRwb | project/app/new-booking.tsx:104-107 | "RWB" followed by the last (up to) six characters of the timestamp's decimal text, so exactly 3 + min(digits, 6) characters; 9 characters ending in six digits once the timestamp is at least 100000 |
| Booking.Submit | project/app/new-booking.tsx:109-117 | when step 3 validates, records the generated id and shows the confirmation; otherwise nothing changes |
| Booking.SubmitRechecksStep3Only | project/app/new-booking.tsx:109-111 | a draft with no route chosen but the receiver filled in still submits: only step 3 is re-checked |
| Booking.ApplyKeepsStepInRange | project/app/new-booking.tsx:361-381 | under the render guards (Back when step > 1, Next when step < 3, Create Booking otherwise, inputs on their own step) one action keeps the step in 1..3 |
| Booking.RunKeepsStepInRange | project/app/new-booking.tsx:33-102 | starting in 1..3 (the wizard starts at 1), any sequence of actions keeps the step in 1..3 |
| Booking.ApplyKeepsStepsPassed | project/app/new-booking.tsx:239-357 | under the render guards (a field's input only on its own step's form) one action keeps the step in 1..3 and every earlier step valid |
| Booking.RunKeepsStepsPassed | project/app/new-booking.tsx:33-357 | any sequence of offered actions keeps the step in 1..3 with every earlier step valid |
| Booking.SubmittedBookingPassedEveryStep | project/app/new-booking.tsx:92-117 | after any run from the initial screen, Create Booking shows the confirmation exactly when it was shown already or all three steps validate; a draft failing step 1 or 2 is never submitted |
| Booking.RunWithoutInputKeepsDraft | project/app/new-booking.tsx:92-117 | a sequence of Next, Back, Submit and Done presses never changes the draft |
| Booking.DropOptions | project/app/new-booking.tsx:419 | the drop-point list is the drop points without the selected pickup point, in order, each as many times as in the list; the pickup point is never offered |
| Booking.DropFromOptionsPassesStep1 | project/app/new-booking.tsx:419 | a drop point picked from that list after choosing a pickup point makes step 1 validate, provided every drop point has a name |
| Booking.DropPointsNamed | project/app/new-booking.tsx:52-61 | every drop point of the app has a non-empty name |
| Booking.BookingWizard.constructor | project/app/new-booking.tsx:20-39 | empty draft, step 1, no id, confirmation hidden |
| Booking.BookingWizard.HandleInputChange | project/app/new-booking.tsx:75-77 | only the named draft field changes; callable only on that field's step, and the earlier steps stay valid |
| Booking.BookingWizard.HandleNextStep | project/app/new-booking.tsx:92-98 | the new state is NextStep of the old one; callable only while step < 3 |
| Booking.BookingWizard.HandlePrevStep | project/app/new-booking.tsx:100-102 | the new state is PrevStep of the old one; callable only while step > 1 |
| Booking.BookingWizard.HandleBookingSubmit | project/app/new-booking.tsx:109-117 | the new state is Submit of the old one with the given timestamp; callable only at step 3; a submit that passes step 3 shows the confirmation with steps 1 and 2 valid too |
| Booking.BookingWizard.HandleDismissConfirmation | project/app/new-booking.tsx:514-517 | only the confirmation is hidden |
| PickupPoints.AddPoint | project/app/pickup-points.tsx:75-88 | an incomplete form leaves the list unchanged; a complete one appends one active point with id = old length + 1, no routes and the entered fields, keeping the earlier entries |
| PickupPoints.UpdatePoint | project/app/pickup-points.tsx:99-104 | with no selection nothing changes; otherwise every entry with the selected id becomes the selected point, the others stay, the length is kept |
| PickupPoints.DeletePoint | project/app/pickup-points.tsx:119 | exactly the entries with the id are removed; the rest keep their order |
| PickupPoints.TogglePoint | project/app/pickup-points.tsx:127-131 | `active` flips on the entries with the id; nothing else changes |
| PickupPoints.ToggleTwice | project/app/pickup-points.tsx:127-131 | toggling the same id twice restores the list |
| PickupPoints.ActiveCount | project/app/pickup-points.tsx:140 | the active-point count is at most the number of points |
| PickupPoints.TotalRoutes | project/app/pickup-points.tsx:148 | the total routes is the sum of the points' routes; when none is negative it is non-negative and at least each point's routes |
| PickupPoints.AddPointStats | project/app/pickup-points.tsx:81-88 | a successful add raises the active count by one and keeps the total routes |
| PickupPoints.ToggleKeepsRoutes | project/app/pickup-points.tsx:148 | a toggle never changes the total routes |
| PickupPoints.AddAfterDeleteRepeatsId | project/app/pickup-points.tsx:82 | after deleting a point that is not last, adding one reuses the id of the last point still in the list |
| PickupPoints.WithCode | project/app/pickup-points.tsx:257 | the code field holds the typed text upper-cased, equal to it up to case; the other fields are kept |
| PickupPoints.PickupPointsScreen.constructor | project/app/pickup-points.tsx:19-73 | the five initial points, an empty form, no selection |
| PickupPoints.PickupPointsScreen.HandleAddPoint | project/app/pickup-points.tsx:75-92 | reports whether the form was complete; the list becomes AddPoint of the old list; the form is reset only after a successful add |
| PickupPoints.PickupPointsScreen.HandleEditPoint | project/app/pickup-points.tsx:94-97 | the point becomes the selection; the list is unchanged |
| PickupPoints.PickupPointsScreen.HandleUpdatePoint | project/app/pickup-points.tsx:99-107 | the list becomes UpdatePoint of the old list and selection |
| PickupPoints.PickupPointsScreen.ConfirmDeletePoint | project/app/pickup-points.tsx:118-120 | the list becomes DeletePoint of the old list |
| PickupPoints.PickupPointsScreen.TogglePointStatus | project/app/pickup-points.tsx:127-131 | the list becomes TogglePoint of the old list |
| PickupPoints.PickupPointsScreen.ChangeNewPointCode | project/app/pickup-points.tsx:257 | the add form's code becomes the typed text upper-cased |
| PickupPoints.WithFormText | project/app/pickup-points.tsx:247-279 | the add form's name, address or phone input takes the typed text as is; the other inputs and the code are kept |
| PickupPoints.WithPointText | project/app/pickup-points.tsx:328-360 | the selected point's name, address or phone takes the typed text; the other texts, id, code, status and routes are kept |
| PickupPoints.FilledFormAdds | project/app/pickup-points.tsx:75-88 | typing the four inputs of an empty form gives a complete form iff none was left empty, and adding it appends a point with those values and the upper-cased code |
| PickupPoints.PickupPointsScreen.ChangeNewPointText | project/app/pickup-points.tsx:247-279 | the add form becomes WithFormText of the old form; list and selection are kept |
| PickupPoints.PickupPointsScreen.ChangeSelectedText | project/app/pickup-points.tsx:328-360 | the selection becomes WithPointText of the old selection; list and add form are kept |
| PickupPoints.PickupPointsScreen.ChangeSelectedCode | project/app/pickup-points.tsx:338 | the selected point's code becomes the typed text upper-cased |
| BusAssignment.StatusColor | project/app/bus-assignment.tsx:87-98 | gray exactly for strings that are not one of the three status names |
| BusAssignment.StatusColorsDistinct | project/app/bus-assignment.tsx:87-98 | the three statuses get three different colours |
| BusAssignment.ReplaceFirstSpec | project/app/bus-assignment.tsx:177 | `replace` with a string pattern changes only the first occurrence and keeps the length |
| BusAssignment.StatusLabelSpec | project/app/bus-assignment.tsx:177 | the label upper-cases the first character and turns only the first '-' after it into a space |
| BusAssignment.InTransitLabel | project/app/bus-assignment.tsx:177 | 'in-transit' is shown as "In transit" |
| BusAssignment.ScheduledLabel | project/app/bus-assignment.tsx:177 | 'scheduled' is shown as "Scheduled" |
| BusAssignment.CompletedLabel | project/app/bus-assignment.tsx:177 | 'completed' is shown as "Completed" |
| BusAssignment.OfferedTransitionsMoveForward | project/app/bus-assignment.tsx:226-242 | a button is offered iff the status is not completed; it leads scheduled to in-transit and in-transit to completed |
| BusAssignment.UpdateStatus | project/app/bus-assignment.tsx:131-134 | only the status of the entries with the id changes; other fields and entries are kept, and so is the length |
| BusAssignment.StatusCountsBounded | project/app/bus-assignment.tsx:145-149 | scheduled count plus in-transit count is at most the number of assignments |
| BusAssignment.UpdateStatusKeepsPackages | project/app/bus-assignment.tsx:153 | a status update never changes the total packages |
| BusAssignment.BusAssignmentScreen.constructor | project/app/bus-assignment.tsx:20-85 | the four initial assignments, no selection |
| BusAssignment.BusAssignmentScreen.HandleEditAssignment | project/app/bus-assignment.tsx:126-129 | the assignment becomes the selection; the list is unchanged |
| BusAssignment.BusAssignmentScreen.HandleUpdateStatus | project/app/bus-assignment.tsx:131-134 | the list becomes UpdateStatus of the old list |
| BusAssignment.BusAssignmentScreen.PressTransition | project/app/bus-assignment.tsx:226-242 | pressing a card's button moves that card to the offered next status |
| BusAssignment.BusAssignmentScreen.SaveAssignment | project/app/bus-assignment.tsx:308-313 | no assignment changes |
| UserLogs.FilteredUsers | project/app/user-logs.tsx:96-106 | a subsequence of the users, in order, holding exactly those matching both the search and the filter, each as many times as in the input |
| UserLogs.EmptyQueryMatchesAll | project/app/user-logs.tsx:97-99 | the empty query matches every user |
| UserLogs.EmptyQueryAllListsEveryone | project/app/user-logs.tsx:96-106 | with no query and filter 'all' every user is listed |
| UserLogs.NameOrEmailIgnoresCase | project/app/user-logs.tsx:97-98 | name and e-mail matching does not depend on the query's case |
| UserLogs.PhoneMatchIsCaseSensitive | project/app/user-logs.tsx:99 | phone matching is raw: "AB" finds a phone containing "AB", "ab" does not |
| UserLogs.FilterKeys | project/app/user-logs.tsx:101-105 | filter 'all' keeps exactly the search matches; an unknown key keeps none |
| UserLogs.CustomersAndReceiversSplit | project/app/user-logs.tsx:102-103 | 'customers' and 'receivers' split the search matches between them, with no user in both |
| UserLogs.UserStats | project/app/user-logs.tsx:149-161 | customers plus receivers equal the total; active users are at most the total |
| History.FilteredHistory | project/app/history.tsx:110-122 | a subsequence of the history, in order, holding exactly the items matching both the search and the tab, each as many times as in the input |
| History.SearchIgnoresCase | project/app/history.tsx:111-114 | queries that agree up to case find the same items |
| History.AbsentPersonsNeverMatch | project/app/history.tsx:113-114 | an item with neither receiver nor sender is found only through its RWB or package type |
| History.ReturnedOnlyUnderDirectionTabs | project/app/history.tsx:116-120 | a returned item is listed only under 'all', 'sent' or 'received' |
| History.EmptyQueryAllListsEverything | project/app/history.tsx:110-122 | with no query on the 'all' tab every item is listed |
| History.HistoryStats | project/app/history.tsx:161-166 | total is the number of items; sent plus received equals the total; delivered is at most the total |
| History.PersonShown | project/app/history.tsx:276-281 | the receiver for a sent item, the sender for a received one |
| History.EmptyState | project/app/history.tsx:306-312 | the empty state shows iff nothing is listed, and its text depends only on whether a query was typed |
| History.NoEmptyStateOnFirstView | project/app/history.tsx:306-312 | a non-empty history shows no empty state before anything is typed on the 'all' tab |
| Tracking.Track | project/app/tracking.tsx:11-118 | the RWB001 record iff the lower-cased id contains "rwb001"; else the RWB002 record iff it contains "rwb002"; else nothing |
| Tracking.TrackIgnoresCase | project/app/tracking.tsx:13 | an id, its lower-case and its upper-case form find the same record |
| Tracking.TrackDemoSpellings | project/app/tracking.tsx:13 | 'RWB001', 'rwb001' and 'xRwB001y' all find RWB001 |
| Tracking.TrackBothIds | project/app/tracking.tsx:13-67 | any id holding both demo ids, case aside, finds RWB001, because that test comes first |
| Tracking.TrackBothIdsRwb002First | project/app/tracking.tsx:13-67 | "rwb002 rwb001" holds both ids and still finds RWB001 |
| Tracking.TrackEmpty | project/app/tracking.tsx:115-117 | the empty id finds nothing |
| Tracking.StatusColor | project/app/tracking.tsx:120-131 | delivered, in transit and booked, in any case, get #10B981, #F59E0B and #2563EB; gray exactly for every other status |
| Tracking.StatusColorIgnoresCase | project/app/tracking.tsx:120-131 | statuses equal up to case get the same colour |
| Tracking.StatusColorsDistinct | project/app/tracking.tsx:120-131 | the three known statuses get three different colours, none of them gray |
| Tracking.DemoStatusColors | project/app/tracking.tsx:120-131 | the records' own texts "In Transit" and "Delivered" get amber and green |
| Tracking.View | project/app/tracking.tsx:165-287 | the result card iff there is a result; otherwise "not found" iff an id was typed; otherwise the instructions |
| Tracking.ViewAfterTrack | project/app/tracking.tsx:165-287 | right after a lookup, the instructions show iff the id is empty, and "not found" iff a non-empty id holds neither demo id |
| Tracking.TrackingScreen.constructor | project/app/tracking.tsx:8-9 | no id, no result |
| Tracking.TrackingScreen.SetTrackingId | project/app/tracking.tsx:155 | only the id changes |
| Tracking.TrackingScreen.CurrentView | project/app/tracking.tsx:165-287 | the screen shows the result card for exactly the stored result, "not found" iff there is no result and the typed id is non-empty, the instructions iff there is no result and the id is empty |
| Tracking.TrackingScreen.HandleTrack | project/app/tracking.tsx:11-118 | the result becomes Track of the current id |
| Settings.Put | project/app/settings.tsx:37-52 | the spread with one computed key: that key takes the value, every other key keeps its value |
| Settings.Toggle | project/app/settings.tsx:34-55 | negates, by truthiness, exactly the named field of a known section; every other field and section is unchanged; an unknown section changes nothing |
| Settings.ToggleTwice | project/app/settings.tsx:37-52 | toggling a boolean field twice restores the settings |
| Settings.SplitEditKey | project/app/settings.tsx:57-64 | splitting "section.setting" on '.' gives back the section and the setting |
| Settings.ParseValue | project/app/settings.tsx:65-67 | a number exactly for numeric text (the empty text reads as 0), the raw text otherwise |
| Settings.ParseValueLeadingZero | project/app/settings.tsx:65-67 | a leading zero does not change the number read |
| Settings.ParseNumberText | project/app/settings.tsx:57-67 | a number's text, as seeded by the edit dialog, parses back to the same number |
| Settings.Save | project/app/settings.tsx:63-76 | writes the parsed value only under the edited key of 'system' or 'security'; notifications and every other key are untouched; any other section changes nothing |
| Settings.EditSaveRoundTrip | project/app/settings.tsx:57-76 | editing a numeric system or security setting and saving without typing leaves the settings as they were |
| Settings.EditTypeSave | project/app/settings.tsx:57-76 | edit, type, save stores the parsed text in exactly the edited field |
| Settings.SaveIgnoresNotifications | project/app/settings.tsx:69-76 | saving an edit key in the notifications section changes nothing |
| Settings.SettingsScreen.constructor | project/app/settings.tsx:7-32 | the initial values of the three records; no edit in progress |
| Settings.SettingsScreen.HandleToggle | project/app/settings.tsx:34-55 | the records become Toggle of the old ones |
| Settings.SettingsScreen.HandleEditSetting | project/app/settings.tsx:57-61 | records "section.setting" and seeds the temporary value with the current value as text |
| Settings.SettingsScreen.ChangeTempText | project/app/settings.tsx:291-295 | the typed text is stored under the edited setting's key |
| Settings.SettingsScreen.HandleSaveSetting | project/app/settings.tsx:63-78 | the records become Save of the old ones, the edit key and the temporary values |
| Auth.FindByEmail | project/contexts/AuthContext.tsx:56 | finds a user iff one has exactly that email; the one found has it and is the first in the list that does |
| Auth.LoginResult | project/contexts/AuthContext.tsx:56-57 | succeeds iff some dummy user has exactly the email and the password is "password", with that user |
| Auth.DummyUsersDistinct | project/contexts/AuthContext.tsx:29-44 | the dummy emails are distinct; there is exactly one customer and one admin |
| Auth.LoginPicksTheMatchingUser | project/contexts/AuthContext.tsx:56-58 | logging in with a dummy user's email and the demo password signs in that user |
| Auth.IsAdmin | project/components/Header.tsx:16 | nobody signed in is not an admin; otherwise admin iff the user's role is admin |
| Auth.SignedInAdminIsAdminAccount | project/app/dashboard.tsx:11 | of the demo accounts, the admin view is chosen exactly for admin@tnstc.com |
| Auth.LoginIsExact | project/contexts/AuthContext.tsx:56-57 | the email match is case-sensitive and the password must match exactly |
| Auth.AuthContext.constructor | project/contexts/AuthContext.tsx:47-48 | nobody signed in, not loading |
| Auth.AuthContext.Login | project/contexts/AuthContext.tsx:50-65 | returns true iff LoginResult succeeds; on success the user is that record, on failure the old user stays; never left loading |
| Auth.AuthContext.Logout | project/contexts/AuthContext.tsx:67-69 | the user is cleared |
| LoginScreen.DemoCredentialsAccepted | project/app/index.tsx:37-44 | the credentials filled in for a role always log in a user of that role |
| LoginScreen.LoginForm.constructor | project/app/index.tsx:18-19 | empty email and password, no navigation |
| LoginScreen.LoginForm.SetEmail | project/app/index.tsx:66 | the email becomes the typed text; password and navigation are kept |
| LoginScreen.LoginForm.SetPassword | project/app/index.tsx:79 | the password becomes the typed text; email and navigation are kept |
| LoginScreen.LoginForm.FillCredentials | project/app/index.tsx:37-44 | the role's demo email and the password "password" |
| LoginScreen.LoginForm.HandleLogin | project/app/index.tsx:23-35 | an empty field stops before login; otherwise navigation to /dashboard happens iff login succeeded, and the auth state is login's |
| Dashboard.DashboardFor | project/app/dashboard.tsx:9-17 | the admin dashboard iff the user is an admin; nobody signed in gets the customer dashboard |
| Dashboard.RemoveSpacesSpec | project/app/dashboard.tsx:156 | removing spaces is the filter of the non-space characters: same order, same count of each |
| Dashboard.StatusKey | project/app/dashboard.tsx:156 | the key starts with "dashboard.status." |
| Dashboard.StatusKeySuffix | project/app/dashboard.tsx:156 | the key's suffix holds no space and no upper-case letter |
| Dashboard.LowerRemoveSpacesCommute | project/app/dashboard.tsx:156 | removing spaces and lower-casing commute |
| Dashboard.StatusKeyIgnoresCase | project/app/dashboard.tsx:156 | the key does not depend on the case of the status |
| Dashboard.StatusKeyOfTwoWords | project/app/dashboard.tsx:156 | a two-word status maps to both words lower-cased and joined |
| Dashboard.MultiWordStatusKeys | project/app/dashboard.tsx:156-182 | 'In Transit' maps to "dashboard.status.intransit" and 'Delivery Pending' to "dashboard.status.deliverypending" |
| Header.MenuItems | project/components/Header.tsx:55 | the admin list for an admin, the customer list for anyone else |
| Header.MenuRoutesByRole | project/components/Header.tsx:35-53 | only customers are offered /new-booking, /confirmations, /history and /profile; only admins /pickup-points, /bus-assignment, /user-logs and /settings |
| Header.MenuShape | project/components/Header.tsx:35-53 | both menus have seven items and start at /dashboard |
| Header.RoleLabel | project/components/Header.tsx:86 | "Administrator" iff the user is an admin, "Customer" otherwise |
| Header.HeaderState.constructor | project/components/Header.tsx:14 | the menu is hidden |
| Header.HeaderState.OpenMenu | project/components/Header.tsx:62 | the menu is shown |
| Header.HeaderState.HandleLogout | project/components/Header.tsx:18-22 | hides the menu, clears the user, then navigates to / |
| Header.HeaderState.HandleNavigation | project/components/Header.tsx:24-27 | hides the menu and navigates to the route |
| Header.HeaderState.PressMenuItem | project/components/Header.tsx:96-100 | pressing an item navigates to a route the signed-in user's menu offers |

## Left out

- Rendering, styles, icons and the visibility flags of modals: they are presentation. Render guards that decide which button or input exists are kept as method preconditions (`Booking.Offered`, `BusAssignment.OfferedTransition`): the booking inputs, and the point modals opened from them, exist only on their own step's form (`new-booking.tsx:355-357`).
- `Alert.alert`: only its effect on control flow is kept, as a return value where a caller can tell the outcomes apart.
- `router.push` / `router.replace`: both are recorded as appending a route to a ghost navigation log. The difference between pushing and replacing history is not modelled.
- Auth.AuthContext.Login: the one-second simulated delay and the `async`/`await` around it are not modelled. Login is synchronous, so `isLoading` is true only inside the call.
- Booking.GenerateRwb: `Date.now()` is a parameter, a non-negative millisecond count.
- Settings.ParseValue: only decimal-digit text (and the empty text, as 0) counts as numeric. JavaScript's `Number` also accepts signs, decimals, exponents, hexadecimal and surrounding whitespace; such text is kept as raw text here. Digit text is read exactly: `Number` rounds values above 2^53 to the nearest double and reads very long digit strings as Infinity, which the model does not.
- Settings.SettingsScreen.HandleEditSetting: requires a defined current value, because `toString` on undefined throws. Numbers are printed as decimal naturals, since all numeric settings are non-negative integers.
- Strings.Lower and Strings.Upper: map ASCII letters only. JavaScript's `toLowerCase`/`toUpperCase` also map non-ASCII letters; every literal in the app is ASCII apart from the route arrow, which has no case.
- The capacity bar percentage on bus cards (`bus-assignment.tsx:211`): floating-point display arithmetic.
- The quick-track buttons (`tracking.tsx:293-310`) call `handleTrack` right after `setTrackingId`. What that does depends on React's batched state updates, which are outside this model.
- The tracking and history screens' status icons and the bus assignment modal's form fields: display only.
- `useAuth` throwing outside a provider, the i18n set-up with its storage I/O, the layout and router wiring, and the profile screen (whose save is a no-op): framework plumbing and constant data.
- Uniqueness of pickup-point and bus-assignment ids: the code does not guarantee it. Updates and deletes act on every entry with the id.
