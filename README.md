# Kampüs Takip: a verified model of the app's decision logic

Kampüs Takip is a campus incident-reporting Android app written in Kotlin
with Jetpack Compose, backed by Firebase. Users sign in, report incidents
(health, security, environment, lost/found, technical), browse and follow
them, and administrators change their status or delete them. Nearly all of
the one source file is UI and Firebase plumbing. This project models the
decision logic scattered through it:

- the total parsing of the stored type and status strings;
- the feed's three AND-ed filters and the filter chips;
- the admin panel's case-insensitive search;
- the follow-list toggle;
- the checks `login` and `register` make, and the role a new account gets;
- the incident actions over the store;
- the screen routing that is the app's only authorisation check.

Modules, one per concern:

| file | module | what it holds |
|---|---|---|
| `wrappers.dfy` | `Wrappers` | `Option`, for Kotlin's nullable types |
| `text.dfy` | `Text` | `isBlank`, `lowercase`, `contains(…, ignoreCase)` |
| `lists.dfy` | `Lists` | `filter` (`Keep`) and `List - element` (`RemoveFirst`), with their lemmas |
| `domain.dfy` | `Domain` | `User`, `Incident`, the two enumerations, `getTypeEnum` / `getStatusEnum`, the record `addIncident` builds |
| `follows.dfy` | `Follows` | the follow-list update of `toggleFollow` |
| `feed.dfy` | `Feed` | the feed filter, the chip logic, and `FeedScreen`'s filter state as a class |
| `admin.dfy` | `Admin` | the admin search filter |
| `auth.dfy` | `Auth` | the login and registration checks, and the role rule |
| `store.dfy` | `Store` | the "incidents" and "users" collections as maps, and the writes the app makes |
| `app.dfy` | `App` | the screens, the routing, and the `CampusApp` state as a class with one method per action or callback |

The pure parts are functions with lemmas. The parts that reassign
`remember`-held state are classes whose methods state the new state:
`App.CampusApp` and `Feed.FeedScreenState`. Each method's `modifies` clause
names the fields it may change.

Facts of the code that the model keeps as they are:

- Administrator role. The role depends on the whole e-mail address, domain
  included, not only the local part: the address is lower-cased and
  searched for "admin" anywhere (`Auth.ScenarioAdminDomain`).
- Roles. Roles are the strings "USER" and "ADMIN", not an enumeration.
- Follow list. `followedIncidents` is a list, not a set, so unfollowing
  removes only the first occurrence (`Follows.ToggledTwiceSameMultiset`
  needs at most one copy).
- Role checks. `updateStatus` and `deleteIncident` check no role. Only the
  routing keeps their buttons away from other users (`App.Render`,
  `App.CampusApp.AdminClick`).

## Model

| member | source | states |
|---|---|---|
| `Domain.ParseType` | app/src/main/java/com/sebahatselcuk/kampustakip/MainActivity.kt:57 | an exact, case-sensitive constant name parses to that constant; any other result is `Tech` |
| `Domain.ParseStatus` | app/src/main/java/com/sebahatselcuk/kampustakip/MainActivity.kt:58 | an exact constant name parses to that constant; any other result is `Open` |
| `Domain.ParseTypeName` | app/src/main/java/com/sebahatselcuk/kampustakip/MainActivity.kt:57 | round trip: parsing `t.name` gives back `t`, which is how `addIncident` stores the type |
| `Domain.ParseStatusName` | app/src/main/java/com/sebahatselcuk/kampustakip/MainActivity.kt:58 | round trip: parsing `s.name` gives back `s` |
| `Domain.ParseTypeFallback` | app/src/main/java/com/sebahatselcuk/kampustakip/MainActivity.kt:57 | a string naming no constant parses to `Tech` |
| `Domain.ParseStatusFallback` | app/src/main/java/com/sebahatselcuk/kampustakip/MainActivity.kt:58 | a string naming no constant parses to `Open` |
| `Domain.ParseIsCaseSensitive` | app/src/main/java/com/sebahatselcuk/kampustakip/MainActivity.kt:57-58 | differently-cased names ("health", "resolved", …) fall back to `Tech` / `Open` |
| `Domain.TypeOf` | app/src/main/java/com/sebahatselcuk/kampustakip/MainActivity.kt:57 | `getTypeEnum` gives the constant the stored name names, or `Tech` when the name names none |
| `Domain.StatusOf` | app/src/main/java/com/sebahatselcuk/kampustakip/MainActivity.kt:58 | `getStatusEnum` gives the constant the stored name names, or `Open` when the name names none |
| `Domain.NewIncident` | app/src/main/java/com/sebahatselcuk/kampustakip/MainActivity.kt:228-235 | the new record stores the chosen type by its name (so it parses back to that type) and the status "OPEN"; it carries the author, date, title and text, an empty id and the default location |
| `Text.IsBlank` | app/src/main/java/com/sebahatselcuk/kampustakip/MainActivity.kt:148 | a string is blank iff every character in it is whitespace; the empty string is blank |
| `Text.Lower` | app/src/main/java/com/sebahatselcuk/kampustakip/MainActivity.kt:195 | `lowercase()` keeps the length, leaves no capital A-Z, and keeps every character that is not one |
| `Text.Contains` | app/src/main/java/com/sebahatselcuk/kampustakip/MainActivity.kt:745-746 | `contains` holds exactly when the pattern matches at some position (character-wise, optionally ignoring case) |
| `Text.ContainsEmpty` | app/src/main/java/com/sebahatselcuk/kampustakip/MainActivity.kt:742-747 | every text contains the empty query |
| `Text.ContainsLowered` | app/src/main/java/com/sebahatselcuk/kampustakip/MainActivity.kt:195 | for a lower-case pattern, searching the lower-cased text is a case-insensitive search |
| `Lists.Keep` | app/src/main/java/com/sebahatselcuk/kampustakip/MainActivity.kt:513 | `filter` returns no more elements than it was given, each present and satisfying the predicate |
| `Lists.KeepIsSubsequence` | app/src/main/java/com/sebahatselcuk/kampustakip/MainActivity.kt:513 | the result of `filter` is an order-preserving subsequence of its input |
| `Lists.KeepCount` | app/src/main/java/com/sebahatselcuk/kampustakip/MainActivity.kt:513 | `filter` keeps every copy of a satisfying element and no copy of any other |
| `Lists.KeepMember` | app/src/main/java/com/sebahatselcuk/kampustakip/MainActivity.kt:513 | an element is kept iff it is present and satisfies the predicate |
| `Lists.KeepAll` | app/src/main/java/com/sebahatselcuk/kampustakip/MainActivity.kt:513 | when every element satisfies the predicate, `filter` returns its input unchanged |
| `Lists.RemoveFirst` | app/src/main/java/com/sebahatselcuk/kampustakip/MainActivity.kt:252 | `List - x` is the identity when `x` is absent and shortens the list by one when present |
| `Lists.RemoveFirstMultiset` | app/src/main/java/com/sebahatselcuk/kampustakip/MainActivity.kt:252 | `List - x` removes one copy of `x` and changes no other count |
| `Lists.RemoveFirstAt` | app/src/main/java/com/sebahatselcuk/kampustakip/MainActivity.kt:252 | what `List - x` removes is the first occurrence |
| `Lists.RemoveFirstOfAppended` | app/src/main/java/com/sebahatselcuk/kampustakip/MainActivity.kt:252-254 | removing an id just appended to a list that lacked it restores the list |
| `Lists.RemoveFirstNoDuplicates` | app/src/main/java/com/sebahatselcuk/kampustakip/MainActivity.kt:252 | on a duplicate-free list, `List - x` leaves it duplicate-free and without `x` |
| `Follows.Toggled` | app/src/main/java/com/sebahatselcuk/kampustakip/MainActivity.kt:251-255 | an absent id is appended at the end; a present id makes the list one shorter |
| `Follows.ToggledRemovesFirstOccurrence` | app/src/main/java/com/sebahatselcuk/kampustakip/MainActivity.kt:251-252 | unfollowing removes exactly the first occurrence of the id |
| `Follows.ToggledMultiset` | app/src/main/java/com/sebahatselcuk/kampustakip/MainActivity.kt:251-255 | a toggle changes the count of that id by one and no other count |
| `Follows.ToggledTwiceRestores` | app/src/main/java/com/sebahatselcuk/kampustakip/MainActivity.kt:251-255 | following and then unfollowing an absent id restores the original list exactly |
| `Follows.ToggledTwiceSameMultiset` | app/src/main/java/com/sebahatselcuk/kampustakip/MainActivity.kt:251-255 | toggling an id that occurs at most once twice keeps the same ids with the same counts |
| `Follows.ToggledChanges` | app/src/main/java/com/sebahatselcuk/kampustakip/MainActivity.kt:251-256 | every toggle changes the list, the empty id included |
| `Follows.BackTogglesEmptyId` | app/src/main/java/com/sebahatselcuk/kampustakip/MainActivity.kt:604 | "Geri" on an empty follow list makes the user follow "", and again undoes it |
| `Follows.ToggledAsSet` | app/src/main/java/com/sebahatselcuk/kampustakip/MainActivity.kt:251-255 | on a duplicate-free list a toggle is the symmetric difference with the id and keeps the list duplicate-free |
| `Feed.Visible` | app/src/main/java/com/sebahatselcuk/kampustakip/MainActivity.kt:513-518 | the feed holds no more incidents than the list, each one from the list and passing all three filters; `Feed.VisibleExactly` gives the converse and the order |
| `Feed.VisibleExactly` | app/src/main/java/com/sebahatselcuk/kampustakip/MainActivity.kt:513-518 | the feed is an order-preserving subsequence; an incident is shown, as often as it occurs, iff its type, status and followed tests all pass |
| `Feed.VisibleUnfiltered` | app/src/main/java/com/sebahatselcuk/kampustakip/MainActivity.kt:513-518 | with no type filter, no status filter and followed-only off, the feed is the incident list unchanged |
| `Feed.VisibleNarrowsByType` | app/src/main/java/com/sebahatselcuk/kampustakip/MainActivity.kt:514 | a type filter shows exactly the incidents shown without it that parse to that type |
| `Feed.ScenarioTechFollowed` | app/src/main/java/com/sebahatselcuk/kampustakip/MainActivity.kt:513-518 | HEALTH/OPEN "1" and TECH/RESOLVED "2", following "2", TECH and followed-only on: the feed is just "2" |
| `Feed.ToggleChoice` | app/src/main/java/com/sebahatselcuk/kampustakip/MainActivity.kt:535 | a chip click clears the filter iff that value was active, and otherwise selects the clicked value |
| `Feed.ToggleChoiceTwice` | app/src/main/java/com/sebahatselcuk/kampustakip/MainActivity.kt:548 | clicking the same chip twice, from any other state, leaves the filter off |
| `Feed.FeedScreenState.constructor` | app/src/main/java/com/sebahatselcuk/kampustakip/MainActivity.kt:509-511 | all filters start off |
| `Feed.FeedScreenState.ClickFollowedChip` | app/src/main/java/com/sebahatselcuk/kampustakip/MainActivity.kt:527 | the followed chip negates followed-only and changes nothing else |
| `Feed.FeedScreenState.ClickStatusChip` | app/src/main/java/com/sebahatselcuk/kampustakip/MainActivity.kt:535 | a status chip toggles the status filter and changes nothing else |
| `Feed.FeedScreenState.ClickAllTypesChip` | app/src/main/java/com/sebahatselcuk/kampustakip/MainActivity.kt:545 | "Tüm Tipler" always clears the type filter |
| `Feed.FeedScreenState.ClickTypeChip` | app/src/main/java/com/sebahatselcuk/kampustakip/MainActivity.kt:548 | a type chip toggles the type filter and changes nothing else |
| `Admin.SearchResults` | app/src/main/java/com/sebahatselcuk/kampustakip/MainActivity.kt:744-747 | the admin list holds no more incidents than the list, each one from the list whose title or description contains the query ignoring case; `Admin.SearchResultsExactly` gives the converse and the order |
| `Admin.SearchResultsExactly` | app/src/main/java/com/sebahatselcuk/kampustakip/MainActivity.kt:744-747 | the admin list keeps, in order and with multiplicity, exactly the incidents whose title or description has a case-insensitive occurrence of the query |
| `Admin.SearchEmptyQuery` | app/src/main/java/com/sebahatselcuk/kampustakip/MainActivity.kt:742-747 | the empty query lists every incident |
| `Admin.SearchIgnoresCase` | app/src/main/java/com/sebahatselcuk/kampustakip/MainActivity.kt:745 | "WIFI" finds an incident titled "Kampüs wifi arızası" |
| `Auth.LoginError` | app/src/main/java/com/sebahatselcuk/kampustakip/MainActivity.kt:148-151 | sign-in goes ahead iff neither field is blank; otherwise the fixed message is shown |
| `Auth.RegisterError` | app/src/main/java/com/sebahatselcuk/kampustakip/MainActivity.kt:180-187 | sign-up goes ahead iff neither field is blank and the password has at least 6 characters; blank fields are reported first |
| `Auth.RegisterAcceptsOnlyLoginable` | app/src/main/java/com/sebahatselcuk/kampustakip/MainActivity.kt:148-187 | anything `register` accepts, `login` accepts too |
| `Auth.ShortPasswordRejected` | app/src/main/java/com/sebahatselcuk/kampustakip/MainActivity.kt:184-187 | a password shorter than 6 characters never reaches account creation |
| `Auth.RoleFor` | app/src/main/java/com/sebahatselcuk/kampustakip/MainActivity.kt:195 | the role is "ADMIN" iff the whole address contains "admin" in any case, and "USER" otherwise |
| `Auth.NewUser` | app/src/main/java/com/sebahatselcuk/kampustakip/MainActivity.kt:196 | the new record has the given fields, the decided role and no follows |
| `Auth.ScenarioAdminRegistration` | app/src/main/java/com/sebahatselcuk/kampustakip/MainActivity.kt:180-196 | "Admin@campus.edu" / "abcdef" is accepted and becomes "ADMIN" |
| `Auth.ScenarioAdminDomain` | app/src/main/java/com/sebahatselcuk/kampustakip/MainActivity.kt:195 | "ayse@admin.edu" becomes "ADMIN": the domain counts |
| `Auth.ScenarioShortPassword` | app/src/main/java/com/sebahatselcuk/kampustakip/MainActivity.kt:184-187 | password "abc" is refused with the length message |
| `Auth.ScenarioRegularUser` | app/src/main/java/com/sebahatselcuk/kampustakip/MainActivity.kt:195 | "ali@x.tr" becomes "USER" |
| `Store.Added` | app/src/main/java/com/sebahatselcuk/kampustakip/MainActivity.kt:236 | `add` creates one new document under a fresh id and leaves the others untouched |
| `Store.WithStatus` | app/src/main/java/com/sebahatselcuk/kampustakip/MainActivity.kt:240 | only `statusName` of that one document changes; a missing document changes nothing |
| `Store.Deleted` | app/src/main/java/com/sebahatselcuk/kampustakip/MainActivity.kt:245 | exactly that document is removed and the others are untouched |
| `Store.WithFollows` | app/src/main/java/com/sebahatselcuk/kampustakip/MainActivity.kt:257 | only `followedIncidents` of that user's document changes |
| `Store.WithStatusParses` | app/src/main/java/com/sebahatselcuk/kampustakip/MainActivity.kt:240 | after an update the incident parses to the new status and every other field is kept |
| `Store.WithStatusIdempotent` | app/src/main/java/com/sebahatselcuk/kampustakip/MainActivity.kt:240 | setting the same status twice equals setting it once |
| `Store.WithStatusOverrides` | app/src/main/java/com/sebahatselcuk/kampustakip/MainActivity.kt:240 | no transition order is enforced: a later status update overrides an earlier one |
| `Store.AddedThenDeleted` | app/src/main/java/com/sebahatselcuk/kampustakip/MainActivity.kt:236-245 | deleting an incident just added restores the collection |
| `Store.DeletedIdempotent` | app/src/main/java/com/sebahatselcuk/kampustakip/MainActivity.kt:245 | deleting twice equals deleting once |
| `App.Render` | app/src/main/java/com/sebahatselcuk/kampustakip/MainActivity.kt:278-325 | the admin panel shows iff the admin screen is selected, nothing is loading and the signed-in user's role is "ADMIN"; the overlay covers splash and loading; signed-out users see only sign-in screens |
| `App.NavItems` | app/src/main/java/com/sebahatselcuk/kampustakip/MainActivity.kt:801-810 | the admin item is offered iff the user is an administrator; feed, map, create and profile always are |
| `App.BottomBar` | app/src/main/java/com/sebahatselcuk/kampustakip/MainActivity.kt:304-311 | the admin item is reachable iff an administrator is signed in, nothing is loading and the screen is not the detail screen |
| `App.CampusApp.constructor` | app/src/main/java/com/sebahatselcuk/kampustakip/MainActivity.kt:100-107 | start-up state: nobody signed in, splash screen, no selection, no error, nothing loading |
| `App.CampusApp.Login` | app/src/main/java/com/sebahatselcuk/kampustakip/MainActivity.kt:147-153 | a blank field sets the message and nothing else; otherwise loading starts |
| `App.CampusApp.CompleteLogin` | app/src/main/java/com/sebahatselcuk/kampustakip/MainActivity.kt:154-163 | after sign-in the user is the stored record with the signed-in id (none if missing) and the feed is selected |
| `App.CampusApp.RemoteCallFailed` | app/src/main/java/com/sebahatselcuk/kampustakip/MainActivity.kt:164-176 | a failure ends loading and shows its message |
| `App.CampusApp.Register` | app/src/main/java/com/sebahatselcuk/kampustakip/MainActivity.kt:179-188 | refused inputs set the message and nothing else; otherwise loading starts and the accepted arguments become the pending sign-up |
| `App.CampusApp.CompleteRegistration` | app/src/main/java/com/sebahatselcuk/kampustakip/MainActivity.kt:189-204 | the record built from the pending sign-up, whose e-mail and password `register` accepted, is stored under the new id and signed in with the role the e-mail decides; the feed is selected |
| `App.CampusApp.Logout` | app/src/main/java/com/sebahatselcuk/kampustakip/MainActivity.kt:220-224 | nobody is signed in and the login screen is selected |
| `App.CampusApp.AddIncident` | app/src/main/java/com/sebahatselcuk/kampustakip/MainActivity.kt:226-237 | with a signed-in user, that user's new OPEN incident is added; with nobody signed in, nothing changes |
| `App.CampusApp.UpdateStatus` | app/src/main/java/com/sebahatselcuk/kampustakip/MainActivity.kt:239-242 | the store changes only by that status update, whatever the role |
| `App.CampusApp.DeleteIncident` | app/src/main/java/com/sebahatselcuk/kampustakip/MainActivity.kt:244-247 | the store loses only that incident, whatever the role; follow lists are untouched |
| `App.CampusApp.ToggleFollow` | app/src/main/java/com/sebahatselcuk/kampustakip/MainActivity.kt:249-258 | only the signed-in user's follow list changes, locally and in the store; with nobody signed in, nothing changes |
| `App.CampusApp.ReceiveSnapshot` | app/src/main/java/com/sebahatselcuk/kampustakip/MainActivity.kt:137-139 | the incident list is the snapshot's documents in order, each carrying its document id |
| `App.CampusApp.Navigate` | app/src/main/java/com/sebahatselcuk/kampustakip/MainActivity.kt:308 | the chosen screen is selected; choosing the feed clears the selection |
| `App.CampusApp.OpenDetail` | app/src/main/java/com/sebahatselcuk/kampustakip/MainActivity.kt:317 | a feed card selects its incident and opens the detail screen |
| `App.CampusApp.DetailAction` | app/src/main/java/com/sebahatselcuk/kampustakip/MainActivity.kt:322 | back to the feed and the id toggled; with a user signed in, the follow list always changes, even for the back button's "" |
| `App.CampusApp.DetailBack` | app/src/main/java/com/sebahatselcuk/kampustakip/MainActivity.kt:604 | the intended back button: feed selected, follow list untouched |
| `App.CampusApp.SubmitCreate` | app/src/main/java/com/sebahatselcuk/kampustakip/MainActivity.kt:319 | `addIncident`, then the feed is selected |
| `App.CampusApp.AdminClick` | app/src/main/java/com/sebahatselcuk/kampustakip/MainActivity.kt:779-781 | an admin-list button, only pressable by a signed-in "ADMIN" who also sees the admin item in the bottom bar, deletes or sets IN_PROGRESS / RESOLVED |
| `App.CampusApp.BroadcastAlert` | app/src/main/java/com/sebahatselcuk/kampustakip/MainActivity.kt:756 | "Yayınla" on the admin panel sets the alert to the typed message, even an empty one |
| `App.CampusApp.DismissAlert` | app/src/main/java/com/sebahatselcuk/kampustakip/MainActivity.kt:330 | dismissing the banner clears the alert |
| `App.CampusApp.DismissError` | app/src/main/java/com/sebahatselcuk/kampustakip/MainActivity.kt:333-336 | dismissing the error dialog, or "Tamam", clears the error message |
| `App.CampusApp.CancelLoading` | app/src/main/java/com/sebahatselcuk/kampustakip/MainActivity.kt:283 | "İptal Et" ends loading and selects the login screen; `currentUser` is kept, so a signed-in user would see "Ekran Yüklenemedi" |

## Findings

| source | as written | input that shows it | evidently intended | confidence | as-written member | corrected member |
|---|---|---|---|---|---|---|
| app/src/main/java/com/sebahatselcuk/kampustakip/MainActivity.kt:604 | "Geri" calls `onAction("")`, which `CampusApp` routes to `toggleFollow("")` | a signed-in user with `followedIncidents == []` opens an incident and presses "Geri": the list becomes `[""]`, in memory and in the store (`Follows.BackTogglesEmptyId`) | "Geri" only returns to the feed | not executed; high (the label and the empty id show the intent) | `App.CampusApp.DetailAction` | `App.CampusApp.DetailBack` |

## Left out

- Firebase calls. Sign-in, sign-up, sign-out, password reset, the reads, the
  writes and the snapshot listener are asynchronous remote calls. The model
  has a method for each callback (`CompleteLogin`, `CompleteRegistration`,
  `RemoteCallFailed`, `ReceiveSnapshot`), and something outside the model
  calls them. Store writes succeed at once. Write failures, and the delay
  before the next snapshot shows a write, are not modelled.
  `RemoteCallFailed` does not know which request failed, so it leaves
  `pendingSignUp` as it is.
- App.CampusApp.CompleteLogin: is not tied to a pending sign-in. Its only
  input is the uid the remote account supplies, and `login` checks no
  argument that reaches the stored record.
- App.CampusApp.RemoteCallFailed: takes the whole message as a parameter.
  The fixed prefixes (such as "Giriş Hatası:") and `localizedMessage` are
  not modelled.
- Store.Added: the store picks the new document's id. Here it is a
  parameter, with the store's promise that the id is fresh written as a
  `requires`.
- The start-up session check (lines 110-128), the registration of the
  snapshot listener, and the listener's ordering by date descending (lines
  130-143). The order is whatever the snapshot delivers.
- `MapScreen`. It uses random coordinates, date formatting and HTML built
  for a web view.
- `Notification` and `NotificationTopSheet`. They are never filled in.
- The text-field bindings. The typed values (the admin search query, the
  alert message, the form fields) are parameters.
- The `auth.signOut()` of "İptal Et" (line 283). It ends only the remote
  session, which the model does not hold; a callback already in flight may
  still arrive (the callback methods remain callable).
- The life of `FeedScreen`'s state. Compose resets it when the feed screen
  leaves the composition. `Feed.FeedScreenState` models one lifetime.
- Enum labels, icons and colours, and all layout, theme and toasts.
- `System.currentTimeMillis()`. The timestamp is a parameter of Kotlin
  `Long` range.
- Text.Contains: folds case for ASCII letters only. Kotlin's `ignoreCase`
  and `lowercase()` use full Unicode case mapping. For "admin", which is
  ASCII, the role rule comes out the same.
- Auth.RegisterError: counts Unicode scalar values. Kotlin's `length`
  counts UTF-16 code units, so a password with characters outside the
  Basic Multilingual Plane is counted shorter here.
