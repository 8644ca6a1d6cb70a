# ProPortal rules in Dafny

ProPortal is a material-ordering web app used by contractors. Foremen use it to measure a site by walking its perimeter with GPS, to keep draft measurements and to submit material orders. Supervisors use it to approve or reject those orders. This project models the rules underneath that plumbing and proves their properties.

- **Site-measurement session** (`gps_walk.dfy`, module `GpsWalk`). The pure helpers are:
  - the accuracy bands;
  - the polygon-area guard;
  - the area, cubic-yard and ton formula;
  - the first-token density matcher;
  - vertex removal.

  The class `WalkSession` holds the screen's state: `step`, `accuracy`, `coords`, `selectedVertex`, the catalog, `depthInches` and `manualTons`. Its methods are the location callback and the screen's buttons.
- **Order workflow** (`orders.dfy`, module `Orders`):
  - the delivery-cost tiers;
  - the list-query choice and the pending-first re-sort;
  - submission validation;
  - the price map, built by a loop;
  - item pricing, total tons and the new order record.

  The class `OrderStore`, whose orders collection is a map from id to order, holds the submit and approve/reject handlers.
- **Bearer-token check** (`auth.dfy`, module `Auth`). This is `verifyToken` with JWT decoding as a parameter `decode`.
- **Measurement lifecycle** (`measurements.dfy`, module `Measurements`):
  - the SiteMeasure gate;
  - create validation and record defaults;
  - the field-by-field `$set` builder, with the `$set` represented as a datatype `Patch`;
  - the draft-only update;
  - the draft-to-archived soft delete;
  - the cart and history filters.

  The class `MeasurementStore`, whose collection is a map, holds the whole handler.
- **Supervisor bookkeeping** (`supervisor.dfy`, module `Supervisor`):
  - the local list update after an action;
  - the pending/resolved partition;
  - order totals;
  - avatar initials.

  The class `SupervisorScreen` holds the order list, the selection and the availability toggle with its revert.
- **Languages** (`lang.dfy`, module `Lang`). This is the `t` fallback lookup, the en/es toggle and the profile sync. The class `LangProvider` holds the current language.
- **Routes** (`app.dfy`, module `App`). This is the `ProtectedRoute` decision, the route table with its catch-all (matched as React Router does: ignoring ASCII case and trailing slashes), and how redirects settle.
- **Shared code.** `common.dfy` holds `Option`, `Reply`, truthiness of optional strings, `GeoPoint` and `Qty`. `text.dfy` holds the JavaScript string operations the rules use: `split`/`join` on one character, `includes`, `startsWith`, `trim`, and ASCII case mapping.

Foreign calls and I/O are parameters:

| Parameter | Stands for |
|---|---|
| `turf` | the area library |
| `round1` | rounding to one decimal |
| `decode` | `jwt.verify` |
| `find` | the orders query with its database sort |
| `projects`, `materialDocs` | the submit handler's project and material lookups |
| `supervisorId` | the submit handler's supervisor lookup |
| `newId` | the id the database assigns |
| `now` | the clock |
| `ok` / `requestThrows` | the outcome of a client request |

## Model

| member | source | states |
|---|---|---|
| GpsWalk.AccuracyColor | src/screens/GpsWalkScreen.jsx:10-15 | grey exactly without a reading, green exactly up to 5 m, amber exactly in (5, 15] m, red exactly beyond 15 m |
| GpsWalk.AccuracyLabel | src/screens/GpsWalkScreen.jsx:17-22 | the searching / excellent / fair / poor key exactly on the same four bands |
| GpsWalk.ColorMatchesLabel | src/screens/GpsWalkScreen.jsx:10-22 | the colour and the label of any reading always come from the same band |
| GpsWalk.Ring | src/screens/GpsWalkScreen.jsx:27-28 | the ring lists every vertex as (lng, lat) in order and is closed by repeating the first |
| GpsWalk.CalcArea | src/screens/GpsWalkScreen.jsx:25-35 | zero area below three vertices and when the library fails; otherwise the library's square meters, with square feet = square meters × 10.7639; never negative |
| GpsWalk.CalcQty | src/screens/GpsWalkScreen.jsx:37-40 | the result fits (`QtyFits`): cubic yards × 324 = square feet × depth, tons = cubic yards × tons per cubic yard; non-negative inputs give non-negative outputs |
| GpsWalk.CalcQtyAdditive | src/screens/GpsWalkScreen.jsx:37-40 | yards and tons of a sum of areas are the sums of their yards and tons |
| GpsWalk.CalcQtyScales | src/screens/GpsWalkScreen.jsx:37-40 | scaling the area by k scales yards and tons by k |
| GpsWalk.FirstMatch | src/screens/GpsWalkScreen.jsx:64-67 | the index found matches and no earlier profile matches; no index means no profile matches |
| GpsWalk.MatchDensity | src/screens/GpsWalkScreen.jsx:61-68 | none without a material or profiles; a result exists exactly when some profile matches the lower-cased name, is an element of the list and is its first match |
| GpsWalk.SameFirstTokenMatches | src/screens/GpsWalkScreen.jsx:66 | names with the same first token always match each other |
| GpsWalk.EmptyTokenMatchesEverything | src/screens/GpsWalkScreen.jsx:66 | a name that is empty or starts with a space matches every profile |
| GpsWalk.RemoveAt | src/screens/GpsWalkScreen.jsx:164 | out of range changes nothing; otherwise one shorter, with the vertices before idx kept and those after it shifted down by one |
| GpsWalk.RemoveAtMultiset | src/screens/GpsWalkScreen.jsx:164 | removal drops exactly the one vertex at idx |
| GpsWalk.FindMaterial | src/screens/GpsWalkScreen.jsx:143 | a found material is in the list with that id and no earlier material has the id; none means no material has it |
| GpsWalk.WalkSession.constructor | src/screens/GpsWalkScreen.jsx:75-86 | the initial state: mode step, no reading, no vertices, no selection, depth 3, no override |
| GpsWalk.WalkSession.TonsPerCY | src/screens/GpsWalkScreen.jsx:145 | 1.35 without a matched profile and for a matched profile whose tons per cubic yard is 0; otherwise that profile's value; never zero |
| GpsWalk.WalkSession.CalcResult | src/screens/GpsWalkScreen.jsx:146 | the estimate fits the current area's square feet, the depth and the density in use |
| GpsWalk.WalkSession.EffectiveTons | src/screens/GpsWalkScreen.jsx:147 | the manual override when set, otherwise the calculated tons |
| GpsWalk.WalkSession.OnSample | src/screens/GpsWalkScreen.jsx:101-110 | every reading becomes the accuracy; only while walking and at most 30 m is it appended at the end, otherwise the vertices are unchanged |
| GpsWalk.WalkSession.ChooseWalk | src/screens/GpsWalkScreen.jsx:251 | mode step to pre-walk step |
| GpsWalk.WalkSession.BackToMode | src/screens/GpsWalkScreen.jsx:291 | pre-walk step back to mode step |
| GpsWalk.WalkSession.StartWalking | src/screens/GpsWalkScreen.jsx:329-330 | without a reading nothing changes; with one the walk starts from no vertices |
| GpsWalk.WalkSession.ClosePolygon | src/screens/GpsWalkScreen.jsx:168-175 | below three vertices the step is unchanged; otherwise the step is review |
| GpsWalk.WalkSession.CancelWalk | src/screens/GpsWalkScreen.jsx:400 | the captured vertices are discarded |
| GpsWalk.WalkSession.Retake | src/screens/GpsWalkScreen.jsx:417 | review back to walking with no vertices |
| GpsWalk.WalkSession.Continue | src/screens/GpsWalkScreen.jsx:495 | review to configure |
| GpsWalk.WalkSession.BackToReview | src/screens/GpsWalkScreen.jsx:509 | configure back to review |
| GpsWalk.WalkSession.TapVertex | src/screens/GpsWalkScreen.jsx:439 | tapping the selected vertex deselects it, tapping another selects it |
| GpsWalk.WalkSession.RemoveVertex | src/screens/GpsWalkScreen.jsx:162-166 | at four vertices or fewer nothing changes; otherwise exactly index idx is removed and the selection cleared; a reviewed polygon keeps at least three vertices |
| GpsWalk.WalkSession.LoadCatalog | src/screens/GpsWalkScreen.jsx:124-139 | only on entering configure with no catalog: both lists stored, the first material selected, depth its profile's non-zero default or 3 |
| GpsWalk.WalkSession.ChangeMaterial | src/screens/GpsWalkScreen.jsx:149-155 | the selection changes, the override is cleared, depth becomes the matched profile's default unclamped, and stays when there is no match |
| GpsWalk.WalkSession.ChangeDepth | src/screens/GpsWalkScreen.jsx:157-160 | depth becomes old + delta clamped to [1, 24] and the override is cleared |
| GpsWalk.WalkSession.DecrementTons | src/screens/GpsWalkScreen.jsx:598 | the override becomes max(0.5, round1(shown − 0.5)), so the shown tons are at least 0.5; the estimate is unchanged |
| GpsWalk.WalkSession.IncrementTons | src/screens/GpsWalkScreen.jsx:607 | the override becomes round1(shown + 0.5); the estimate is unchanged |
| GpsWalk.WalkSession.ResetTons | src/screens/GpsWalkScreen.jsx:614 | no override, so the shown tons are the calculated ones |
| GpsWalk.CaptureScenario | src/screens/GpsWalkScreen.jsx:101-175 | a walk with readings at 50, 10, 40, 5, 30 and 1 m keeps exactly the four readings within 30 m, in order; closing at two vertices is refused, and removing a vertex of the four-vertex polygon is refused |
| Auth.TokenOf | netlify/functions/proportal-orders.js:12 | the token holds no space |
| Auth.VerifyToken | netlify/functions/proportal-orders.js:7-21 | 'No token provided' exactly without the Bearer prefix, 'Invalid token' exactly when decoding fails, 'Insufficient permissions' exactly when a given role list lacks the role; otherwise the decoded claims, with an allowed role |
| Auth.TokenAfterPrefix | netlify/functions/proportal-orders.js:8-12 | behind the prefix, the token is the text up to the next space |
| Orders.EstimateDeliveryCost | netlify/functions/proportal-orders.js:23-29 | 175 / 260 / 520 / 780 / 1100 with inclusive bounds at 15, 24, 48 and 96 tons |
| Orders.DeliveryCostMonotone | netlify/functions/proportal-orders.js:23-29 | more tons never cost less |
| Orders.ActionStatus | netlify/functions/proportal-orders.js:189 | never pending; approved exactly for 'approve' |
| Orders.Filter | netlify/functions/proportal-orders.js:84-87 | never longer than its input |
| Orders.FilterSound | netlify/functions/proportal-orders.js:84-87 | a value is in the filtered list exactly when it is in the input and passes |
| Orders.FilterConcat | netlify/functions/proportal-orders.js:84-87 | filtering a concatenation concatenates the filtered parts |
| Orders.FilterOfPassing | netlify/functions/proportal-orders.js:84-87 | filtering a list that all passes returns it unchanged |
| Orders.FilterOfFailing | netlify/functions/proportal-orders.js:84-87 | filtering a list that all fails returns nothing |
| Orders.FilterPartition | netlify/functions/proportal-orders.js:84-87 | a filter and its complement together hold the input's multiset |
| Orders.QueryFor | netlify/functions/proportal-orders.js:66-74 | by foreman id exactly when the view or the caller's role is foreman, otherwise by contractor id |
| Orders.PendingFirst | netlify/functions/proportal-orders.js:84-87 | the re-sort is a permutation of the fetched list (same multiset, same length) |
| Orders.PendingFirstOrdered | netlify/functions/proportal-orders.js:84-87 | every pending order precedes every resolved one |
| Orders.PendingFirstStable | netlify/functions/proportal-orders.js:84-87 | within each group the fetched order is kept |
| Orders.ListOrders | netlify/functions/proportal-orders.js:60-94 | 401 with the token error, or 200 with the pending-first re-sort of the orders fetched for the chosen query |
| Orders.SubmitError | netlify/functions/proportal-orders.js:106-111 | 'Unknown action' exactly when the action is not submit, then 'Missing required fields' exactly when projectId, items (or all of them) or deliveryDate are missing |
| Orders.LastPrice | netlify/functions/proportal-orders.js:128-129 | no price exactly when no material document carries the id |
| Orders.LastPriceIsLast | netlify/functions/proportal-orders.js:128-129 | a price found is the price of a document carrying the id, and no later document carries it |
| Orders.LastPriceFound | netlify/functions/proportal-orders.js:128-129 | an id has a price exactly when some material document carries it |
| Orders.PriceMapOf | netlify/functions/proportal-orders.js:128-129 | the map holds exactly the ids some document carries, each with its last document's price |
| Orders.BuildPriceMap | netlify/functions/proportal-orders.js:128-129 | the loop's map holds every returned id with the price of its last document, and no other id |
| Orders.PriceItem | netlify/functions/proportal-orders.js:131-137 | id, name and qty are kept, nameEs falls back to name, and the price comes from the map, 0 when absent |
| Orders.PriceItems | netlify/functions/proportal-orders.js:131-137 | one priced item per submitted item, in order |
| Orders.PricedFromCatalog | netlify/functions/proportal-orders.js:128-137 | each item's price is its catalog document's, or 0 when the catalog did not return it |
| Orders.TotalTons | netlify/functions/proportal-orders.js:146 | non-negative quantities give non-negative total tons |
| Orders.TotalTonsAppend | netlify/functions/proportal-orders.js:146 | total tons of two item lists is the sum of their totals |
| Orders.NewOrder | netlify/functions/proportal-orders.js:146-163 | a pending order with no resolution, the caller's contractor and identity, the project's name and PO, the priced items, the body's delivery date, notes defaulting to '', created now, and the delivery estimate of the total tons |
| Orders.ResolveError | netlify/functions/proportal-orders.js:182-187 | 'Unknown action' exactly for anything but approve or reject, then 'orderId required' exactly without an order id |
| Orders.ResolvedRecord | netlify/functions/proportal-orders.js:189-199 | the action's status, the time and the caller's name are set, and every other field is the old record's |
| Orders.OrderStore.constructor | netlify/functions/proportal-orders.js:56 | an empty collection |
| Orders.OrderStore.Submit | netlify/functions/proportal-orders.js:97-170 | 401, 400 or 404 with no change; otherwise 201 and exactly the new order inserted under the new id |
| Orders.OrderStore.Resolve | netlify/functions/proportal-orders.js:173-207 | 401, 400, or 404 'Order not found or already resolved' with no change; otherwise only that pending order of the caller's contractor becomes its `ResolvedRecord`; no order is added and a resolved order never changes |
| Measurements.Gate | netlify/functions/proportal-measurements.js:51-59 | a caller passes exactly when the token check for foreman/supervisor passes and SiteMeasure is enabled |
| Measurements.CartIds | netlify/functions/proportal-measurements.js:82-92 | exactly the stored ids of the caller's drafts in that project |
| Measurements.HistoryIds | netlify/functions/proportal-measurements.js:95-105 | exactly the stored ids of the caller's records in that project that are not archived |
| Measurements.CartWithinHistory | netlify/functions/proportal-measurements.js:82-105 | every cart entry is also in the history |
| Measurements.CreateError | netlify/functions/proportal-measurements.js:124-131 | 'Missing required fields' exactly when a truthy field is missing or areaSqFt / depthInches is absent (0 passes); then none exactly for the two modes |
| Measurements.NewRecord | netlify/functions/proportal-measurements.js:133-154 | a record with no adjusted qty or order: draft, the caller's contractor and identity, the body's project, mode, coordinates, area, depth, material and calculated qty, the label trimmed, notes '', areaSqM 0 and mapSnapshot null by default, both timestamps now |
| Measurements.BlankLabelStoredEmpty | netlify/functions/proportal-measurements.js:124-137 | a label of spaces passes validation and is stored empty |
| Measurements.InsertDraftJoinsLists | netlify/functions/proportal-measurements.js:82-154 | a new draft joins its project's cart and history, which otherwise stay as they were |
| Measurements.DefinedFields | netlify/functions/proportal-measurements.js:182-189 | exactly the editable fields the body defines |
| Measurements.Keys | netlify/functions/proportal-measurements.js:181 | updatedAt is always a key and no key is outside the editable fields |
| Measurements.SetOf | netlify/functions/proportal-measurements.js:181-189 | the keys are updatedAt plus exactly the defined editable fields |
| Measurements.BuildSet | netlify/functions/proportal-measurements.js:181-189 | the field-by-field builder produces that patch and those keys |
| Measurements.EmptySet | netlify/functions/proportal-measurements.js:191-193 | a single key exactly when the body defines no editable field |
| Measurements.SetLeavesFrozenFields | netlify/functions/proportal-measurements.js:181-189 | no status, area, coordinates, mode or ownership key |
| Measurements.ApplySet | netlify/functions/proportal-measurements.js:195 | each field the patch sets (label, depth, material id and name, calculated and adjusted qty, notes, map snapshot) takes the patch's value, each field it does not set keeps the record's, updatedAt is the patch's, and no other field changes |
| Measurements.UpdateWritesBody | netlify/functions/proportal-measurements.js:181-195 | each defined field takes the body's value (label trimmed), every other field is kept |
| Measurements.UpdateKeepsLists | netlify/functions/proportal-measurements.js:195 | an update moves no record into or out of a cart or history |
| Measurements.ArchiveRecord | netlify/functions/proportal-measurements.js:208 | status archived and the new time; nothing else changes |
| Measurements.ArchiveLeavesLists | netlify/functions/proportal-measurements.js:82-209 | archiving removes exactly that record from its cart and history |
| Measurements.CreateOutcome | netlify/functions/proportal-measurements.js:111-163 | success exactly for a valid create body; then the collection gains exactly the new id, holding a draft of the caller's contractor, and keeps every old record; an error is 400 and leaves the collection as it was |
| Measurements.UpdateOutcome | netlify/functions/proportal-measurements.js:166-197 | success exactly when the id is given, is the caller's draft and the body sets some field; no id is added or removed, no status changes, an error leaves the collection as it was, and other records never change |
| Measurements.ArchiveOutcome | netlify/functions/proportal-measurements.js:200-214 | success exactly when the id is given and is the caller's draft, which becomes archived; no id is added or removed, an error leaves the collection as it was, and other records never change |
| Measurements.MeasurementStore.constructor | netlify/functions/proportal-measurements.js:63 | an empty collection |
| Measurements.MeasurementStore.Get | netlify/functions/proportal-measurements.js:66-107 | by id: the caller's record or 404; otherwise the cart or history with a project id; 400 exactly when neither applies |
| Measurements.MeasurementStore.Create | netlify/functions/proportal-measurements.js:111-163 | 400 'Unknown action' or the validation error with no change; otherwise 201 and exactly the new record inserted; reply and new collection are `CreateOutcome` |
| Measurements.MeasurementStore.Update | netlify/functions/proportal-measurements.js:166-197 | 400 without id, 404 when not the caller's, 409 when not a draft, 400 when nothing to set, with no change; otherwise 200 and only that record patched; reply and new collection are `UpdateOutcome` |
| Measurements.MeasurementStore.Archive | netlify/functions/proportal-measurements.js:200-214 | 400 without id, 404 unless one of the caller's drafts, with no change; otherwise 200 and only that record archived; reply and new collection are `ArchiveOutcome` |
| Measurements.MeasurementStore.Handle | netlify/functions/proportal-measurements.js:49-216 | OPTIONS 200, then 401 / 403 from the gate; past the gate GET as `Get`, POST as `CreateOutcome`, PUT as `UpdateOutcome`, DELETE as `ArchiveOutcome`, 405 for other methods; no record removed, the only status step is draft to archived, a non-draft never changes |
| Supervisor.Mark | src/screens/SupervisorHome.jsx:46-50 | the order with the id takes the action's status and the user's name; any other order is unchanged |
| Supervisor.MarkResolved | src/screens/SupervisorHome.jsx:46-50 | same length, each order marked as above |
| Supervisor.MarkLeavesPending | src/screens/SupervisorHome.jsx:46-75 | afterwards the pending list is the old one without the acted-on id, in the same order |
| Supervisor.MarkMatchesServer | src/screens/SupervisorHome.jsx:46-50 | the local copy equals the server's `Orders.ResolvedRecord` for the same action and name, except the server's timestamp |
| Supervisor.PendingOrders | src/screens/SupervisorHome.jsx:75 | an order is listed exactly when it is in the orders and pending |
| Supervisor.ResolvedOrders | src/screens/SupervisorHome.jsx:76 | an order is listed exactly when it is in the orders and not pending |
| Supervisor.Partition | src/screens/SupervisorHome.jsx:75-76 | pending and resolved together hold the orders' multiset, and each order is in exactly one |
| Supervisor.MaterialTotal | src/screens/SupervisorHome.jsx:84 | non-negative quantities and prices give a non-negative total |
| Supervisor.MaterialTotalAppend | src/screens/SupervisorHome.jsx:84 | the material total of two item lists is the sum of their totals |
| Supervisor.OrderTotal | src/screens/SupervisorHome.jsx:85-86 | total − delivery estimate = material total |
| Supervisor.NewOrderTotalIncludesDelivery | src/screens/SupervisorHome.jsx:84-86 | a server-created order costs at least 175 more than its materials |
| Supervisor.FirstLetters | src/screens/SupervisorHome.jsx:77 | no more letters than parts |
| Supervisor.NoLettersIffBlank | src/screens/SupervisorHome.jsx:77 | a name yields no letters exactly when it is only spaces |
| Supervisor.Initials | src/screens/SupervisorHome.jsx:77 | one or two characters; '?' exactly without a name or for a blank one; otherwise the first two letters upper-cased |
| Supervisor.TwoWordInitials | src/screens/SupervisorHome.jsx:77 | "First Last" gives the two upper-cased initials |
| Supervisor.FindOrder | src/screens/SupervisorHome.jsx:81 | a found order is in the list with that id and no earlier order has the id; none exactly when no order has it |
| Supervisor.SupervisorScreen.constructor | src/screens/SupervisorHome.jsx:21 | no orders, loading, no selection, unavailable exactly when isAvailable is false |
| Supervisor.SupervisorScreen.OrdersFetched | src/screens/SupervisorHome.jsx:24-32 | loading ends; a response's orders (or none) replace the list, a failure keeps it |
| Supervisor.SupervisorScreen.SelectOrder | src/screens/SupervisorHome.jsx:301 | the tapped order is selected |
| Supervisor.SupervisorScreen.CloseDetail | src/screens/SupervisorHome.jsx:91 | the selection is cleared |
| Supervisor.SupervisorScreen.ShowDetail | src/screens/SupervisorHome.jsx:80-82 | the selected order is found; when it is missing the selection is dropped |
| Supervisor.SupervisorScreen.HandleAction | src/screens/SupervisorHome.jsx:37-56 | on success the list is marked and the selection cleared; otherwise nothing changes |
| Supervisor.SupervisorScreen.ToggleAvailability | src/screens/SupervisorHome.jsx:59-71 | sends the new availability (`!newVal`, which equals the old `isUnavailable`); the flag is flipped, and reverted only when the request throws |
| Lang.T | src/context/LangContext.jsx:16-18 | the language's truthy entry, else English's truthy entry, else the key |
| Lang.TNeverEmpty | src/context/LangContext.jsx:17 | a non-empty key never yields empty text, and the result is an entry or the key |
| Lang.UnknownLanguageIsEnglish | src/context/LangContext.jsx:17 | a language without a table reads exactly as English |
| Lang.Toggle | src/context/LangContext.jsx:21 | es exactly from en, otherwise en |
| Lang.ToggleTwice | src/context/LangContext.jsx:21 | toggling twice restores en or es; any other code ends as es |
| Lang.LangProvider.constructor | src/context/LangContext.jsx:9 | the language starts as en |
| Lang.LangProvider.Translate | src/context/LangContext.jsx:16-18 | a non-empty key never translates to empty text |
| Lang.LangProvider.SyncFromUser | src/context/LangContext.jsx:12-14 | a truthy profile language replaces the language, otherwise it is kept |
| Lang.LangProvider.ToggleLang | src/context/LangContext.jsx:20-37 | the language flips whatever the request does; the new one is sent only with a token |
| Lang.LangProvider.SetLang | src/screens/SupervisorHome.jsx:230 | the chosen language is set |
| App.ProtectedRoute | src/App.jsx:8-19 | signed out redirects to /login; the child renders exactly for the route's role; any other role redirects to /supervisor for supervisors, otherwise to /foreman |
| App.StripTrailingSlashes | src/App.jsx:23-41 | a prefix of the path ending in no slash, with only slashes after it |
| App.RoutesAreNormal | src/App.jsx:23-41 | the three route patterns are already in normal form |
| App.Route | src/App.jsx:23-42 | matching ignores ASCII case and trailing slashes: /login renders the login screen, /foreman and /supervisor give their protected routes, unmatched paths redirect to /login, signed out reaches nothing else |
| App.CaseAndTrailingSlash | src/App.jsx:23-41 | "/Foreman/" and "/SUPERVISOR//" route as "/foreman" and "/supervisor" |
| App.NormalIdempotent | src/App.jsx:23-41 | normalising a path twice is normalising it once |
| App.RouteOfNormal | src/App.jsx:23-41 | every path routes exactly as its normal form (lower-cased, trailing slashes dropped) |
| App.Visit | src/App.jsx:23-42 | a screen reached other than the login needs a signed-in user |
| App.Settles | src/App.jsx:8-42 | signed out, every path ends at the login; as foreman or supervisor, both homes resolve to the user's own within one redirect and every path within two |
| App.OtherRolesLoop | src/App.jsx:13-32 | with any other role both homes redirect to /foreman, which redirects to itself, so no number of redirects reaches a screen |
| Text.IndexOf | netlify/functions/proportal-orders.js:12 | a position holding the character with no earlier occurrence |
| Text.Split | src/screens/SupervisorHome.jsx:77 | at least one piece, no piece holds the separator, two or more exactly when it occurs |
| Text.JoinSplit | src/screens/SupervisorHome.jsx:77 | joining the pieces of a split gives back the string |
| Text.SplitJoin | src/screens/SupervisorHome.jsx:77 | splitting a join of separator-free pieces gives back the pieces |
| Text.FirstToken | src/screens/GpsWalkScreen.jsx:66 | a prefix without spaces that ends at the first space or the end |
| Text.Contains | src/screens/GpsWalkScreen.jsx:66 | true exactly when the needle occurs at some position |
| Text.Lower | src/screens/GpsWalkScreen.jsx:63 | same length, no capital left, each capital replaced by its small letter, every other character kept |
| Text.LowerIdempotent | src/screens/GpsWalkScreen.jsx:63 | lower-casing twice is lower-casing once |
| Text.Upper | src/screens/SupervisorHome.jsx:77 | same length, no small letter left, each small letter replaced by its capital, every other character kept |
| Text.SkipSpaces | netlify/functions/proportal-measurements.js:137 | the first position from i not holding a trim character |
| Text.DropTrailingSpaces | netlify/functions/proportal-measurements.js:137 | the end of the range once its trailing trim characters are dropped |
| Text.Trim | netlify/functions/proportal-measurements.js:137 | no longer than its input, and neither starts nor ends with a trim character |
| Text.TrimSpec | netlify/functions/proportal-measurements.js:137 | the trimmed string is an infix with only trim characters around it and none at its ends |
| Text.TrimIdempotent | netlify/functions/proportal-measurements.js:182 | trimming twice is trimming once |

## Left out

- The geodesic polygon area of `@turf/area` and the one-decimal rounding `parseFloat(x.toFixed(1))` are foreign code and floating point. They are the session's parameters `turf` (a non-negative result, or none where it throws) and `round1`. All arithmetic is over `real`.
- `formatAccuracy`, `normToSVG` and all rendering are presentation.
- `navigator.geolocation.watchPosition`/`clearWatch`, effects and the unmount cleanup are browser I/O. Only the success callback is modelled (`OnSample`). The model accepts a reading in any step, and a reading appends a vertex only while walking, as in the callback.
- `handleSave` in the GPS walk screen and the save error state are a network call to the measurements endpoint; their server side is `MeasurementStore.Create`.
- `fetch`, MongoDB and `jwt.verify` are foreign calls. The collections are maps and decoding is the parameter `decode`. The submit handler's project, material and supervisor queries are parameters holding their results.
- Mongo `sort`/`limit(100)` on the orders list is in the `find` parameter, since the result order comes from the database.
- The cart and history are returned as sets of ids, without their `createdAt` descending order.
- `new ObjectId(id)` failing on a malformed id (500 "Server error") and every other 500 path are database errors and are not modelled.
- Other failures left out of the handlers: `JSON.parse` failing on a malformed body, and reading the header both as `authorization` and as `Authorization`; the model receives one header string and a parsed body.
- `Number(...)` conversions (`qty`, `areaSqFt`, `areaSqM`, `depthInches`) and `NaN` are not modelled; the body already carries numbers. `Number(areaSqM) || 0` is modelled as "absent gives 0".
- `new Date(deliveryDate)` is stored as the given string, and dates are integers (`now`). `createdAt` of the order uses the same `now`.
- `formatOrder` and `formatMeasurement` are the identity on the modelled records. Their `|| null` / `|| ''` defaults are already applied when records are created.
- The orders handler's own OPTIONS and 405 branches are not modelled separately. They have the same form as in `MeasurementStore.Handle`.
- `Text.Lower`, `Text.Upper`: ASCII case mapping only; JavaScript maps all of Unicode.
- `App.Route`: percent-encoded path segments are not decoded, and case is folded on ASCII letters only. That is exact for the three ASCII route patterns, since the router's case-insensitive match never folds a non-ASCII character onto an ASCII one.
- `Supervisor.Initials`: `n[0]` is modelled as the first character of the part, not a UTF-16 code unit (no surrogate halves).
- Loading and in-flight flags (`actionLoading`, `saving`, `saved`) and the states in the middle of an async call are not modelled. Each handler is one atomic step whose request outcome is a parameter. `ordersLoading` is modelled only at the start and the end of a fetch.
- `Supervisor.SupervisorScreen.HandleAction` requires an approve or reject action on the selected pending order. These are the only calls the screen makes, from the buttons of a pending order's detail view.
- The static dictionary `src/i18n/dict.js` is the parameter `dict`, with an English table always present.
- Not part of this model:
  - the login and profile endpoint `proportal-auth.js` (its `verifyToken` is the same as the orders one);
  - `proportal-projects.js` and `proportal-materials.js`;
  - the seeding scripts;
  - `db.js`, `api.js`, the service worker, `AuthContext.jsx`, `LoginScreen`, `ForemanHome` and the presentation components.
