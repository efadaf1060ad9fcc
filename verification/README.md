# PANEL-V3 order panel — a Dafny model

PANEL-V3 is a Next.js back office for a food-ordering business. Orders arrive in
an active collection and a history collection (MongoDB). The dashboard's live
view polls the active orders every ten seconds. It raises a "new order" alert
when the poll holds an order number that was absent from the previous poll's
view. An order deleted from the view and posted again raises it again. An operator proposes
a status per order and commits it: the commit goes to the order API and to an
external customer-notification endpoint. A committed `Enviado` removes the
order from the view. The history page lists past orders with a case-insensitive
status badge, and a switch per row adds the customer's phone to the blacklist
or removes it.

This project models that core:

- **`LiveOrders`** (`live_orders.dfy`): the live view's record list, its refresh
  merge, new-order detection, proposal, commit and delete transforms, and its
  case-sensitive status styling. `LiveOrderView` is the page state with its
  handlers. HTTP answers are statuses passed in.
- **`HistoryPage`** (`history_page.dfy`): the history page's case-insensitive
  badge styling, `formatStatus`, the blacklist switch and its request body.
  `HistoryPageState` is the page state.
- **`BlacklistApi`**, **`HistoryApi`**, **`OrdersApi`**, **`SubscribeApi`**,
  **`RegisterApi`** and **`CheckAuth`**: the API handlers. Each MongoDB
  collection a handler writes is a `seq` field of a class. A failed external
  call or database write is a boolean parameter.
- **`Store`**: the document type and `sort({ fecha: -1 })`, modelled as an
  insertion sort proved sorted and a permutation.
- **`Text`**: ASCII case mapping and JavaScript truthiness.
- **`Badges`**: the Tailwind badge styles.

The model records this behaviour, which follows from the source:

- The live view lower-cases a committed status, but its badge switch
  compares case-sensitively against `Cancelado`. So a committed `Cancelado`
  shows the gray default badge (`CommittedCanceladoIsGray`).
- The token is the second space-separated field of the header. So
  `Bearer  x`, with two spaces, yields the empty token
  (`DoubleSpaceGivesEmptyToken`). A verifier that refuses the empty token, as
  `jwt.verify` does, then answers 401 (`EmptyTokenRefused`).
- Nothing in the live view sets the `selected` flag. It is carried by the
  merge but stays false on every record (`SelectedStaysFalse`).
- Posting the same order twice stores it twice (`DuplicatePostsCoexist`).

## Model

| member | source | states |
|---|---|---|
| Text.Lower | pages/dashboard/historial-pedidos.tsx:111 | `toLowerCase` keeps the length and maps each character through the ASCII lower-case map |
| Text.LowerIdempotent | pages/dashboard/historial-pedidos.tsx:111 | lower-casing twice is lower-casing once |
| Store.InsertDesc | pages/api/pedidos/index.ts:11-14 | inserting into a list sorted by `fecha` descending keeps it sorted, adds exactly the new document (multiset) and grows by one |
| Store.SortByFechaDesc | pages/api/historial.ts:16-19 | `sort({ fecha: -1 })` returns the same documents (multiset equality) in non-increasing `fecha` order |
| LiveOrders.IndexOf | pages/dashboard/pedidos-recientes.tsx:72-73 | `find` by order number: the first matching position, or the length when no record matches |
| LiveOrders.Merge | pages/dashboard/pedidos-recientes.tsx:69-74 | after a poll, the view is exactly the fetched records in fetched order. Every field but `atendido`/`selected` comes from the fetch. The two flags come from the first previous record with that number, or are false when there is none |
| LiveOrders.NewOrders | pages/dashboard/pedidos-recientes.tsx:76-78 | the new orders are exactly the updated records whose number is absent from the previous view |
| LiveOrders.NewOrderAlert | pages/dashboard/pedidos-recientes.tsx:76-83 | the alert is raised if and only if the fetch holds an order number the previous view did not have |
| LiveOrders.MergeIdempotent | pages/dashboard/pedidos-recientes.tsx:69-86 | a second poll returning the same records leaves the view unchanged |
| LiveOrders.RepollRaisesNoAlert | pages/dashboard/pedidos-recientes.tsx:76-83 | a second poll returning the same records raises no alert |
| LiveOrders.IndexOfSameNumbers | pages/dashboard/pedidos-recientes.tsx:72-73 | `find` by number depends only on the order numbers, position by position |
| LiveOrders.Propose | pages/dashboard/pedidos-recientes.tsx:143-147 | records with that number get the proposed status and are marked attended; nothing else changes |
| LiveOrders.ProposeIdempotent | pages/dashboard/pedidos-recientes.tsx:143-147 | proposing the same status twice equals proposing it once |
| LiveOrders.ProposeLastWins | pages/dashboard/pedidos-recientes.tsx:143-147 | a later proposal for the same order replaces the earlier one |
| LiveOrders.PollAfterProposeKeepsAttended | pages/dashboard/pedidos-recientes.tsx:69-74 | a poll after a proposal keeps the order attended, but the proposal is replaced by the fetched record's value |
| LiveOrders.Committed | pages/dashboard/pedidos-recientes.tsx:195-199 | records with that number take the lower-cased status, drop the proposal and are attended; the others are unchanged |
| LiveOrders.CommitClearsProposal | pages/dashboard/pedidos-recientes.tsx:195-199 | committing after proposing leaves the same list as committing alone |
| LiveOrders.Without | pages/dashboard/pedidos-recientes.tsx:126 | the delete filter keeps exactly the records with another number, and is the identity when the number is absent |
| LiveOrders.WithoutAppend | pages/dashboard/pedidos-recientes.tsx:126 | the filter distributes over concatenation, so the remaining records keep their order |
| LiveOrders.WithoutSize | pages/dashboard/pedidos-recientes.tsx:126 | the filter removes exactly as many records as carry that number |
| LiveOrders.WithoutIdempotent | pages/dashboard/pedidos-recientes.tsx:126 | deleting twice equals deleting once |
| LiveOrders.SelectedStaysFalse | pages/dashboard/pedidos-recientes.tsx:69-74 | merge, propose, commit and delete all keep every record's `selected` flag false, so no reachable view has a selected record |
| LiveOrders.StatusColor | pages/dashboard/pedidos-recientes.tsx:218-233 | each case of the case-sensitive switch as an if-and-only-if: yellow for `pendiente`, blue for `procesando`, cyan for `listo para enviar`, green for `enviado`, red exactly for `Cancelado`, and gray exactly for every other string |
| LiveOrders.StatusIcon | pages/dashboard/pedidos-recientes.tsx:235-250 | each case as an if-and-only-if: Clock for `pendiente`, Package for `procesando`, CheckCircle for `listo para enviar` or `enviado`, XCircle for `Cancelado`, and AlertCircle for every other string |
| LiveOrders.StatusLabel | pages/dashboard/pedidos-recientes.tsx:283 | the badge text is the stored status, except `completado`, which reads `Enviado` |
| LiveOrders.CommittedCanceladoIsGray | pages/dashboard/pedidos-recientes.tsx:197 | a committed `Cancelado` is stored as `cancelado`, whose badge is gray with the AlertCircle icon, while `Cancelado` itself is red |
| LiveOrders.LiveOrderView.constructor | pages/dashboard/pedidos-recientes.tsx:39-40 | the view starts with no orders and no alert |
| LiveOrders.LiveOrderView.Poll | pages/dashboard/pedidos-recientes.tsx:44-95 | 401 and non-ok answers leave the view unchanged. An ok answer sets the view to `Merge` and raises the alert exactly when a new number arrived |
| LiveOrders.LiveOrderView.ClearAlert | pages/dashboard/pedidos-recientes.tsx:82 | the timer clears the alert and keeps the orders |
| LiveOrders.LiveOrderView.ChangeStatus | pages/dashboard/pedidos-recientes.tsx:143-147 | the view becomes `Propose` of the old view |
| LiveOrders.LiveOrderView.RemoveOrder | pages/dashboard/pedidos-recientes.tsx:103-141 | 401 and non-ok answers keep the view; an ok answer removes exactly that order's records |
| LiveOrders.LiveOrderView.SendStatus | pages/dashboard/pedidos-recientes.tsx:149-216 | Without a proposal, nothing is sent. Otherwise the PATCH request carries the number, the proposal and the phone. A PATCH whose `fetch` rejects fails the commit with no notification. A 401 on the PATCH sends no notification. Any other PATCH answer is followed by the notification, carrying the number, the proposal and the phone. Unless both answers are ok, the view is kept. `Enviado` deletes the order, mapping the DELETE outcome. Any other status is committed locally |
| HistoryPage.StatusColor | pages/dashboard/historial-pedidos.tsx:110-125 | for each badge colour: that colour if and only if the lower-cased status is in its group (gray exactly for the unlisted ones) |
| HistoryPage.StatusIcon | pages/dashboard/historial-pedidos.tsx:127-142 | for each icon: that icon if and only if the lower-cased status is in its group; never XCircle |
| HistoryPage.StylingIgnoresCase | pages/dashboard/historial-pedidos.tsx:110-142 | badge colour and icon depend only on the lower-cased status |
| HistoryPage.FormatStatus | pages/dashboard/historial-pedidos.tsx:144-151 | `completado` in any case reads `Enviado`. Any other status keeps its length, upper-cases its first character and keeps the rest. Empty stays empty |
| HistoryPage.LowerCapitalize | pages/dashboard/historial-pedidos.tsx:149 | capitalizing does not change the lower-cased text |
| HistoryPage.FormatStatusIdempotent | pages/dashboard/historial-pedidos.tsx:144-151 | formatting a formatted status changes nothing |
| HistoryPage.FormattedStatusKeepsStyle | pages/dashboard/historial-pedidos.tsx:110-151 | the formatted label gets the same badge colour and icon as the stored status |
| HistoryPage.Toggle | pages/dashboard/historial-pedidos.tsx:177-185 | the phone is in the new set if and only if the switch is on; other numbers are unaffected |
| HistoryPage.ToggleIdempotent | pages/dashboard/historial-pedidos.tsx:177-185 | applying the same switch position twice is applying it once |
| HistoryPage.ToggleUndo | pages/dashboard/historial-pedidos.tsx:177-185 | switching a number on and then off restores a set that did not hold it |
| HistoryPage.SwitchRequest | pages/dashboard/historial-pedidos.tsx:167-170 | the intent is `add` or `remove` as the switch says. The number is present if and only if some listed row has that phone, and it is then that phone |
| HistoryPage.SwitchRequestValidation | pages/dashboard/historial-pedidos.tsx:167-170 | the blacklist API accepts the switch's request if and only if the phone is non-empty and listed; otherwise it answers 400 with the missing-fields message |
| HistoryPage.HistoryPageState.constructor | pages/dashboard/historial-pedidos.tsx:37-39 | the page starts with no rows and an empty blacklist |
| HistoryPage.HistoryPageState.LoadOrders | pages/dashboard/historial-pedidos.tsx:73-90 | an ok answer replaces the rows; any other answer keeps them; the blacklist is untouched |
| HistoryPage.HistoryPageState.LoadBlacklist | pages/dashboard/historial-pedidos.tsx:92-108 | an ok answer makes the set exactly the listed numbers; any other answer keeps it |
| HistoryPage.HistoryPageState.SwitchChange | pages/dashboard/historial-pedidos.tsx:153-189 | sends `SwitchRequest`; an ok answer toggles the set and a failed one keeps it; the rows never change |
| BlacklistApi.Validate | pages/api/blacklist.ts:36-51 | the body passes if and only if number and intent are truthy and the intent is `add` or `remove`. Every rejection is a 400: the missing-fields message when a field is falsy, otherwise the invalid-intent message |
| BlacklistApi.Upsert | pages/api/blacklist.ts:42-46 | a stored number leaves the collection unchanged; a new one is appended at the end |
| BlacklistApi.FirstIndex | pages/api/blacklist.ts:48 | the position `deleteOne` matches: the first entry equal to the number, or the length |
| BlacklistApi.DeleteOne | pages/api/blacklist.ts:48 | removes exactly one occurrence (multiset difference): the first entry equal to the number is cut out and the others keep their order; an absent number leaves the collection unchanged |
| BlacklistApi.AddLeavesOne | pages/api/blacklist.ts:41-46 | on a collection without duplicates, adding keeps it duplicate-free and leaves the number exactly once |
| BlacklistApi.AddIdempotent | pages/api/blacklist.ts:42-46 | adding twice equals adding once |
| BlacklistApi.RemoveLeavesNone | pages/api/blacklist.ts:47-48 | on a collection without duplicates, removing leaves no occurrence and no duplicates |
| BlacklistApi.RemoveUndoesAdd | pages/api/blacklist.ts:41-48 | removing a number just added to a collection that lacked it restores the collection |
| BlacklistApi.DistinctCount | pages/api/blacklist.ts:42-46 | in a duplicate-free collection every entry occurs once |
| BlacklistApi.DistinctRemoval | pages/api/blacklist.ts:48 | removing one entry keeps a collection duplicate-free |
| BlacklistApi.BlacklistCollection.constructor | pages/api/blacklist.ts:16-18 | the collection starts as given, and satisfies the no-duplicates invariant when the given entries do |
| BlacklistApi.BlacklistCollection.List | pages/api/blacklist.ts:21-25 | GET lists exactly the stored numbers |
| BlacklistApi.BlacklistCollection.Handle | pages/api/blacklist.ts:20-84 | GET lists the numbers. An invalid POST answers 400 and changes nothing. A failed database write answers 500 with the store unchanged and no external call. Otherwise a valid POST applies the intent before the external call, which is sent the body; that call's failure gives 500 with the store already changed. Other methods get 405. The collection stays duplicate-free |
| HistoryApi.FormatRow | pages/api/historial.ts:22-36 | falsy `combo`, `algoMasExtra` and `estado` get their defaults, so all three are non-empty. The other fields are copied, `iD` from `ID` |
| HistoryApi.FormatAll | pages/api/historial.ts:22-36 | one formatted row per document, in order |
| HistoryApi.Handle | pages/api/historial.ts:4-38 | any method but GET gets 405, and only then; the GET rows are stated by `HistoryListing` |
| HistoryApi.HistoryListing | pages/api/historial.ts:16-38 | the listing has one row per stored document and is sorted by `fecha` descending. It is the formatting of a reordering of the stored documents |
| OrdersApi.CountAfterInsert | pages/api/pedidos/index.ts:25-26 | an insert raises the count of an order number by one exactly when the document carries it |
| OrdersApi.DuplicatePostsCoexist | pages/api/pedidos/index.ts:23-33 | the same order posted twice is stored twice; there is no duplicate check |
| OrdersApi.OrderCollections.constructor | pages/api/pedidos/index.ts:5-6 | the collections start as given |
| OrdersApi.OrderCollections.List | pages/api/pedidos/index.ts:9-16 | GET answers the active orders sorted by `fecha` descending, as a permutation |
| OrdersApi.OrderCollections.Handle | pages/api/pedidos/index.ts:8-43 | GET lists. A POST whose active insert fails answers 500 and changes nothing. Otherwise it answers 201 and appends the body to the active orders. It appends to the history with `fecha` set to now, unless that second insert fails. Other methods get 405 |
| SubscribeApi.AppendAbsentKeepsDistinct | pages/api/subscribe.ts:21-30 | appending an email not yet subscribed keeps the emails distinct |
| SubscribeApi.Subscriptions.constructor | pages/api/subscribe.ts:15-16 | the subscriptions start as given, and satisfy the distinct-emails invariant when the given emails do |
| SubscribeApi.Subscriptions.Handle | pages/api/subscribe.ts:4-40 | Non-POST requests get no answer and no change. A falsy email gets 400. A subscribed email gets 400 and no change. A new email is appended with 200, unless the insert fails, which gives 500 and no change. Emails stay distinct |
| RegisterApi.PublicView | pages/api/register.ts:44-51 | the answered user is the stored one without its password |
| RegisterApi.AppendKeepsUnique | pages/api/register.ts:20-39 | appending a user whose email is free keeps emails unique |
| RegisterApi.Users.constructor | pages/api/register.ts:16-17 | the users start as given, and satisfy the unique-email invariant when the given users do |
| RegisterApi.Users.Handle | pages/api/register.ts:8-57 | Non-POST requests get 405. A taken email gets 400, a missing password or a failed insert 500, each with no change. Otherwise one user is appended, with the password hashed at cost 10 and both timestamps set to now, and the answer is 201 with the id and public view. Emails stay unique |
| CheckAuth.Split | pages/api/check-auth.ts:10 | `split` returns at least one field, at least two when the separator occurs, and no field holds the separator |
| CheckAuth.JoinSplit | pages/api/check-auth.ts:10 | joining the fields of a split gives back the header |
| CheckAuth.UpTo | pages/api/check-auth.ts:10 | the longest separator-free prefix: a prefix without the separator, followed by the separator or the end |
| CheckAuth.SplitAt | pages/api/check-auth.ts:10 | at the first separator, the split is the prefix before it followed by the split of the rest |
| CheckAuth.SplitHead | pages/api/check-auth.ts:10 | the first field is the text up to the first separator |
| CheckAuth.TokenIsSecondField | pages/api/check-auth.ts:10 | the token of `Bearer ` + rest is the rest up to its first space |
| CheckAuth.DoubleSpaceGivesEmptyToken | pages/api/check-auth.ts:10 | two spaces after `Bearer` give the empty token |
| CheckAuth.EmptyTokenRefused | pages/api/check-auth.ts:10-17 | when the verifier refuses the empty token, a header with two spaces after `Bearer` gets 401 |
| CheckAuth.Handle | pages/api/check-auth.ts:4-19 | authenticated if and only if the header is present, starts with the exact `Bearer ` and the verifier accepts its token. The `token` of the 200 answer stands in for the decoded user the source answers |
| CheckAuth.PrefixRequired | pages/api/check-auth.ts:6-8 | an absent header, one without the exact prefix, and a lower-case `bearer` header all get 401 |
| CheckAuth.BearerAcceptedIffVerified | pages/api/check-auth.ts:6-17 | a `Bearer ` header gets 200 if and only if the verifier accepts the text up to the next space |

## Left out

- Rendering, toasts, the scroll area and every other piece of UI markup are not modelled.
- Reading the token from `localStorage`, dropping it and redirecting are not modelled. A 401 is an outcome value (`SessionExpired` and its kin); a missing token is not modelled.
- The history page's own `check-auth` round trip before loading (pages/dashboard/historial-pedidos.tsx:43-71) is not modelled; it is the redirect logic above. The server side is `CheckAuth`.
- Polling intervals and the three-second alert timeout are not modelled: `Poll` and `ClearAlert` are separate calls, and timing is not modelled.
- Concurrency is not modelled: each handler runs to completion on the current state. This covers overlapping polls and React's batched state updates.
- A rejected `fetch` (a network error) in `Poll`, `RemoveOrder`, the notification and the DELETE of `SendStatus`, `LoadOrders`, `LoadBlacklist` and `SwitchChange` takes the same path as a non-ok answer, and is modelled as a non-ok status. The PATCH of `SendStatus` is different: the notification follows only an answered PATCH, so its rejection is the separate `None` case.
- `LiveOrders.LiveOrderView.SendStatus`: the order is the record the button captured, passed in as `pedido`; it is not looked up again in the current view, and the contract does not relate the two.
- Database read failures (the 500 answers of the GET handlers) are not modelled. The stored collections are taken as readable.
- `_id` and `insertedId` assignment is not modelled: the register handler takes the new id as a parameter; the order handlers do not answer it.
- The server's PATCH and DELETE handler, pages/api/pedidos/[numeroOrden].ts, is not part of this model. Only its answer status enters `SendStatus` and `RemoveOrder`.
- The statistics, login, logout, password recovery, users and sent-orders pages and handlers are not part of this model.
- Case mapping is ASCII only; JavaScript's Unicode `toLowerCase`/`toUpperCase` beyond ASCII is not modelled.
- Store.SortByFechaDesc: `fecha` is an integer; documents without a comparable `fecha`, and MongoDB's order among equal dates, are not modelled. Any order of ties is allowed.
- `CheckAuth.Handle`: `jwt.verify` is an opaque acceptance function of the token; the decoded user answered with 200 is not modelled.
- `RegisterApi.Users.Handle`: the email is a required string; a missing email (which MongoDB would match against users without one) is not modelled. bcrypt is a function parameter.
- `RegisterApi.Users.Handle`: the handler reads the clock twice, once for `createdAt` and once for `updatedAt`; the model uses one instant `now` for both, so it does not capture the two timestamps differing.
- `RegisterApi.Users.Handle`: the body fields are strings; any other JSON value (a number, or an object that MongoDB reads as a query operator in `findOne({ email })`) is not modelled.
- `BlacklistApi.BlacklistCollection.Handle`: `number` and `intent` are strings or absent; a number or an object in the body is not modelled. A numeric `number` is stored as a number. An object such as `{ "$ne": null }` is read by MongoDB as a query operator, so a `remove` can delete an unrelated entry. The model states neither.
- `SubscribeApi.Subscriptions.Handle`: `email` is a string or absent; a non-string JSON value, which MongoDB would store as given or read as a query operator in `findOne({ email })`, is not modelled.
- `HistoryPage.HistoryPageState.SwitchChange`: `telefono` is a string; the switch is never handed an undefined phone.
- `OrdersApi.OrderCollections.Handle`: the request body is a document; it is not checked.
- The answer bodies' extra fields, the external endpoint's `executionResult` and the 405 `Allow` header are not modelled.
