# NextLevel order management, modelled in Dafny

NextLevel is a small web shop for design work: logos, flyers, branding and video
editing. A client walks through a funnel: service, then package, then add-ons,
then a project brief, then payment. The funnel posts a new order. Staff then
assign the order, confirm or refuse its payment, change its status and deliver
files. An Express server keeps users, orders, chat messages and an audit log in
SQLite.

The model covers three parts:

- **Catalogue.** The fixed price tables of `src/constants.ts` are constant
  sequences (`catalogue.dfy`).
- **Funnel.** The app's funnel state is a class whose methods are the screen
  handlers (`funnel.dfy`). Its pure parts live in their own modules:
  - the add-on toggle (`selection.dfy`);
  - the two totals and the priority (`pricing.dfy`);
  - the staff PATCH bodies (`staff_actions.dfy`).
- **Server.** The four tables are sequences of rows in a `Database` class, with
  one method per handler (`store.dfy`). It is supported by:
  - what each SELECT returns (`queries.dfy`);
  - `ORDER BY created_at` and `LIMIT` (`listing.dfy`);
  - the column-by-column effect of PATCH (`order_patch.dfy`).

`lifecycle.dfy` runs the staff bodies through the server's PATCH. The result is
the order lifecycle the app actually exhibits.

Conventions of the model:

- **Absent values.** JavaScript `null`/`undefined` are `Option.None`.
- **Truthiness.** A truthiness test on a string means "present and non-empty";
  on a number it means "present and non-zero".
- **Ids.** SQLite's AUTOINCREMENT ids are row positions plus one, because no row
  is ever deleted.
- **Timestamps.** `CURRENT_TIMESTAMP` is a `now` parameter of each handler.
- **Foreign keys.** The schema declares FOREIGN KEY clauses. The server opens
  the database with better-sqlite3 (server.ts:3), whose bundled SQLite enforces
  them by default: that is `Database.foreignKeys == true`. The value `false`
  covers a driver built without that default, where the clauses are ignored.
- **Failures.** A statement that violates an enforced key throws inside the
  handler. It changes nothing and the reply is Express's 500.
- **SQL ordering.** SQL leaves the order of rows with equal `created_at`
  unspecified. So a listing is specified as a permutation of the selected rows
  that is sorted, and the sort used is stable.

What the code does, in the places where a reader might expect otherwise:

- **No checks on who or what changes an order.** The server checks no role
  and no order of statuses: PATCH writes whatever it receives, so a completed
  order can go back to `pending_validation` (`Lifecycle.StatusCanGoBack`,
  `OrderPatch.StatusWrittenUnconditionally`). "Valider" always sends status
  `paid`, whatever the current status (`Lifecycle.ConfirmMakesPaid`). A refused
  order can still be delivered and completed (`Lifecycle.RefusedYetCompleted`).
  Only the screens restrict who may click what
  (`Lifecycle.GuardedOnlyAdminDecides`), and they judge the payment buttons on
  their own copy of the order: a decided payment stays decided only while that
  copy is up to date (`Lifecycle.GuardedPaymentSettles`). Two admin screens
  opened on a pending payment can confirm it and then refuse it
  (`Lifecycle.TwoScreensOverturnPayment`).
- **Priority.** The priority rule looks for an add-on whose id is `urgent`,
  while the express add-on's id is `express`. So every selection from the
  catalogue gets priority `normal` (`Pricing.CatalogueSelectionIsNormal`,
  `Pricing.ExpressIsNotUrgent`, `Store.FunnelPriorityStored`).
- **Delivered files.** The delivery upload sends the screen's copy of the
  delivered files plus the new one, and the server overwrites the column with
  that list. A copy older than the row drops the files it lacks, including
  files the upload itself stored (`Lifecycle.StaleCopyDropsFile`,
  `Lifecycle.StaleCopyDropsUpload`); files only accumulate while each delivery
  is made from an up-to-date copy (`Lifecycle.ReplayKeepsDeliveredFiles`).
- **Audit entries.** Only register, login and order creation write an audit
  entry; PATCH and messages write none.
- **Status values.** `src/types.ts` declares status unions that differ from the
  schema. The schema's values are used (`pending_validation`, `paid`,
  `production`, `completed`; payment `pending`, `confirmed`, `refused`).

## Model

| member | source | states |
|---|---|---|
| `Values.DecimalText` | server.ts:163 | the id printed in an audit message is a string of decimal digits that denotes the id, with no leading zero |
| `Store.CreatedDetailsNamesOrder` | server.ts:163 | the order-created audit text holds the new id's digits between its fixed head and tail, so distinct orders get distinct texts |
| `Catalogue.AllPackages` | src/constants.ts:3-44 | the catalogue holds twelve packages, and every package of every service is among them |
| `Catalogue.UpsellIdsDistinct` | src/constants.ts:46-52 | no two add-ons share an id |
| `Catalogue.NoUpsellIsUrgent` | src/constants.ts:46-52 | no add-on has the id `urgent` |
| `Catalogue.PackageIdsDistinct` | src/constants.ts:3-44 | package ids are distinct across all services |
| `Catalogue.ThreePackagesPerService` | src/constants.ts:3-44 | every service offers exactly three packages |
| `Catalogue.PricesPositive` | src/constants.ts:9-51 | every package and add-on has positive USD and HTG prices |
| `Selection.HasId` | src/App.tsx:300 | true exactly when some selected add-on has the id |
| `Selection.RemoveId` | src/App.tsx:301 | keeps exactly the entries whose id differs, and never grows the list |
| `Selection.Toggle` | src/App.tsx:299-305 | the clicked id becomes present exactly when it was absent; every other entry stays; nothing but the clicked add-on is added |
| `Selection.RemoveIdAppend` | src/App.tsx:301 | filtering distributes over concatenation, so the kept entries keep their order |
| `Selection.ToggleAbsentAppends` | src/App.tsx:302-303 | toggling an absent id appends the add-on at the end |
| `Selection.TogglePresentRemoves` | src/App.tsx:300-301 | toggling a present id removes every entry with it and keeps the others in order |
| `Selection.ToggleKeepsDistinct` | src/App.tsx:299-305 | distinct ids before a toggle stay distinct after it |
| `Selection.ToggleTwiceRestores` | src/App.tsx:299-305 | toggling an absent add-on twice restores the selection |
| `Pricing.PriorityOf` | src/App.tsx:328 | `urgent` exactly when some selected add-on has the id `urgent`, otherwise `normal` |
| `Pricing.OptionsSumAppend` | src/App.tsx:307-308 | the add-on sum of a concatenation is the sum of the sums |
| `Pricing.OptionsSumReadsOneCurrency` | src/App.tsx:307-308 | each total reads only its own currency's prices, with no conversion |
| `Pricing.CatalogueSumNonNegative` | src/App.tsx:307-308 | the add-on sum of a catalogue selection is not negative |
| `Pricing.CatalogueTotalPositive` | src/App.tsx:307-308 | with a catalogue package, the total is at least the package price and positive |
| `Pricing.ToggleOnAddsPrice` | src/App.tsx:299-308 | selecting an absent add-on raises the total by its price |
| `Pricing.RemoveOnlyEntry` | src/App.tsx:301-308 | removing the only entry with an id lowers the sum by its price |
| `Pricing.ToggleOffSubtractsPrice` | src/App.tsx:299-308 | deselecting an add-on lowers the total by its price |
| `Pricing.CatalogueSelectionIsNormal` | src/App.tsx:328 | any selection drawn from the catalogue gets priority `normal` |
| `Pricing.ExpressIsNotUrgent` | src/App.tsx:328 | choosing Livraison Express leaves the priority `normal` |
| `Pricing.LogoBasicWithExpress` | src/App.tsx:307-308 | Logo Basic with Livraison Express totals 50 USD and 6600 HTG |
| `Funnel.MethodId` | src/App.tsx:695-702 | a payment method is recorded as `moncash`, `natcash` or `stripe` |
| `Funnel.Funnel.constructor` | src/App.tsx:220-247 | the component starts on the home screen, logged out, with nothing chosen and the default brief |
| `Funnel.Funnel.Navigate` | src/App.tsx:443-527 | a back or navigation button changes the screen and nothing else |
| `Funnel.Funnel.ChooseService` | src/App.tsx:450 | a service card stores the service and opens the package screen |
| `Funnel.Funnel.ChoosePackage` | src/App.tsx:470 | a package card stores the package and opens the add-on screen |
| `Funnel.Funnel.ToggleOption` | src/App.tsx:299-305 | a click toggles the add-on, keeps ids distinct and changes nothing else |
| `Funnel.Funnel.EditBrief` | src/App.tsx:537-592 | the brief form replaces the brief and nothing else |
| `Funnel.Funnel.SendBrief` | src/App.tsx:609-614 | disabled while company name or description is empty; otherwise opens the login screen when logged out and payment when logged in |
| `Funnel.Funnel.AuthAnswered` | src/App.tsx:358-373 | a successful auth reply logs the user in and shows home; a failure changes nothing |
| `Funnel.Funnel.ChoosePaymentMethod` | src/App.tsx:702 | stores the chosen payment method |
| `Funnel.Funnel.EnterTransactionId` | src/App.tsx:738 | stores the transaction id |
| `Funnel.Funnel.AttachProof` | src/App.tsx:748-756 | stores the proof as read |
| `Funnel.Funnel.Submit` | src/App.tsx:310-329 | a body is sent exactly when the button is enabled and a user is logged in; it is the order data of the funnel state: the user's id, the service id and package name, the two totals, the selection, the brief, the chosen method's id, the transaction id and the proof, status `pending_validation`, and priority `urgent` exactly when some add-on has id `urgent`; a catalogue selection sends `normal` |
| `Funnel.Funnel.SubmissionAnswered` | src/App.tsx:337-341 | a successful reply opens the confirmation screen; a failure changes nothing |
| `StaffActions.StatusChange` | src/App.tsx:281-288 | the status menu sends only the status, accepted by PATCH when non-empty |
| `StaffActions.AssignEmployee` | src/App.tsx:290-297 | the assignee menu always sends a body PATCH accepts, even for "Choisir..." |
| `StaffActions.ConfirmPayment` | src/App.tsx:1103-1109 | "Valider" sends a body PATCH accepts |
| `StaffActions.RefusePayment` | src/App.tsx:1117-1123 | "Refuser" sends a body PATCH accepts |
| `StaffActions.Delivery` | src/App.tsx:1155-1166 | the delivery upload sends a body PATCH accepts |
| `Lifecycle.ConfirmMakesPaid` | src/App.tsx:1107 | after "Valider" the order is `paid`/`confirmed`, whatever its status was, and nothing else but `updated_at` changes |
| `Lifecycle.RefuseKeepsStatus` | src/App.tsx:1121 | after "Refuser" the payment is `refused` and the status is unchanged |
| `Lifecycle.AssignMakesProduction` | src/App.tsx:294 | assigning moves the order to `production`; the assignee changes only when one was picked |
| `Lifecycle.DeliveryCompletes` | src/App.tsx:1160-1166 | a delivery sets the files to the screen's copy plus the new file, and completes the order |
| `Lifecycle.StaleCopyDropsFile` | src/App.tsx:1160-1166 | a delivery stores the copy plus the new entry, so a stored file the copy lacks, other than the new entry, is no longer in the row |
| `Lifecycle.StaleCopyDropsUpload` | src/App.tsx:1158-1166 | a file the upload itself stored (url `#`) is lost when another file is delivered from a copy made before it |
| `Lifecycle.StatusCanGoBack` | server.ts:196 | a completed order can be set back to `pending_validation` |
| `Lifecycle.RefusedYetCompleted` | server.ts:196-198 | refusing the payment and then delivering leaves a refused but completed order |
| `Lifecycle.EmptyStatusIgnored` | server.ts:196 | an empty status is refused with 400 and changes nothing |
| `Lifecycle.ReplayKeepsOrderTerms` | server.ts:191-207 | no sequence of staff actions changes the client, choices, prices, brief, payment details, priority, feedback or creation time |
| `Lifecycle.ReplayPaymentStatus` | server.ts:198 | after any staff actions the payment status is the initial one, `confirmed` or `refused` |
| `Lifecycle.ReplayKeepsDeliveredFiles` | src/App.tsx:1160-1166 | while every delivery is made from an up-to-date copy, files already delivered stay a prefix of the delivered files |
| `Lifecycle.ReplayCountsDeliveries` | src/App.tsx:1160-1166 | while every delivery is made from an up-to-date copy, each delivery adds exactly one file |
| `Lifecycle.GuardedPaymentSettles` | src/App.tsx:1100 | while the screen's guards hold and its copy is up to date, a payment that is no longer pending never changes again |
| `Lifecycle.TwoScreensOverturnPayment` | src/App.tsx:1100-1123 | two admin screens that both show a pending payment pass the guards and turn a confirmed payment into a refused one |
| `Lifecycle.GuardedOnlyAdminDecides` | src/App.tsx:1100 | with the screen's guards, staff other than an admin never change the payment status |
| `OrderPatch.Updates` | server.ts:193-203 | the SET list is empty exactly when no field is supplied, and holds at most six entries |
| `OrderPatch.FirstThreeUpdates` | server.ts:196-198 | the first three pushes set status, assignee and payment status when supplied |
| `OrderPatch.LastThreeUpdates` | server.ts:199-201 | the last three pushes set priority, delivery files and feedback when supplied |
| `OrderPatch.UpdatesYieldPatched` | server.ts:196-207 | running the SET list with `updated_at` last gives the column-by-column reference row |
| `OrderPatch.PatchedFrame` | server.ts:191-207 | a patchable column changes exactly when its field is supplied; every other column keeps its value and `updated_at` is the clock |
| `OrderPatch.StatusWrittenUnconditionally` | server.ts:196 | a supplied status is written whatever the current status is |
| `Listing.SortNewestFirst` | server.ts:181 | `ORDER BY created_at DESC` returns the same rows, newest first |
| `Listing.SortOldestFirst` | server.ts:221 | `ORDER BY created_at ASC` returns the same rows, oldest first |
| `Listing.LimitKeepsNewest` | server.ts:238 | after `LIMIT`, no row left out is newer than a row kept |
| `Queries.OrderListingExact` | server.ts:169-179 | the order query selects exactly the orders passing both filters whose client exists, joined with the names |
| `Queries.OrdersOfExact` | server.ts:187 | a user's listing holds exactly that user's orders |
| `Queries.ThreadExact` | server.ts:216-220 | the thread holds exactly the order's messages whose sender exists, joined with the sender's name and role |
| `Queries.AuditTrailExact` | server.ts:234-237 | the audit view holds exactly the entries whose user exists, with the user's name |
| `Queries.StaffOfExact` | server.ts:151 | the staff listing holds exactly the employees and admins, without passwords |
| `Store.NewRowDefaults` | server.ts:158-161 | a new order is `pending_validation`/`pending`, unassigned, undelivered, with priority `normal` unless one is supplied |
| `Store.SentStatusIgnored` | server.ts:157-161 | the status in a new-order body has no effect |
| `Store.FunnelPriorityStored` | src/App.tsx:328 | the funnel's priority is stored as sent, so a catalogue selection is stored as `normal` |
| `Store.Database.constructor` | server.ts:10-64 | the database starts with four empty tables |
| `Store.Database.LogAction` | server.ts:80-82 | appends one audit entry and leaves earlier entries and other tables unchanged |
| `Store.Database.FindByEmail` | server.ts:105 | finds a user with the email exactly when one exists |
| `Store.Database.Register` | server.ts:90-101 | an email in use answers 400 and adds nothing; otherwise adds one client and one REGISTER entry and answers the user without the password |
| `Store.Database.Login` | server.ts:103-113 | succeeds exactly when a user has that email and password, adding one LOGIN entry; otherwise 401 and no entry |
| `Store.Database.CreateOrder` | server.ts:156-165 | appends the new row with its defaults and one ORDER_CREATED entry and answers the new id |
| `Store.Database.ListOrders` | server.ts:167-184 | the matching orders with names, as a permutation, newest first |
| `Store.Database.ListUserOrders` | server.ts:186-189 | the user's orders, as a permutation, newest first |
| `Store.Database.ListMessages` | server.ts:215-224 | the order's thread, as a permutation, oldest first |
| `Store.Database.ListAuditLogs` | server.ts:233-241 | at most a hundred entries of the audit view, newest first, none newer left out |
| `Store.Database.ListStaff` | server.ts:150-153 | the employees and admins in table order |
| `Store.Database.CollectUpdates` | server.ts:192-202 | the pushes build the reference SET list |
| `Store.Database.RunUpdates` | server.ts:205-207 | the UPDATE runs the SET list on the row first to last |
| `Store.Database.Patch` | server.ts:191-212 | 400 with no supplied field; otherwise the order with the id, if any, becomes the reference row and nothing else changes |
| `Store.Database.PostMessage` | server.ts:226-230 | appends one message of type `text` unless another type is given |

## Left out

- The Express and Vite setup, static serving and `app.listen`: I/O plumbing.
- `GET /api/health`: it returns a constant.
- The admin statistics endpoint (`GET /api/admin/stats/advanced`): SQL
  aggregates over dates and the current clock.
- The employee seeding at start-up: the model's database starts empty.
- SQLite itself: the schema DDL becomes four sequences with the same defaults
  and the same unique email.
- `JSON.stringify` and `JSON.parse` of `options`, `brief`, `delivery_files` and
  `feedback`: these columns hold structured values.
- The `REAL` price columns: prices are integers, since every catalogue price is
  integral.
- Values of the wrong JSON type: a body field or URL parameter is its intended
  type (a string, an integer, or absent). Route parameters that are not numbers
  are not modelled.
- An absent email or password in register or login: both are always strings,
  so SQLite's acceptance of several NULL emails is not modelled.
- React rendering, translations, charts and the navbar's mock login: these are
  UI code.
- The `fetch` calls and the effects that re-fetch lists: network code. The
  funnel's `Submit` returns the body it would post. `SubmissionAnswered` and
  `AuthAnswered` take the reply as a parameter.
- `FileReader` and the mock reference upload: browser APIs. `AttachProof`
  receives the data URL already read.
- The staff screens' chat input: UI state only.
- The staff screens' local copy of the selected order is not a state of the
  model. Each click carries what the copy shows instead: the payment status
  for "Valider" and "Refuser", the delivered files for an upload. So a stale
  copy is expressible, and `Lifecycle.FreshCopies` states when every copy is
  up to date.
- The status unions of `src/types.ts`: declarations only.
- `Listing.SortNewestFirst`: it states sortedness and permutation, not the
  particular order SQLite gives to rows with equal timestamps, which SQL leaves
  unspecified.
