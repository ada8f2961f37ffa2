# SafeOps client state: RAW and venue stores, RAW service shaping

This project models, in Dafny, two pieces of client-side logic from the SafeOps
web application. SafeOps is a workplace-safety tool that tracks venues and
Risk Assessment Worksheets (RAWs).

1. **The client state stores** (`apps/web/lib/stores/rawStore.ts`,
   `apps/web/lib/stores/venueStore.ts`). Each store holds a collection, a
   selected item and a loading flag, and exposes synchronous operations.
   The store library's `set` is a shallow top-level merge. It is modelled
   explicitly (`RawStore.Set`, `VenueStore.Set`), and every operation goes
   through it. That a store operation changes only the keys it names is then
   a consequence of the merge, not part of the definition. The RAW patch
   `{ ...r, ...p }` is given a key-wise reference definition (`RawStore.Field`
   over `RawStore.Key`), and `RawStore.Merge` is specified against it.
2. **The RAW service** (`apps/web/lib/services/rawService.ts`), without its
   backend. Each call is a pure function: it takes the backend's response as
   a parameter and returns a `Call`. A `Call` is the ordered list of requests
   the service sends plus how the call ends (returned value or thrown error).
   The clock (`new Date().toISOString()`) is a `now` string parameter. The
   update objects of submit, approve and reject, applied to a
   `raw_submissions` row, form a small status state machine (`RawService.Step`).
   No transition checks the current status.

Modules: `Optional` (the `Option` type and JavaScript truthiness of optional
strings), `Seqs` (prepend and counting), `Ratings` (the shared severity,
risk-level and likelihood scales), `RawStore`, `VenueStore`, `RawService`.

Modelling decisions:

- A key that is absent, `undefined` or `null` is `None`. `Partial<RAW>` is
  `RawStore.RawPatch`, where every key is an `Option` of the field's type.
- `RAW.hazards` is optional, although the interface declares it always
  present. RAWs shaped by `getAllRAWs` have no `hazards` key, because that
  query selects `*, venues (name)` only. The detail page itself reads
  `raw.hazards || []`.
- The service returns the backend row (`RawService.RawRow`) where the source
  casts it `as RAW`. The row includes the approval columns
  (`approver_id`, `approved_at`, `approver_comments`) that approve and reject
  write; the RAW interface does not declare them.
- JavaScript numbers that are only carried, never computed with, are `int`
  (`rpn`, `critical_issues_count`) or `real` (coordinates).

What the code lets happen with a RAW's status:

- No transition checks the current status (`RawService.TransitionsIgnoreStatus`).
  Submit, approve and reject each reach their target status from any status.
- Every `submitRAW` overwrites `submitted_at`, so a RAW submitted twice
  keeps only the later time (`RawService.ResubmitOverwritesSubmittedAt`).
- Reject writes no timestamp. A RAW that is approved and then rejected
  therefore keeps its `approved_at` (`RawService.RejectAfterApproveKeepsApprovedAt`).
- A recorded approver is guaranteed only after an approve or reject
  transition (`RawService.StepRecordsDecision`). `createRAW` inserts whatever
  status it is given, and the service's `updateRAW` sends any fields. Either
  can leave a RAW approved or rejected with no approver.

## Model

| member | source | states |
|---|---|---|
| RawStore.Initial | apps/web/lib/stores/rawStore.ts:37-40 | the store starts with no RAWs, no selection and loading off |
| RawStore.SetRAWs | apps/web/lib/stores/rawStore.ts:41 | the merge of `{ raws }` replaces the list and leaves the selection and flag as they were |
| RawStore.SetSelectedRAW | apps/web/lib/stores/rawStore.ts:42 | replaces only the selection |
| RawStore.SetLoading | apps/web/lib/stores/rawStore.ts:43 | replaces only the loading flag |
| RawStore.AddRAW | apps/web/lib/stores/rawStore.ts:44 | the new RAW is at index 0, the length grows by one, the old RAWs follow in order, selection and flag unchanged |
| RawStore.AddRAWKeepsDuplicates | apps/web/lib/stores/rawStore.ts:44 | no deduplication: the count of RAWs with the added id grows by one, so an id already present is then listed twice |
| RawStore.Merge | apps/web/lib/stores/rawStore.ts:47 | shallow merge: for every key, the merged RAW holds the patch's value if the patch carries that key, else the old value |
| RawStore.MergeEmpty | apps/web/lib/stores/rawStore.ts:47 | merging `{}` leaves a RAW unchanged |
| RawStore.MergeIdempotent | apps/web/lib/stores/rawStore.ts:47 | merging a patch twice equals merging it once |
| RawStore.MergeThen | apps/web/lib/stores/rawStore.ts:47 | merging p then q equals merging the combined patch `{...p, ...q}` |
| RawStore.PatchAll | apps/web/lib/stores/rawStore.ts:47 | the `map` keeps length and order, merges the patch into every RAW with the id, and leaves every other RAW unchanged |
| RawStore.UpdateRAW | apps/web/lib/stores/rawStore.ts:45-48 | length and order kept; RAWs with another id unchanged; every RAW with the id, duplicates included, takes the patch's keys and keeps the rest; no match leaves the list identical; selection and flag unchanged |
| RawStore.UpdateRAWIdempotent | apps/web/lib/stores/rawStore.ts:45-48 | repeating an update changes nothing more, even when the patch rewrites the id |
| RawStore.UpdateRAWThen | apps/web/lib/stores/rawStore.ts:45-48 | two updates of one id compose into one update with the combined patch, if the first keeps the id |
| RawStore.UpdateRAWLosesMovedRaw | apps/web/lib/stores/rawStore.ts:45-48 | after a patch moves the RAWs with an id to another id, every later update by the old id leaves the list unchanged |
| RawStore.UpdateRAWLeavesSelectionStale | apps/web/lib/stores/rawStore.ts:45-48 | an update that changes the selected RAW's list entry leaves `selectedRAW` holding the old value |
| VenueStore.Initial | apps/web/lib/stores/venueStore.ts:38-41 | the store starts with no venues, no selection, no hazards and loading off |
| VenueStore.SetVenues | apps/web/lib/stores/venueStore.ts:42 | replaces the venue list wholesale and nothing else |
| VenueStore.SetSelectedVenue | apps/web/lib/stores/venueStore.ts:43 | replaces only the selection |
| VenueStore.SetVenueHazards | apps/web/lib/stores/venueStore.ts:44 | replaces only the hazard list |
| VenueStore.SetLoading | apps/web/lib/stores/venueStore.ts:45 | changes only the flag, never the collections |
| VenueStore.AddVenue | apps/web/lib/stores/venueStore.ts:46 | the new venue is at index 0, the length grows by one, the old venues follow in order, selection, hazards and flag unchanged |
| VenueStore.AddVenueKeepsDuplicates | apps/web/lib/stores/venueStore.ts:46 | no deduplication by id: an id already present is listed twice afterwards |
| RawService.AllRAWsQuery | apps/web/lib/services/rawService.ts:6-15 | selects from `raw_submissions` with the `venues(name)` join, newest update first; a `user_id` filter is present if and only if `userId` is truthy, and it is the only filter |
| RawService.ListViewOfRow | apps/web/lib/services/rawService.ts:19-22 | a shaped list RAW keeps the row's declared columns; `venue_name` is the joined venue's name, absent when there is no join; it has no hazards |
| RawService.ShapeRows | apps/web/lib/services/rawService.ts:19-22 | rows map one to one onto RAWs, length and order preserved |
| RawService.GetAllRAWs | apps/web/lib/services/rawService.ts:15-22 | one select; a backend error is thrown; null data is an empty list; otherwise one shaped RAW per row, in order |
| RawService.RAWByIdQuery | apps/web/lib/services/rawService.ts:26-34 | a single-row select filtered on `id`, with the `venues(name)` join and all `raw_hazards` |
| RawService.GetRAWById | apps/web/lib/services/rawService.ts:36-45 | never throws; null if and only if the backend reports an error; otherwise the list shaping plus `hazards` = `raw_hazards`, or an empty list when missing |
| RawService.CreatePayload | apps/web/lib/services/rawService.ts:52-57 | owner and venue as given; status as given or `'draft'`; risk level as given or `'medium'` |
| RawService.CreatePayloadDropsViewFields | apps/web/lib/services/rawService.ts:52-57 | the payload depends on user, venue, status and risk level only; `hazards` and `venue_name` are dropped |
| RawService.CreateRAW | apps/web/lib/services/rawService.ts:49-63 | one insert of the payload; the stored row is returned, or the backend's own error is thrown |
| RawService.UpdateRAW | apps/web/lib/services/rawService.ts:66-75 | the updates are sent unchanged for the row with that id; the row is returned, or the backend's own error is thrown |
| RawService.SubmitPatch | apps/web/lib/services/rawService.ts:81-84 | writes exactly `status` = submitted and `submitted_at` = now |
| RawService.SubmittedNotification | apps/web/lib/services/rawService.ts:92-100 | the notification goes to the submitter, with type `'raw_submitted'` and `related_id` = the RAW id |
| RawService.SubmitRAW | apps/web/lib/services/rawService.ts:78-102 | the status update is sent first; on error it is thrown and no notification is sent; on success exactly one notification insert follows and the updated row is returned |
| RawService.SubmitIgnoresNotificationError | apps/web/lib/services/rawService.ts:92-102 | the notification insert's result never changes what submit does |
| RawService.ApprovePatch | apps/web/lib/services/rawService.ts:108-112 | writes exactly `status` = approved, `approver_id` and `approved_at` = now |
| RawService.ApproveRAW | apps/web/lib/services/rawService.ts:105-118 | one update of that id with the approve patch; the row is returned, or the backend's own error is thrown |
| RawService.RejectPatch | apps/web/lib/services/rawService.ts:124-128 | writes exactly `status` = rejected, `approver_id` and `approver_comments`; no timestamp |
| RawService.RejectRAW | apps/web/lib/services/rawService.ts:121-134 | one update of that id with the reject patch; the row is returned, or the backend's own error is thrown |
| RawService.TransitionsIgnoreStatus | apps/web/lib/services/rawService.ts:78-134 | from every current status, each transition reaches its target, and the result does not depend on the old status |
| RawService.StepKeepsOtherColumns | apps/web/lib/services/rawService.ts:81-128 | a transition changes only the columns its update names: id, owner, venue, risk level and timestamps never change, and `submitted_at`, `approver_id`, `approved_at` and `approver_comments` change only when written |
| RawService.StepRecordsDecision | apps/web/lib/services/rawService.ts:108-128 | after an approve transition the row is approved, with the approver and approval time recorded; after a reject transition it is rejected, with the approver and comments recorded; this holds whatever the row held before |
| RawService.ResubmitOverwritesSubmittedAt | apps/web/lib/services/rawService.ts:81-84 | submitting again overwrites `submitted_at`; it is not set only once |
| RawService.RejectAfterApproveKeepsApprovedAt | apps/web/lib/services/rawService.ts:108-128 | a RAW approved and then rejected is rejected but still carries `approved_at` |
| RawService.AddHazardToRAW | apps/web/lib/services/rawService.ts:137-145 | one insert of the hazard as given; the row is returned, or the backend's own error is thrown |
| RawService.RAWHazardsQuery | apps/web/lib/services/rawService.ts:149-153 | selects the hazards of one RAW, highest RPN first |
| RawService.GetRAWHazards | apps/web/lib/services/rawService.ts:155-156 | the backend's own error is thrown; null data is an empty list; otherwise the rows as returned |
| RawService.DeleteRAW | apps/web/lib/services/rawService.ts:159-162 | one delete of the row with that id; the backend's own error is thrown |

## Left out

- The backend client: query execution, the meaning of `.eq`, `.single` and `.order`, server-side sorting, and foreign-key enforcement. It is an external library, so each call takes the backend's response as a parameter, and queries are modelled as data (`RawService.Query`). `RawService.ApplyRowPatch` is only this model's reading of what an update object asks for. It is used to state the status state machine.
- The clock: `new Date().toISOString()` becomes a `now` string parameter.
- `console.error` in `getRAWById`: logging only.
- The notification insert's error (rawService.ts:92). It is ignored, and the model takes it as a parameter that has no effect.
- A `Partial<RAW>` key that is present but holds `undefined`: the spread would copy the `undefined` over. The model has no such value for keys whose type is not optional.
- Columns a fetched row carries beyond the declared RAW fields (the approval columns and the nested `venues` object) are copied by the spread. The shaped `RAW` record keeps only the declared fields.
- `async`/`await`, React rendering, routing and the realtime subscriptions in the pages: UI and event-loop plumbing outside these files.
- `venueService.ts`, `authService.ts`, the API server, the seed script and the shared type declarations: pass-throughs, HTTP wiring or I/O.
- RPN computation: the source never computes an RPN; it is only carried.
