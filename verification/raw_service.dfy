/** The RAW service: the requests it sends to the backend and how it shapes
    the backend's answers. The backend itself is not modelled: each call
    takes the backend's response as a parameter, and the clock is a `now`
    timestamp parameter. */
module RawService {
  import opened Optional
  import opened Ratings
  import RawStore

  type RAW = RawStore.RAW
  type RAWHazard = RawStore.RAWHazard
  type RawStatus = RawStore.RawStatus
  type RawPatch = RawStore.RawPatch

  /** The backend's answer to one request, `{ data, error }`: the data, or
      the error when one is reported. */
  datatype Response<T> = Data(data: T) | Error(message: string)

  /** How a service call ends: it returns a value or throws the backend's error. */
  datatype Outcome<T> = Returned(value: T) | Threw(error: string)

  /** A row of the `raw_submissions` relation. Besides the columns the RAW
      interface declares it has the approval columns that approve and reject
      write. */
  datatype RawRow = RawRow(
    id: string,
    user_id: string,
    venue_id: string,
    status: RawStatus,
    risk_level: Level,
    created_at: string,
    updated_at: string,
    submitted_at: Option<string>,
    approver_id: Option<string>,
    approved_at: Option<string>,
    approver_comments: Option<string>)

  /** The nested `venues (name)` object of a joined row. */
  datatype VenueRef = VenueRef(name: string)

  /** A `raw_submissions` row with the relations selected alongside it:
      `venues` is None when no venue joins, `raw_hazards` is None when the
      relation was not selected or came back missing. */
  datatype JoinedRow = JoinedRow(row: RawRow, venues: Option<VenueRef>, raw_hazards: Option<seq<RAWHazard>>)

  /** A RAW hazard before the backend assigns its id: `Omit<RAWHazard, 'id'>`. */
  datatype NewHazard = NewHazard(
    raw_id: string,
    hazard_description: string,
    severity: Level,
    likelihood: Likelihood,
    rpn: int,
    control_measures: string)

  /** The input of `createRAW`: a RAW without `id`, `created_at`, `updated_at`
      and `submitted_at`. `status` and `risk_level` are None when absent or
      falsy; no enum value is falsy, since each is a non-empty string. */
  datatype NewRAW = NewRAW(
    user_id: string,
    venue_id: string,
    status: Option<RawStatus>,
    risk_level: Option<Level>,
    hazards: Option<seq<RAWHazard>>,
    venue_name: Option<string>)

  /** The object `createRAW` inserts. */
  datatype InsertPayload = InsertPayload(user_id: string, venue_id: string, status: RawStatus, risk_level: Level)

  /** The record inserted into `notifications`; `kind` is its `type` column. */
  datatype Notification = Notification(
    user_id: string,
    title: string,
    message: string,
    kind: string,
    related_id: string)

  /** The `raw_submissions` columns the lifecycle transitions write. */
  datatype Column = Status | SubmittedAt | ApproverId | ApprovedAt | ApproverComments

  /** An update object for `raw_submissions`: each column is absent (None) or
      set to a new value. */
  datatype RowPatch = RowPatch(
    status: Option<RawStatus>,
    submitted_at: Option<string>,
    approver_id: Option<string>,
    approved_at: Option<string>,
    approver_comments: Option<string>)
  {
    /** Whether the update object names column `c`. */
    predicate Writes(c: Column)
    {
      match c
      case Status => status.Some?
      case SubmittedAt => submitted_at.Some?
      case ApproverId => approver_id.Some?
      case ApprovedAt => approved_at.Some?
      case ApproverComments => approver_comments.Some?
    }

    /** The set of columns the update object names. */
    function Written(): set<Column>
    {
      set c: Column | c in AllColumns && Writes(c)
    }
  }

  const AllColumns: set<Column> :=
    {Status, SubmittedAt, ApproverId, ApprovedAt, ApproverComments}

  /** An equality filter `.eq(column, value)`. */
  datatype Filter = Eq(column: string, value: string)

  /** An ordering `.order(column, { ascending })`. */
  datatype Order = Order(column: string, ascending: bool)

  /** A select against one relation; `single` is `.single()`. */
  datatype Query = Query(
    relation: string,
    columns: seq<string>,
    filters: seq<Filter>,
    order: Option<Order>,
    single: bool)

  /** One request sent to the backend. */
  datatype Request =
    | Select(query: Query)
    | InsertRaw(payload: InsertPayload)
    | InsertHazard(hazard: NewHazard)
    | UpdateRaw(patch: RowPatch, filter: Filter)
    | UpdateRawFields(fields: RawPatch, filter: Filter)
    | Delete(relation: string, filter: Filter)
    | InsertNotification(notification: Notification)

  /** One service call: the requests it sends, in order, and how it ends. */
  datatype Call<T> = Call(requests: seq<Request>, outcome: Outcome<T>)

  /** The outcome of a call whose answer is passed through: the data, or the
      error thrown. */
  function PassThrough<T>(resp: Response<T>): (o: Outcome<T>)
    ensures resp.Error? <==> o.Threw?
    ensures o.Threw? ==> o.error == resp.message
    ensures o.Returned? ==> o.value == resp.data
  {
    match resp
    case Data(d) => Returned(d)
    case Error(e) => Threw(e)
  }

  // ---------------------------------------------------------------------
  // getAllRAWs

  /** The query `getAllRAWs(userId)` sends: every RAW with its venue's name,
      most recently updated first, filtered to the owner only when a
      (truthy) `userId` is given. */
  function AllRAWsQuery(userId: Option<string>): (q: Query)
    ensures q.relation == "raw_submissions" && !q.single
    ensures "venues(name)" in q.columns
    ensures q.order == Some(Order("updated_at", false))
    ensures (exists f :: f in q.filters && f.column == "user_id") <==> Truthy(userId)
    ensures forall f :: f in q.filters ==> userId.Some? && f == Eq("user_id", userId.value)
  {
    Query(
      "raw_submissions",
      ["*", "venues(name)"],
      if Truthy(userId) then [Eq("user_id", userId.value)] else [],
      Some(Order("updated_at", false)),
      false)
  }

  /** The name of the joined venue, `row.venues?.name`. */
  function VenueName(j: JoinedRow): Option<string>
  {
    match j.venues
    case Some(v) => Some(v.name)
    case None => None
  }

  /** The RAW a list row shapes into: the row's own columns, plus the joined
      venue's name as `venue_name` (absent when no venue joins). The list
      query selects no hazards, so the RAW has none. */
  function ListView(j: JoinedRow): (r: RAW)
  {
    RawStore.RAW(j.row.id, j.row.user_id, j.row.venue_id, j.row.status, j.row.risk_level, None,
        j.row.created_at, j.row.updated_at, j.row.submitted_at, VenueName(j))
  }

  /** A RAW shaped from a row keeps every column of the row it declares,
      takes `venue_name` from the join, and holds no hazards. */
  lemma ListViewOfRow(j: JoinedRow)
    ensures ListView(j).id == j.row.id && ListView(j).user_id == j.row.user_id
    ensures ListView(j).venue_id == j.row.venue_id && ListView(j).status == j.row.status
    ensures ListView(j).risk_level == j.row.risk_level && ListView(j).submitted_at == j.row.submitted_at
    ensures ListView(j).created_at == j.row.created_at && ListView(j).updated_at == j.row.updated_at
    ensures ListView(j).venue_name.Some? <==> j.venues.Some?
    ensures j.venues.Some? ==> ListView(j).venue_name == Some(j.venues.value.name)
    ensures ListView(j).hazards.None?
  {
  }

  /** `rows.map(...)`: each row shaped into a RAW, one to one, in order. */
  function ShapeRows(rows: seq<JoinedRow>): (raws: seq<RAW>)
    ensures |raws| == |rows|
    ensures forall i :: 0 <= i < |rows| ==> raws[i] == ListView(rows[i])
  {
    if |rows| == 0 then [] else [ListView(rows[0])] + ShapeRows(rows[1..])
  }

  /** `getAllRAWs(userId)`: one select; a backend error is thrown, a null
      result is an empty list, and otherwise each row is shaped in order. */
  function GetAllRAWs(userId: Option<string>, resp: Response<Option<seq<JoinedRow>>>): (c: Call<seq<RAW>>)
    ensures c.requests == [Select(AllRAWsQuery(userId))]
    ensures resp.Error? ==> c.outcome == Threw(resp.message)
    ensures resp.Data? ==> c.outcome.Returned?
    ensures resp.Data? && resp.data.None? ==> c.outcome.value == []
    ensures resp.Data? && resp.data.Some? ==>
      && |c.outcome.value| == |resp.data.value|
      && forall i :: 0 <= i < |resp.data.value| ==>
           c.outcome.value[i] == ListView(resp.data.value[i])
  {
    Call(
      [Select(AllRAWsQuery(userId))],
      match resp
      case Error(e) => Threw(e)
      case Data(data) => Returned(ShapeRows(data.GetOr([]))))
  }

  // ---------------------------------------------------------------------
  // getRAWById

  /** The query `getRAWById(id)` sends: the one RAW with that id, with its
      venue's name and all its hazards. */
  function RAWByIdQuery(id: string): (q: Query)
    ensures q.relation == "raw_submissions" && q.single
    ensures q.filters == [Eq("id", id)]
    ensures "venues(name)" in q.columns && "raw_hazards(*)" in q.columns
  {
    Query("raw_submissions", ["*", "venues(name)", "raw_hazards(*)"], [Eq("id", id)], None, true)
  }

  /** The RAW a detail row shapes into: shaped as in the list, and with the
      joined hazards as `hazards`, an empty list when none came back. */
  function DetailView(j: JoinedRow): (r: RAW)
  {
    ListView(j).(hazards := Some(j.raw_hazards.GetOr([])))
  }

  /** `getRAWById(id)`: never throws. Any backend error (not found included)
      becomes null; otherwise the row is shaped with its venue's name and its
      hazards, an empty list when none came back. */
  function GetRAWById(id: string, resp: Response<JoinedRow>): (c: Call<Option<RAW>>)
    ensures c.requests == [Select(RAWByIdQuery(id))]
    ensures c.outcome.Returned?
    ensures c.outcome.value.None? <==> resp.Error?
    ensures resp.Data? ==> c.outcome.value.value.hazards == Some(resp.data.raw_hazards.GetOr([]))
    ensures resp.Data? ==> c.outcome.value.value.venue_name == VenueName(resp.data)
    ensures resp.Data? ==> c.outcome.value.value.(hazards := None) == ListView(resp.data)
  {
    Call(
      [Select(RAWByIdQuery(id))],
      match resp
      case Error(_) => Returned(None)
      case Data(data) => Returned(Some(DetailView(data))))
  }

  // ---------------------------------------------------------------------
  // createRAW, updateRAW, addHazardToRAW, getRAWHazards, deleteRAW

  /** The object `createRAW(raw)` inserts: the owner and venue as given, the
      status or `'draft'`, the risk level or `'medium'`. */
  function CreatePayload(raw: NewRAW): (p: InsertPayload)
    ensures p.user_id == raw.user_id && p.venue_id == raw.venue_id
    ensures raw.status.Some? ==> p.status == raw.status.value
    ensures raw.status.None? ==> p.status == RawStore.Draft
    ensures raw.risk_level.Some? ==> p.risk_level == raw.risk_level.value
    ensures raw.risk_level.None? ==> p.risk_level == Level.Medium
  {
    InsertPayload(raw.user_id, raw.venue_id, raw.status.GetOr(RawStore.Draft), raw.risk_level.GetOr(Level.Medium))
  }

  /** The payload drops `hazards` and `venue_name`: two inputs that differ
      only there insert the same object. */
  lemma CreatePayloadDropsViewFields(a: NewRAW, b: NewRAW)
    requires a.user_id == b.user_id && a.venue_id == b.venue_id
    requires a.status == b.status && a.risk_level == b.risk_level
    ensures CreatePayload(a) == CreatePayload(b)
  {
  }

  /** `createRAW(raw)`: one insert; the stored row is returned, an error thrown. */
  function CreateRAW(raw: NewRAW, resp: Response<RawRow>): (c: Call<RawRow>)
    ensures c.requests == [InsertRaw(CreatePayload(raw))]
    ensures c.outcome.Threw? <==> resp.Error?
    ensures resp.Error? ==> c.outcome == Threw(resp.message)
    ensures resp.Data? ==> c.outcome.value == resp.data
  {
    Call([InsertRaw(CreatePayload(raw))], PassThrough(resp))
  }

  /** `updateRAW(id, updates)`: the updates are sent unchanged for the row with
      that id; the updated row is returned, an error thrown. */
  function UpdateRAW(id: string, updates: RawPatch, resp: Response<RawRow>): (c: Call<RawRow>)
    ensures c.requests == [UpdateRawFields(updates, Eq("id", id))]
    ensures c.outcome.Threw? <==> resp.Error?
    ensures resp.Error? ==> c.outcome == Threw(resp.message)
    ensures resp.Data? ==> c.outcome.value == resp.data
  {
    Call([UpdateRawFields(updates, Eq("id", id))], PassThrough(resp))
  }

  /** `addHazardToRAW(hazard)`: one insert of the hazard as given. */
  function AddHazardToRAW(hazard: NewHazard, resp: Response<RAWHazard>): (c: Call<RAWHazard>)
    ensures c.requests == [InsertHazard(hazard)]
    ensures c.outcome.Threw? <==> resp.Error?
    ensures resp.Error? ==> c.outcome == Threw(resp.message)
    ensures resp.Data? ==> c.outcome.value == resp.data
  {
    Call([InsertHazard(hazard)], PassThrough(resp))
  }

  /** The query `getRAWHazards(rawId)` sends: that RAW's hazards, highest RPN first. */
  function RAWHazardsQuery(rawId: string): (q: Query)
    ensures q.relation == "raw_hazards" && !q.single
    ensures q.filters == [Eq("raw_id", rawId)]
    ensures q.order == Some(Order("rpn", false))
  {
    Query("raw_hazards", ["*"], [Eq("raw_id", rawId)], Some(Order("rpn", false)), false)
  }

  /** `getRAWHazards(rawId)`: the rows as returned, an empty list for null. */
  function GetRAWHazards(rawId: string, resp: Response<Option<seq<RAWHazard>>>): (c: Call<seq<RAWHazard>>)
    ensures c.requests == [Select(RAWHazardsQuery(rawId))]
    ensures c.outcome.Threw? <==> resp.Error?
    ensures resp.Error? ==> c.outcome == Threw(resp.message)
    ensures resp.Data? && resp.data.None? ==> c.outcome.value == []
    ensures resp.Data? && resp.data.Some? ==> c.outcome.value == resp.data.value
  {
    Call(
      [Select(RAWHazardsQuery(rawId))],
      match resp
      case Error(e) => Threw(e)
      case Data(data) => Returned(data.GetOr([])))
  }

  /** `deleteRAW(id)`: one delete of the row with that id; an error is thrown. */
  function DeleteRAW(id: string, resp: Response<()>): (c: Call<()>)
    ensures c.requests == [Delete("raw_submissions", Eq("id", id))]
    ensures c.outcome.Threw? <==> resp.Error?
    ensures resp.Error? ==> c.outcome == Threw(resp.message)
  {
    Call([Delete("raw_submissions", Eq("id", id))], PassThrough(resp))
  }

  // ---------------------------------------------------------------------
  // submitRAW, approveRAW, rejectRAW

  /** The update `submitRAW` writes: exactly the status and the submission time. */
  function SubmitPatch(now: string): (p: RowPatch)
    ensures p.Written() == {Status, SubmittedAt}
    ensures p.status == Some(RawStore.Submitted) && p.submitted_at == Some(now)
  {
    RowPatch(Some(RawStore.Submitted), Some(now), None, None, None)
  }

  /** The update `approveRAW` writes: exactly the status, the approver and the
      approval time. */
  function ApprovePatch(approverId: string, now: string): (p: RowPatch)
    ensures p.Written() == {Status, ApproverId, ApprovedAt}
    ensures p.status == Some(RawStore.Approved) && p.approver_id == Some(approverId) && p.approved_at == Some(now)
  {
    RowPatch(Some(RawStore.Approved), None, Some(approverId), Some(now), None)
  }

  /** The update `rejectRAW` writes: exactly the status, the approver and the
      comments; no timestamp. */
  function RejectPatch(approverId: string, comments: string): (p: RowPatch)
    ensures p.Written() == {Status, ApproverId, ApproverComments}
    ensures p.status == Some(RawStore.Rejected) && p.approver_id == Some(approverId)
    ensures p.approver_comments == Some(comments)
  {
    RowPatch(Some(RawStore.Rejected), None, Some(approverId), None, Some(comments))
  }

  /** The notification `submitRAW` records for the submitter. */
  function SubmittedNotification(id: string, userId: string): (n: Notification)
    ensures n.user_id == userId && n.kind == "raw_submitted" && n.related_id == id
  {
    Notification(
      userId,
      "RAW Submitted",
      "Your Risk Assessment Worksheet has been submitted for approval",
      "raw_submitted",
      id)
  }

  /** `submitRAW(id, userId)`: first the status update, whatever the current
      status; only when it succeeds, the notification insert, whose own error
      is ignored. */
  function SubmitRAW(id: string, userId: string, now: string, resp: Response<RawRow>, notified: Response<()>): (c: Call<RawRow>)
    ensures 1 <= |c.requests| <= 2
    ensures c.requests[0] == UpdateRaw(SubmitPatch(now), Eq("id", id))
    ensures resp.Error? ==> |c.requests| == 1 && c.outcome == Threw(resp.message)
    ensures resp.Data? ==> |c.requests| == 2 && c.outcome == Returned(resp.data)
    ensures resp.Data? ==> c.requests[1] == InsertNotification(SubmittedNotification(id, userId))
  {
    var update := UpdateRaw(SubmitPatch(now), Eq("id", id));
    match resp
    case Error(e) => Call([update], Threw(e))
    case Data(row) => Call([update, InsertNotification(SubmittedNotification(id, userId))], Returned(row))
  }

  /** The notification insert's result never changes what `submitRAW` does.
      This holds because `SubmitRAW` never reads `notified`, just as the
      source awaits the insert and never looks at its error. */
  lemma SubmitIgnoresNotificationError(id: string, userId: string, now: string, resp: Response<RawRow>, n1: Response<()>, n2: Response<()>)
    ensures SubmitRAW(id, userId, now, resp, n1) == SubmitRAW(id, userId, now, resp, n2)
  {
  }

  /** `approveRAW(id, approverId)`: one update, whatever the current status. */
  function ApproveRAW(id: string, approverId: string, now: string, resp: Response<RawRow>): (c: Call<RawRow>)
    ensures c.requests == [UpdateRaw(ApprovePatch(approverId, now), Eq("id", id))]
    ensures c.outcome.Threw? <==> resp.Error?
    ensures resp.Error? ==> c.outcome == Threw(resp.message)
    ensures resp.Data? ==> c.outcome.value == resp.data
  {
    Call([UpdateRaw(ApprovePatch(approverId, now), Eq("id", id))], PassThrough(resp))
  }

  /** `rejectRAW(id, approverId, comments)`: one update, whatever the current status. */
  function RejectRAW(id: string, approverId: string, comments: string, resp: Response<RawRow>): (c: Call<RawRow>)
    ensures c.requests == [UpdateRaw(RejectPatch(approverId, comments), Eq("id", id))]
    ensures c.outcome.Threw? <==> resp.Error?
    ensures resp.Error? ==> c.outcome == Threw(resp.message)
    ensures resp.Data? ==> c.outcome.value == resp.data
  {
    Call([UpdateRaw(RejectPatch(approverId, comments), Eq("id", id))], PassThrough(resp))
  }

  // ---------------------------------------------------------------------
  // The status state machine the three updates form

  /** A lifecycle transition the service can request. */
  datatype Transition =
    | Submit(now: string)
    | Approve(approverId: string, approvedAt: string)
    | Reject(rejecterId: string, comments: string)

  /** The update object each transition sends. */
  function PatchFor(t: Transition): RowPatch
  {
    match t
    case Submit(now) => SubmitPatch(now)
    case Approve(approverId, now) => ApprovePatch(approverId, now)
    case Reject(approverId, comments) => RejectPatch(approverId, comments)
  }

  /** The status each transition sets. */
  function Target(t: Transition): RawStatus
  {
    match t
    case Submit(_) => RawStore.Submitted
    case Approve(_, _) => RawStore.Approved
    case Reject(_, _) => RawStore.Rejected
  }

  /** A row after an update object is applied: the columns it names take its
      values, every other column keeps its value. */
  function ApplyRowPatch(row: RawRow, p: RowPatch): RawRow
  {
    row.(
      status := p.status.GetOr(row.status),
      submitted_at := if p.submitted_at.Some? then p.submitted_at else row.submitted_at,
      approver_id := if p.approver_id.Some? then p.approver_id else row.approver_id,
      approved_at := if p.approved_at.Some? then p.approved_at else row.approved_at,
      approver_comments := if p.approver_comments.Some? then p.approver_comments else row.approver_comments)
  }

  /** A row after a transition's update is applied to it. */
  function Step(row: RawRow, t: Transition): RawRow
  {
    ApplyRowPatch(row, PatchFor(t))
  }

  /** No transition checks the current status: from every status each one
      reaches its target, and the result does not depend on the old status. */
  lemma TransitionsIgnoreStatus(row: RawRow, t: Transition, before: RawStatus)
    ensures Step(row, t).status == Target(t)
    ensures Step(row, t) == Step(row.(status := before), t)
  {
  }

  /** The columns a transition does not name are left as they were: the row's
      identity, owner, venue, risk level and timestamps never change. */
  lemma StepKeepsOtherColumns(row: RawRow, t: Transition)
    ensures Step(row, t).id == row.id && Step(row, t).user_id == row.user_id
    ensures Step(row, t).venue_id == row.venue_id && Step(row, t).risk_level == row.risk_level
    ensures Step(row, t).created_at == row.created_at && Step(row, t).updated_at == row.updated_at
    ensures !PatchFor(t).Writes(ApproverId) ==> Step(row, t).approver_id == row.approver_id
    ensures !PatchFor(t).Writes(SubmittedAt) ==> Step(row, t).submitted_at == row.submitted_at
    ensures !PatchFor(t).Writes(ApprovedAt) ==> Step(row, t).approved_at == row.approved_at
    ensures !PatchFor(t).Writes(ApproverComments) ==> Step(row, t).approver_comments == row.approver_comments
  {
  }

  /** An approved row records who approved it and when; a rejected row records
      who rejected it and why. */
  predicate DecisionRecorded(row: RawRow)
  {
    && (row.status == RawStore.Approved ==> row.approver_id.Some? && row.approved_at.Some?)
    && (row.status == RawStore.Rejected ==> row.approver_id.Some? && row.approver_comments.Some?)
  }

  /** After an approve or reject transition the decision is recorded, whatever
      the row held before. Rows approved or rejected by other means (an insert
      or a plain update) carry no such guarantee. */
  lemma StepRecordsDecision(row: RawRow, t: Transition)
    ensures DecisionRecorded(Step(row, t))
    ensures t.Approve? ==> Step(row, t).status == RawStore.Approved
    ensures t.Approve? ==> Step(row, t).approver_id == Some(t.approverId) && Step(row, t).approved_at == Some(t.approvedAt)
    ensures t.Reject? ==> Step(row, t).status == RawStore.Rejected
    ensures t.Reject? ==> Step(row, t).approver_id == Some(t.rejecterId) && Step(row, t).approver_comments == Some(t.comments)
  {
  }

  /** `submitted_at` is not set once: submitting an already submitted (or
      approved, or rejected) row again overwrites it with the new time. */
  lemma ResubmitOverwritesSubmittedAt(row: RawRow, first: string, second: string)
    requires first != second
    ensures Step(row, Submit(first)).submitted_at == Some(first)
    ensures Step(Step(row, Submit(first)), Submit(second)).submitted_at == Some(second)
  {
  }

  /** Rejecting an approved row writes no timestamp, so the rejected row still
      carries the earlier approval time. */
  lemma RejectAfterApproveKeepsApprovedAt(row: RawRow, approver: string, at: string, rejecter: string, comments: string)
    ensures Step(Step(row, Approve(approver, at)), Reject(rejecter, comments)).status == RawStore.Rejected
    ensures Step(Step(row, Approve(approver, at)), Reject(rejecter, comments)).approved_at == Some(at)
  {
  }
}
