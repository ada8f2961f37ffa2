/** The client-side store of Risk Assessment Worksheets (RAWs): the last
    fetched list, the selected RAW and a loading flag, with the synchronous
    operations the UI calls after a service call resolves. */
module RawStore {
  import opened Optional
  import opened Ratings
  import Seqs

  /** The lifecycle status of a RAW. */
  datatype RawStatus = Draft | Submitted | Approved | Rejected | ChangesRequested

  /** One hazard entry of a RAW. `rpn` is carried, never computed, on the client. */
  datatype RAWHazard = RAWHazard(
    id: string,
    raw_id: string,
    hazard_description: string,
    severity: Level,
    likelihood: Likelihood,
    rpn: int,
    control_measures: string)

  /** A RAW as the store holds it. The interface declares `hazards` as always
      present, but RAWs shaped from a list fetch carry none, so it is optional
      here; `submitted_at` is `null` (None) until submission; `venue_name` is
      absent (None) when no venue was joined. */
  datatype RAW = RAW(
    id: string,
    user_id: string,
    venue_id: string,
    status: RawStatus,
    risk_level: Level,
    hazards: Option<seq<RAWHazard>>,
    created_at: string,
    updated_at: string,
    submitted_at: Option<string>,
    venue_name: Option<string>)

  /** The value found under one key of a RAW object. */
  datatype FieldValue =
    | Text(text: string)
    | StatusValue(status: RawStatus)
    | LevelValue(level: Level)
    | HazardList(hazards: Option<seq<RAWHazard>>)
    | OptionalText(optional: Option<string>)

  /** The keys of a RAW object. */
  datatype Key =
    | Id | UserId | VenueId | Status | RiskLevel | Hazards
    | CreatedAt | UpdatedAt | SubmittedAt | VenueName

  /** Reading key `k` of a RAW object: `r[k]`. */
  function Field(r: RAW, k: Key): FieldValue
  {
    match k
    case Id => Text(r.id)
    case UserId => Text(r.user_id)
    case VenueId => Text(r.venue_id)
    case Status => StatusValue(r.status)
    case RiskLevel => LevelValue(r.risk_level)
    case Hazards => HazardList(r.hazards)
    case CreatedAt => Text(r.created_at)
    case UpdatedAt => Text(r.updated_at)
    case SubmittedAt => OptionalText(r.submitted_at)
    case VenueName => OptionalText(r.venue_name)
  }

  /** Two RAWs that agree on every key are the same RAW. */
  lemma FieldsDetermineRaw(a: RAW, b: RAW)
    requires forall k :: Field(a, k) == Field(b, k)
    ensures a == b
  {
    assert Field(a, Id) == Field(b, Id);
    assert Field(a, UserId) == Field(b, UserId);
    assert Field(a, VenueId) == Field(b, VenueId);
    assert Field(a, Status) == Field(b, Status);
    assert Field(a, RiskLevel) == Field(b, RiskLevel);
    assert Field(a, Hazards) == Field(b, Hazards);
    assert Field(a, CreatedAt) == Field(b, CreatedAt);
    assert Field(a, UpdatedAt) == Field(b, UpdatedAt);
    assert Field(a, SubmittedAt) == Field(b, SubmittedAt);
    assert Field(a, VenueName) == Field(b, VenueName);
  }

  /** `Partial<RAW>`: each key is either absent (None) or carries a new value. */
  datatype RawPatch = RawPatch(
    id: Option<string>,
    user_id: Option<string>,
    venue_id: Option<string>,
    status: Option<RawStatus>,
    risk_level: Option<Level>,
    hazards: Option<Option<seq<RAWHazard>>>,
    created_at: Option<string>,
    updated_at: Option<string>,
    submitted_at: Option<Option<string>>,
    venue_name: Option<Option<string>>)
  {
    /** Whether the patch object carries key `k`. */
    predicate Has(k: Key)
    {
      match k
      case Id => id.Some?
      case UserId => user_id.Some?
      case VenueId => venue_id.Some?
      case Status => status.Some?
      case RiskLevel => risk_level.Some?
      case Hazards => hazards.Some?
      case CreatedAt => created_at.Some?
      case UpdatedAt => updated_at.Some?
      case SubmittedAt => submitted_at.Some?
      case VenueName => venue_name.Some?
    }

    /** The value the patch carries under key `k`. */
    function Get(k: Key): FieldValue
      requires Has(k)
    {
      match k
      case Id => Text(id.value)
      case UserId => Text(user_id.value)
      case VenueId => Text(venue_id.value)
      case Status => StatusValue(status.value)
      case RiskLevel => LevelValue(risk_level.value)
      case Hazards => HazardList(hazards.value)
      case CreatedAt => Text(created_at.value)
      case UpdatedAt => Text(updated_at.value)
      case SubmittedAt => OptionalText(submitted_at.value)
      case VenueName => OptionalText(venue_name.value)
    }

    /** `{...this, ...later}`: the keys of `later` win, the others are kept. */
    function Then(later: RawPatch): RawPatch
    {
      RawPatch(
        if later.id.Some? then later.id else id,
        if later.user_id.Some? then later.user_id else user_id,
        if later.venue_id.Some? then later.venue_id else venue_id,
        if later.status.Some? then later.status else status,
        if later.risk_level.Some? then later.risk_level else risk_level,
        if later.hazards.Some? then later.hazards else hazards,
        if later.created_at.Some? then later.created_at else created_at,
        if later.updated_at.Some? then later.updated_at else updated_at,
        if later.submitted_at.Some? then later.submitted_at else submitted_at,
        if later.venue_name.Some? then later.venue_name else venue_name)
    }
  }

  /** The empty patch `{}`. */
  const EmptyPatch: RawPatch :=
    RawPatch(None, None, None, None, None, None, None, None, None, None)

  /** `{ ...r, ...p }`: the shallow merge of a patch into a RAW. Every key the
      patch carries takes the patch's value; every other key keeps its value. */
  function Merge(r: RAW, p: RawPatch): (m: RAW)
    ensures forall k :: Field(m, k) == if p.Has(k) then p.Get(k) else Field(r, k)
  {
    RAW(
      p.id.GetOr(r.id),
      p.user_id.GetOr(r.user_id),
      p.venue_id.GetOr(r.venue_id),
      p.status.GetOr(r.status),
      p.risk_level.GetOr(r.risk_level),
      p.hazards.GetOr(r.hazards),
      p.created_at.GetOr(r.created_at),
      p.updated_at.GetOr(r.updated_at),
      p.submitted_at.GetOr(r.submitted_at),
      p.venue_name.GetOr(r.venue_name))
  }

  /** Merging the empty patch changes nothing. */
  lemma MergeEmpty(r: RAW)
    ensures Merge(r, EmptyPatch) == r
  {
    forall k
      ensures Field(Merge(r, EmptyPatch), k) == Field(r, k)
    {
      assert !EmptyPatch.Has(k);
    }
    FieldsDetermineRaw(Merge(r, EmptyPatch), r);
  }

  /** Merging the same patch twice is the same as merging it once. */
  lemma MergeIdempotent(r: RAW, p: RawPatch)
    ensures Merge(Merge(r, p), p) == Merge(r, p)
  {
    forall k
      ensures Field(Merge(Merge(r, p), p), k) == Field(Merge(r, p), k)
    {
    }
    FieldsDetermineRaw(Merge(Merge(r, p), p), Merge(r, p));
  }

  /** Merging `p` and then `q` is merging the combined patch `{...p, ...q}`. */
  lemma MergeThen(r: RAW, p: RawPatch, q: RawPatch)
    ensures Merge(Merge(r, p), q) == Merge(r, p.Then(q))
  {
    var lhs, rhs := Merge(Merge(r, p), q), Merge(r, p.Then(q));
    forall k
      ensures Field(lhs, k) == Field(rhs, k)
    {
    }
    FieldsDetermineRaw(lhs, rhs);
  }

  /** The store's state. */
  datatype State = State(raws: seq<RAW>, selectedRAW: Option<RAW>, loading: bool)

  /** The partial state handed to the store's `set`: the keys it names. */
  datatype StateUpdate = StateUpdate(
    raws: Option<seq<RAW>>,
    selectedRAW: Option<Option<RAW>>,
    loading: Option<bool>)

  /** The store's `set`: a shallow top-level merge of the named keys. */
  function Set(s: State, u: StateUpdate): State
  {
    State(u.raws.GetOr(s.raws), u.selectedRAW.GetOr(s.selectedRAW), u.loading.GetOr(s.loading))
  }

  /** The state the store is created with. */
  function Initial(): (s: State)
    ensures |s.raws| == 0 && s.selectedRAW.None? && !s.loading
  {
    State([], None, false)
  }

  /** `setRAWs(raws)`: replaces the list; selection and flag are kept. */
  function SetRAWs(s: State, raws: seq<RAW>): (t: State)
    ensures t == s.(raws := raws)
  {
    Set(s, StateUpdate(Some(raws), None, None))
  }

  /** `setSelectedRAW(raw)`: replaces the selection; list and flag are kept. */
  function SetSelectedRAW(s: State, raw: Option<RAW>): (t: State)
    ensures t == s.(selectedRAW := raw)
  {
    Set(s, StateUpdate(None, Some(raw), None))
  }

  /** `setLoading(loading)`: replaces the flag; list and selection are kept. */
  function SetLoading(s: State, loading: bool): (t: State)
    ensures t == s.(loading := loading)
  {
    Set(s, StateUpdate(None, None, Some(loading)))
  }

  /** `addRAW(raw)`: the new RAW goes first and the old list follows it in
      order. Nothing else changes. */
  function AddRAW(s: State, raw: RAW): (t: State)
    ensures |t.raws| == |s.raws| + 1
    ensures t.raws[0] == raw
    ensures forall i :: 0 <= i < |s.raws| ==> t.raws[i + 1] == s.raws[i]
    ensures t.selectedRAW == s.selectedRAW && t.loading == s.loading
  {
    Set(s, StateUpdate(Some(Seqs.Prepend(raw, s.raws)), None, None))
  }

  /** The test "this RAW has id `id`". */
  function HasId(id: string): RAW -> bool
  {
    (r: RAW) => r.id == id
  }

  /** `addRAW` does not deduplicate: the count of RAWs with the new RAW's id
      goes up by one, so an id already present ends up there twice. */
  lemma AddRAWKeepsDuplicates(s: State, raw: RAW)
    ensures Seqs.Count(AddRAW(s, raw).raws, HasId(raw.id)) == Seqs.Count(s.raws, HasId(raw.id)) + 1
    ensures Seqs.Count(s.raws, HasId(raw.id)) > 0 ==> Seqs.Count(AddRAW(s, raw).raws, HasId(raw.id)) >= 2
  {
    assert AddRAW(s, raw).raws == Seqs.Prepend(raw, s.raws);
    Seqs.CountPrepend(raw, s.raws, HasId(raw.id));
  }

  /** The list after an update: each RAW whose id equals `id` has the patch
      merged into it, and every other RAW is kept as it is. */
  function PatchAll(raws: seq<RAW>, id: string, p: RawPatch): (out: seq<RAW>)
    ensures |out| == |raws|
    ensures forall i :: 0 <= i < |raws| && raws[i].id != id ==> out[i] == raws[i]
    ensures forall i :: 0 <= i < |raws| && raws[i].id == id ==> out[i] == Merge(raws[i], p)
  {
    if |raws| == 0 then []
    else [if raws[0].id == id then Merge(raws[0], p) else raws[0]] + PatchAll(raws[1..], id, p)
  }

  /** `updateRAW(id, p)`: every RAW with that id (every duplicate, not just the
      first) gets the keys of `p`, keeping its other keys; every other RAW,
      the list's length and order, the selection and the flag are unchanged. */
  function UpdateRAW(s: State, id: string, p: RawPatch): (t: State)
    ensures |t.raws| == |s.raws|
    ensures forall i :: 0 <= i < |s.raws| && s.raws[i].id != id ==> t.raws[i] == s.raws[i]
    ensures forall i, k :: 0 <= i < |s.raws| && s.raws[i].id == id ==>
      Field(t.raws[i], k) == if p.Has(k) then p.Get(k) else Field(s.raws[i], k)
    ensures (forall i :: 0 <= i < |s.raws| ==> s.raws[i].id != id) ==> t.raws == s.raws
    ensures t.selectedRAW == s.selectedRAW && t.loading == s.loading
  {
    Set(s, StateUpdate(Some(PatchAll(s.raws, id, p)), None, None))
  }

  /** Applying the same update twice is applying it once, even when the patch
      rewrites the id. */
  lemma UpdateRAWIdempotent(s: State, id: string, p: RawPatch)
    ensures UpdateRAW(UpdateRAW(s, id, p), id, p) == UpdateRAW(s, id, p)
  {
    var once := UpdateRAW(s, id, p);
    var twice := UpdateRAW(once, id, p);
    forall i | 0 <= i < |s.raws|
      ensures twice.raws[i] == once.raws[i]
    {
      if s.raws[i].id == id {
        MergeIdempotent(s.raws[i], p);
      }
    }
  }

  /** Two updates of the same id compose into one update with the combined
      patch, provided the first does not move the RAWs to another id. */
  lemma UpdateRAWThen(s: State, id: string, p: RawPatch, q: RawPatch)
    requires p.id.None? || p.id == Some(id)
    ensures UpdateRAW(UpdateRAW(s, id, p), id, q) == UpdateRAW(s, id, p.Then(q))
  {
    var lhs := UpdateRAW(UpdateRAW(s, id, p), id, q);
    var rhs := UpdateRAW(s, id, p.Then(q));
    forall i | 0 <= i < |s.raws|
      ensures lhs.raws[i] == rhs.raws[i]
    {
      if s.raws[i].id == id {
        MergeThen(s.raws[i], p, q);
      }
    }
  }

  /** When the first patch moves the RAWs to another id, a second update by
      the old id no longer reaches them. */
  lemma UpdateRAWLosesMovedRaw(s: State, id: string, other: string, q: RawPatch)
    requires other != id
    ensures var once := UpdateRAW(s, id, EmptyPatch.(id := Some(other)));
            UpdateRAW(once, id, q) == once
  {
  }

  /** The selection is a copy: an update that changes the selected RAW's entry
      in the list leaves `selectedRAW` holding the old value. */
  lemma UpdateRAWLeavesSelectionStale(s: State, i: nat, p: RawPatch)
    requires i < |s.raws| && s.selectedRAW == Some(s.raws[i])
    requires Merge(s.raws[i], p) != s.raws[i]
    ensures UpdateRAW(s, s.raws[i].id, p).selectedRAW == Some(s.raws[i])
    ensures UpdateRAW(s, s.raws[i].id, p).raws[i] != s.raws[i]
  {
    var t := UpdateRAW(s, s.raws[i].id, p);
    assert t.raws[i] == PatchAll(s.raws, s.raws[i].id, p)[i];
  }
}
