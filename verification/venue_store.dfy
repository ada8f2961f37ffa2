/** The client-side store of venues: the last fetched venue list, the
    selected venue, the selected venue's hazards and a loading flag. */
module VenueStore {
  import opened Optional
  import opened Ratings
  import Seqs

  /** A venue's derived safety status. */
  datatype VenueStatus = Safe | Warning | Critical | Restricted

  /** A venue hazard's lifecycle status. */
  datatype HazardStatus = Open | Resolved | Pending

  /** A venue. Coordinates are carried, never computed on, so they are reals. */
  datatype Venue = Venue(
    id: string,
    name: string,
    address: string,
    latitude: real,
    longitude: real,
    status: VenueStatus,
    critical_issues_count: int,
    created_at: string)

  /** A hazard recorded against a venue. `rpn` is carried, never computed. */
  datatype VenueHazard = VenueHazard(
    id: string,
    venue_id: string,
    hazard_category: string,
    description: string,
    severity: Level,
    likelihood: Likelihood,
    rpn: int,
    status: HazardStatus)

  /** The store's state. */
  datatype State = State(
    venues: seq<Venue>,
    selectedVenue: Option<Venue>,
    venueHazards: seq<VenueHazard>,
    loading: bool)

  /** The partial state handed to the store's `set`: the keys it names. */
  datatype StateUpdate = StateUpdate(
    venues: Option<seq<Venue>>,
    selectedVenue: Option<Option<Venue>>,
    venueHazards: Option<seq<VenueHazard>>,
    loading: Option<bool>)

  /** The store's `set`: a shallow top-level merge of the named keys. */
  function Set(s: State, u: StateUpdate): State
  {
    State(
      u.venues.GetOr(s.venues),
      u.selectedVenue.GetOr(s.selectedVenue),
      u.venueHazards.GetOr(s.venueHazards),
      u.loading.GetOr(s.loading))
  }

  /** The state the store is created with. */
  function Initial(): (s: State)
    ensures |s.venues| == 0 && s.selectedVenue.None? && |s.venueHazards| == 0 && !s.loading
  {
    State([], None, [], false)
  }

  /** `setVenues(venues)`: replaces the list wholesale and nothing else. */
  function SetVenues(s: State, venues: seq<Venue>): (t: State)
    ensures t == s.(venues := venues)
  {
    Set(s, StateUpdate(Some(venues), None, None, None))
  }

  /** `setSelectedVenue(venue)`: replaces only the selection. */
  function SetSelectedVenue(s: State, venue: Option<Venue>): (t: State)
    ensures t == s.(selectedVenue := venue)
  {
    Set(s, StateUpdate(None, Some(venue), None, None))
  }

  /** `setVenueHazards(hazards)`: replaces only the hazard list. */
  function SetVenueHazards(s: State, hazards: seq<VenueHazard>): (t: State)
    ensures t == s.(venueHazards := hazards)
  {
    Set(s, StateUpdate(None, None, Some(hazards), None))
  }

  /** `setLoading(loading)`: changes only the flag, never the collections. */
  function SetLoading(s: State, loading: bool): (t: State)
    ensures t == s.(loading := loading)
  {
    Set(s, StateUpdate(None, None, None, Some(loading)))
  }

  /** `addVenue(venue)`: the new venue goes first and the old list follows it
      in order; the selection, the hazards and the flag are unchanged. */
  function AddVenue(s: State, venue: Venue): (t: State)
    ensures |t.venues| == |s.venues| + 1
    ensures t.venues[0] == venue
    ensures forall i :: 0 <= i < |s.venues| ==> t.venues[i + 1] == s.venues[i]
    ensures t.selectedVenue == s.selectedVenue
    ensures t.venueHazards == s.venueHazards && t.loading == s.loading
  {
    Set(s, StateUpdate(Some(Seqs.Prepend(venue, s.venues)), None, None, None))
  }

  /** The test "this venue has id `id`". */
  function HasId(id: string): Venue -> bool
  {
    (v: Venue) => v.id == id
  }

  /** `addVenue` does not deduplicate by id: adding a venue whose id is
      already listed leaves that id listed at least twice. */
  lemma AddVenueKeepsDuplicates(s: State, venue: Venue)
    ensures Seqs.Count(AddVenue(s, venue).venues, HasId(venue.id)) == Seqs.Count(s.venues, HasId(venue.id)) + 1
    ensures Seqs.Count(s.venues, HasId(venue.id)) > 0 ==> Seqs.Count(AddVenue(s, venue).venues, HasId(venue.id)) >= 2
  {
    assert AddVenue(s, venue).venues == Seqs.Prepend(venue, s.venues);
    Seqs.CountPrepend(venue, s.venues, HasId(venue.id));
  }
}
