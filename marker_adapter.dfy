/**
 * `MarkersAdapter`: the projection of a stored, populated marker onto the
 * shape the app reads. It reads GeoJSON coordinates ([longitude, latitude])
 * and top-level `address` and `locationDescription`, which the marker schema
 * does not declare; the stored view below carries them beside the record.
 */
module MarkerAdapter {
  import opened Common
  import opened Participants
  import Categories
  import Markers

  /** A stored marker as the adapter reads it. */
  datatype StoredMarker = StoredMarker(
    id: string,
    body: Markers.Marker,
    coordinates: seq<real>,
    address: Option<string>,
    locationDescription: Option<string>,
    category: Option<Categories.Category>,
    ownerName: Option<string>,
    updatedAt: int)

  datatype SimpleCategory = SimpleCategory(
    id: string, name: string, icon: string, description: string, categoryType: string, color: string,
    markersCount: int)

  datatype SimpleUser = SimpleUser(id: string, name: string)

  datatype AppLocation = AppLocation(
    latitude: Option<real>, longitude: Option<real>, address: Option<string>, description: Option<string>)

  datatype AppMarker = AppMarker(
    id: string,
    title: string,
    description: string,
    category: SimpleCategory,
    owner: SimpleUser,
    priority: int,
    status: Markers.MarkerStatus,
    participants: seq<Participant>,
    images: Option<seq<string>>,
    rating: int,
    reviewCount: int,
    visitCount: int,
    isFavorited: bool,
    isActive: bool,
    verified: bool,
    contactPhone: Option<string>,
    location: AppLocation,
    createdAt: int,
    updatedAt: int)

  /**
   * The category summary: `_id` is always the stored category id, the other
   * fields come from the populated category, or are empty and 0.
   */
  function CategorySummary(m: StoredMarker): (c: SimpleCategory)
    ensures c.id == m.body.categoryId
    ensures m.category.None? ==> c == SimpleCategory(m.body.categoryId, "", "", "", "", "", 0)
    ensures m.category.Some? ==>
      && c.name == m.category.value.name && c.icon == m.category.value.icon
      && c.description == OrEmpty(m.category.value.description)
      && c.categoryType == m.category.value.categoryType && c.color == m.category.value.color
      && c.markersCount == m.category.value.markersCount
  {
    match m.category
    case None => SimpleCategory(m.body.categoryId, "", "", "", "", "", 0)
    case Some(cat) =>
      SimpleCategory(m.body.categoryId, cat.name, cat.icon, OrEmpty(cat.description), cat.categoryType, cat.color,
        cat.markersCount)
  }

  /** `mapMarkerToAppMarker`. */
  function MapMarker(m: StoredMarker): (a: AppMarker)
    ensures a.id == m.id && a.category.id == m.body.categoryId
    ensures a.owner == SimpleUser(m.body.ownerId, OrEmpty(m.ownerName))
    ensures a.location.latitude == Coordinate(m.coordinates, 1)
    ensures a.location.longitude == Coordinate(m.coordinates, 0)
    ensures a.location.address == m.address && a.location.description == m.locationDescription
    ensures a.participants == m.body.participants && a.images == m.body.images && a.status == m.body.status
    ensures a.priority == m.body.priority
  {
    var b := m.body;
    AppMarker(
      m.id, b.title, b.description, CategorySummary(m), SimpleUser(b.ownerId, OrEmpty(m.ownerName)),
      b.priority, b.status, b.participants, b.images, b.rating, b.reviewCount, b.visitCount,
      b.isFavorited, b.isActive, b.verified, b.contactPhone,
      AppLocation(Coordinate(m.coordinates, 1), Coordinate(m.coordinates, 0), m.address, m.locationDescription),
      b.createdAt, m.updatedAt)
  }

  /** `mapMarkersToAppMarkers`: one view per record, in the same order. */
  function MapMarkers(s: seq<StoredMarker>): (r: seq<AppMarker>)
    ensures |r| == |s| && forall i :: 0 <= i < |s| ==> r[i] == MapMarker(s[i])
  {
    seq(|s|, i requires 0 <= i < |s| => MapMarker(s[i]))
  }

  /**
   * The counter the app shows for a populated category is the one the
   * category store keeps: after an increment of that category it is one more.
   */
  lemma ShownCountFollowsIncrement(m: StoredMarker, s: seq<Documents.Doc<Categories.Category>>, c: Categories.Category)
    requires Documents.UniqueIds(s) && Documents.Get(s, m.body.categoryId) == Some(c) && m.category == Some(c)
    ensures var after := Documents.Get(Categories.Bumped(s, m.body.categoryId, 1), m.body.categoryId);
      after.Some? && MapMarker(m.(category := after)).category.markersCount == MapMarker(m).category.markersCount + 1
  {
  }
}
