/**
 * `HelpPointsAdapter`: the projection of a stored, populated help point onto
 * the shape the app reads. The populated category and owner may be missing;
 * the GeoJSON coordinates are [longitude, latitude].
 */
module HelpPointAdapter {
  import opened Common
  import opened Participants
  import Categories
  import HelpPoints

  /** A stored help point as the adapter reads it: its id, its fields and what `populate` attached. */
  datatype StoredHelpPoint = StoredHelpPoint(
    id: string,
    body: HelpPoints.HelpPoint,
    category: Option<Categories.Category>,
    ownerName: Option<string>,
    updatedAt: int)

  datatype SimpleCategory = SimpleCategory(
    id: string, name: string, icon: string, description: string, categoryType: string, color: string,
    helpPointsCount: int)

  datatype SimpleUser = SimpleUser(id: string, name: string)

  /** An absent coordinate is `undefined`. */
  datatype AppLocation = AppLocation(
    latitude: Option<real>, longitude: Option<real>, address: Option<string>, description: Option<string>)

  datatype AppHelpPoint = AppHelpPoint(
    id: string,
    title: string,
    description: string,
    category: SimpleCategory,
    owner: SimpleUser,
    priority: string,
    status: HelpPoints.HelpPointStatus,
    participants: seq<Participant>,
    images: Option<seq<string>>,
    rating: int,
    reviewCount: int,
    visitCount: int,
    isFavorited: bool,
    isActive: bool,
    verified: bool,
    contactPhone: Option<string>,
    location: AppLocation,
    createdAt: int,
    updatedAt: int)

  /**
   * The category summary: `_id` is always the stored category id, the other
   * fields come from the populated category or are empty. The category
   * record has no help-point counter, so that count is always 0.
   */
  function CategorySummary(h: StoredHelpPoint): (c: SimpleCategory)
    ensures c.id == h.body.categoryId
    ensures h.category.None? ==> c == SimpleCategory(h.body.categoryId, "", "", "", "", "", 0)
    ensures h.category.Some? ==>
      && c.name == h.category.value.name && c.icon == h.category.value.icon
      && c.description == OrEmpty(h.category.value.description)
      && c.categoryType == h.category.value.categoryType && c.color == h.category.value.color
    ensures c.helpPointsCount == 0
  {
    match h.category
    case None => SimpleCategory(h.body.categoryId, "", "", "", "", "", 0)
    case Some(cat) =>
      SimpleCategory(h.body.categoryId, cat.name, cat.icon, OrEmpty(cat.description), cat.categoryType, cat.color, 0)
  }

  /** `mapHelpPointToAppHelpPoint`. */
  function MapHelpPoint(h: StoredHelpPoint): (a: AppHelpPoint)
    ensures a.id == h.id && a.category.id == h.body.categoryId
    ensures a.owner == SimpleUser(h.body.ownerId, OrEmpty(h.ownerName))
    ensures a.location.latitude == Coordinate(h.body.coordinates, 1)
    ensures a.location.longitude == Coordinate(h.body.coordinates, 0)
    ensures a.location.address == h.body.address && a.location.description == h.body.locationDescription
    ensures a.participants == h.body.participants && a.images == h.body.images && a.status == h.body.status
  {
    var b := h.body;
    AppHelpPoint(
      h.id, b.title, b.description, CategorySummary(h), SimpleUser(b.ownerId, OrEmpty(h.ownerName)),
      b.priority, b.status, b.participants, b.images, b.rating, b.reviewCount, b.visitCount,
      b.isFavorited, b.isActive, b.verified, b.contactPhone,
      AppLocation(Coordinate(b.coordinates, 1), Coordinate(b.coordinates, 0), b.address, b.locationDescription),
      b.createdAt, h.updatedAt)
  }

  /** `mapHelpPointsToAppHelpPoints`: one view per record, in the same order. */
  function MapHelpPoints(s: seq<StoredHelpPoint>): (r: seq<AppHelpPoint>)
    ensures |r| == |s| && forall i :: 0 <= i < |s| ==> r[i] == MapHelpPoint(s[i])
  {
    seq(|s|, i requires 0 <= i < |s| => MapHelpPoint(s[i]))
  }

  /**
   * A help point created at the GeoJSON point [longitude, latitude] is shown
   * at that latitude and longitude: the adapter undoes the GeoJSON order.
   */
  lemma CreatedPointShownInPlace(userId: string, input: HelpPoints.HelpPointInput, images: Option<seq<string>>,
                                 now: int, id: string, latitude: real, longitude: real, updatedAt: int)
    requires input.coordinates == [longitude, latitude]
    ensures var a := MapHelpPoint(StoredHelpPoint(id, HelpPoints.NewHelpPoint(userId, input, images, now), None, None, updatedAt));
      a.location.latitude == Some(latitude) && a.location.longitude == Some(longitude)
      && a.owner == SimpleUser(userId, "") && a.participants == []
  {
  }
}
