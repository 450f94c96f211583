/**
 * `MarkersService`: the legacy marker collection. It follows the help-point
 * service, with its own status set, and it moves the category store's
 * `markersCount` through that store's own increment and decrement. Notices go
 * to an outbox of `addNotification` requests and storage folder deletions to
 * a log; uploads, the clock and new ids are parameters.
 */
module Markers {
  import opened Common
  import opened Documents
  import opened Participants
  import opened Proximity
  import Categories
  import Notifications

  /** `MarkerStatus`; a new marker is pending unless the input says otherwise. */
  datatype MarkerStatus = Active | Completed | Cancelled | Pending

  /** The stored `location` sub-document. */
  datatype MarkerLocation = MarkerLocation(latitude: real, longitude: real, address: Option<string>)

  datatype Marker = Marker(
    title: string,
    description: string,
    participants: seq<Participant>,
    images: Option<seq<string>>,
    location: MarkerLocation,
    categoryId: string,
    ownerId: string,
    priority: int,
    rating: int,
    reviewCount: int,
    status: MarkerStatus,
    isFavorited: bool,
    verified: bool,
    contactPhone: Option<string>,
    visitCount: int,
    isActive: bool,
    createdAt: int)

  /** `CreateMarkerDto`. */
  datatype MarkerInput = MarkerInput(
    title: string,
    description: string,
    location: MarkerLocation,
    categoryId: string,
    images: Option<seq<string>>,
    contactPhone: Option<string>,
    status: Option<MarkerStatus>,
    priority: Option<int>)

  /** The fields of `Partial<Marker>` an update may set in this model; the others are left out. */
  datatype MarkerPatch = MarkerPatch(
    title: Option<string>,
    description: Option<string>,
    location: Option<MarkerLocation>,
    categoryId: Option<string>,
    images: Option<seq<string>>,
    status: Option<MarkerStatus>,
    priority: Option<int>,
    contactPhone: Option<string>,
    isActive: Option<bool>)

  datatype Decision = Accept | Reject

  function DecisionStatus(d: Decision): ParticipantStatus {
    if d == Accept then Accepted else Rejected
  }

  function DecisionText(d: Decision): string {
    if d == Accept then "accepted" else "rejected"
  }

  /** The change `changeStatus` makes to the category's counter: every status moves it. */
  function StatusDelta(s: MarkerStatus): (d: int)
    ensures d == 1 <==> s == Active
    ensures d == -1 <==> s != Active
    ensures d != 0
  {
    if s == Active then 1 else -1
  }




  /** The initial record of `create`: schema defaults fill what the input leaves out. */
  function NewMarker(userId: string, input: MarkerInput, images: Option<seq<string>>, now: int): Marker {
    Marker(
      input.title, input.description, [], images, input.location, input.categoryId, userId,
      if input.priority.Some? then input.priority.value else 0,
      0, 0,
      if input.status.Some? then input.status.value else MarkerStatus.Pending,
      false, false, input.contactPhone, 0, true, now)
  }

  function Patched(m: Marker, p: MarkerPatch, images: Option<seq<string>>): Marker {
    m.(
      title := if p.title.Some? then p.title.value else m.title,
      description := if p.description.Some? then p.description.value else m.description,
      location := if p.location.Some? then p.location.value else m.location,
      categoryId := if p.categoryId.Some? then p.categoryId.value else m.categoryId,
      images := images,
      status := if p.status.Some? then p.status.value else m.status,
      priority := if p.priority.Some? then p.priority.value else m.priority,
      contactPhone := if p.contactPhone.Some? then p.contactPhone else m.contactPhone,
      isActive := if p.isActive.Some? then p.isActive.value else m.isActive)
  }

  function ParticipantsOf(m: Marker): seq<Participant> {
    m.participants
  }

  function AttachmentsFolder(id: string): string {
    "markers/attachments/" + id
  }

  /**
   * What one call of the category store's increment or decrement leaves: a
   * malformed id changes nothing, any other id moves that category's count.
   */
  function CounterCall(s: seq<Doc<Categories.Category>>, id: string, delta: int): seq<Doc<Categories.Category>> {
    if IsObjectId(id) then Categories.Bumped(s, id, delta) else s
  }

  /**
   * The counters after `update` when the category changes from `stored` to
   * `patched`: the new one gains one marker and the old one loses one.
   */
  function Moved(s: seq<Doc<Categories.Category>>, patched: Option<string>, stored: string): seq<Doc<Categories.Category>> {
    if patched.Some? && patched.value != stored then CounterCall(CounterCall(s, patched.value, 1), stored, -1) else s
  }

  /** Moving a marker between two well-formed categories keeps the total number of markers counted. */
  lemma MoveKeepsTotal(s: seq<Doc<Categories.Category>>, patched: string, stored: string)
    requires UniqueIds(s) && IsObjectId(patched) && IsObjectId(stored) && HasId(s, patched) && HasId(s, stored)
    ensures Categories.Total(Moved(s, Some(patched), stored)) == Categories.Total(s)
  {
    if patched != stored {
      Categories.BumpedTotal(s, patched, 1);
      Categories.BumpedTotal(Categories.Bumped(s, patched, 1), stored, -1);
    }
  }

  class MarkerStore {
    var docs: seq<Doc<Marker>>
    /** The category service whose `markersCount` the marker operations move. */
    const categories: Categories.CategoryStore
    /** Every `addNotification` request, oldest first. */
    var outbox: seq<Notifications.NotificationRequest>
    /** Every storage folder deleted, oldest first. */
    var deletedFolders: seq<string>

    ghost predicate Valid()
      reads this, categories
    {
      UniqueIds(docs) && AllUniqueUsers(docs, ParticipantsOf) && categories.Valid()
    }

    constructor(categories: Categories.CategoryStore)
      requires categories.Valid()
      ensures Valid() && docs == [] && this.categories == categories && outbox == [] && deletedFolders == []
    {
      docs := [];
      this.categories := categories;
      outbox := [];
      deletedFolders := [];
    }

    /** `findOne`: a malformed id fails the cast; an unknown one is NotFound. */
    function FindOne(id: string): (r: Outcome<Marker>)
      reads this
      ensures !IsObjectId(id) ==> r == Err(InvalidId)
      ensures IsObjectId(id) && !HasId(docs, id) ==> r == Err(NotFound)
      ensures IsObjectId(id) && HasId(docs, id) ==> r.Ok?
      ensures r.Ok? ==> exists i :: 0 <= i < |docs| && docs[i].id == id && docs[i].body == r.value
    {
      if !IsObjectId(id) then Err(InvalidId)
      else match Get(docs, id)
        case None => Err(NotFound)
        case Some(m) => Ok(m)
    }

    /**
     * `findAll`: at most one marker (the query is limited to one), the newest,
     * among those near the given point when one is given.
     */
    function FindAll(params: Option<LocationParams>, near: (Marker, real, real, real) -> bool): (r: seq<Marker>)
      reads this
      ensures |r| <= 1
      ensures forall x :: x in r ==> x in Bodies(docs)
      ensures params.Some? ==> forall x :: x in r ==>
        near(x, params.value.longitude, params.value.latitude, EffectiveRadius(params.value))
      ensures params.None? ==> (r == [] <==> docs == [])
      ensures params.Some? ==> (r == [] <==> forall x :: x in Bodies(docs) ==>
        !near(x, params.value.longitude, params.value.latitude, EffectiveRadius(params.value)))
      ensures |r| == 1 ==> forall x ::
        (x in Bodies(docs) && (params.None? || near(x, params.value.longitude, params.value.latitude, EffectiveRadius(params.value))))
        ==> x.createdAt <= r[0].createdAt
    {
      var candidates := if params.Some? then NearOnes(Bodies(docs), params.value, near) else Bodies(docs);
      match Newest(candidates, (x: Marker) => x.createdAt)
      case None => []
      case Some(m) => [m]
    }

    /**
     * `create`: a malformed category id throws before anything is stored.
     * Otherwise the marker is saved (unless the store rejects it), its images
     * uploaded and the achievement check run; then the category gains one
     * marker. A failure after the save yields the failure envelope but leaves
     * the marker stored.
     */
    method Create(userId: string, input: MarkerInput, newId: string, now: int,
                  saveOk: bool, uploaded: Option<seq<string>>, achievementsOk: bool)
      returns (r: Outcome<Envelope<Marker>>)
      requires Valid() && !HasId(docs, newId)
      modifies this, categories
      ensures Valid() && outbox == old(outbox) && deletedFolders == old(deletedFolders)
      ensures !IsObjectId(input.categoryId) ==>
        r == Err(InvalidId) && docs == old(docs) && categories.docs == old(categories.docs)
      ensures IsObjectId(input.categoryId) && !saveOk ==>
        r == Ok(Envelope(false, None)) && docs == old(docs) && categories.docs == old(categories.docs)
      ensures IsObjectId(input.categoryId) && saveOk ==>
        var m := NewMarker(userId, input, uploaded, now);
        && docs == old(docs) + [Doc(newId, m)]
        && m.participants == [] && m.rating == 0 && m.reviewCount == 0 && m.visitCount == 0
        && !m.isFavorited && m.ownerId == userId
        && (achievementsOk ==>
              r == Ok(Envelope(true, Some(m))) && categories.docs == Categories.Bumped(old(categories.docs), input.categoryId, 1))
        && (!achievementsOk ==> r == Ok(Envelope(false, None)) && categories.docs == old(categories.docs))
    {
      if !IsObjectId(input.categoryId) {
        return Err(InvalidId);
      }
      if !saveOk {
        return Ok(Envelope(false, None));
      }
      var m := NewMarker(userId, input, None, now);
      docs := docs + [Doc(newId, m)];
      m := m.(images := uploaded);
      docs := docs[|docs| - 1 := Doc(newId, m)];
      if !achievementsOk {
        return Ok(Envelope(false, None));
      }
      var _ := categories.IncrementMarkersCount(input.categoryId);
      r := Ok(Envelope(true, Some(m)));
    }

    /**
     * `update`: owner only. The attachment folder is deleted, new images (if
     * any) uploaded and the patch applied; when the patch names a different
     * category the new one gains a marker and the old one loses one. Any
     * failure to find the marker is reported as NotFound.
     */
    method Update(id: string, userId: string, patch: MarkerPatch, uploaded: Option<seq<string>>)
      returns (r: Outcome<Envelope<Marker>>)
      requires Valid()
      modifies this, categories
      ensures Valid() && outbox == old(outbox)
      ensures old(FindOne(id)).Err? ==>
        r == Err(NotFound) && unchanged(this) && categories.docs == old(categories.docs)
      ensures old(FindOne(id)).Ok? && old(FindOne(id)).value.ownerId != userId ==>
        r == Err(Unauthorized) && unchanged(this) && categories.docs == old(categories.docs)
      ensures old(FindOne(id)).Ok? && old(FindOne(id)).value.ownerId == userId ==>
        var m := old(FindOne(id)).value;
        var images := if patch.images.Some? && |patch.images.value| > 0 then uploaded
                      else if patch.images.Some? then patch.images else m.images;
        && deletedFolders == old(deletedFolders) + [AttachmentsFolder(id)]
        && r == Ok(Envelope(true, Some(Patched(m, patch, images))))
        && docs == SetBody(old(docs), id, Patched(m, patch, images))
        && categories.docs == Moved(old(categories.docs), patch.categoryId, m.categoryId)
    {
      var found := FindOne(id);
      if found.Err? {
        return Err(NotFound);
      }
      var m := found.value;
      if m.ownerId != userId {
        return Err(Unauthorized);
      }
      deletedFolders := deletedFolders + [AttachmentsFolder(id)];
      var images := m.images;
      if patch.images.Some? && |patch.images.value| > 0 {
        images := uploaded;
      } else if patch.images.Some? {
        images := patch.images;
      }
      var updated := Patched(m, patch, images);
      SetBodyKeepsUniqueUsers(docs, id, updated, ParticipantsOf);
      docs := SetBody(docs, id, updated);
      if patch.categoryId.Some? && patch.categoryId.value != m.categoryId {
        var _ := categories.IncrementMarkersCount(patch.categoryId.value);
        var _ := categories.DecrementMarkersCount(m.categoryId);
      }
      r := Ok(Envelope(true, Some(updated)));
    }

    /** `remove`: owner only; the attachment folder and the marker are deleted. */
    method Remove(id: string, userId: string) returns (r: Outcome<()>)
      requires Valid()
      modifies this
      ensures Valid() && outbox == old(outbox)
      ensures old(FindOne(id)).Err? ==> r == Err(old(FindOne(id)).error) && unchanged(this)
      ensures old(FindOne(id)).Ok? && old(FindOne(id)).value.ownerId != userId ==> r == Err(Unauthorized) && unchanged(this)
      ensures old(FindOne(id)).Ok? && old(FindOne(id)).value.ownerId == userId ==>
        r == Ok(()) && docs == Delete(old(docs), id) && deletedFolders == old(deletedFolders) + [AttachmentsFolder(id)]
    {
      var found := FindOne(id);
      if found.Err? {
        return Err(found.error);
      }
      if found.value.ownerId != userId {
        return Err(Unauthorized);
      }
      deletedFolders := deletedFolders + [AttachmentsFolder(id)];
      DeleteKeepsUniqueUsers(docs, id, ParticipantsOf);
      docs := Delete(docs, id);
      r := Ok(());
    }

    /**
     * `changeStatus`: sets the status, tells the owner when someone else
     * completes the marker, and moves the category counter by the delta of the
     * new status. A missing marker is a crash (a property set on null).
     */
    method ChangeStatus(id: string, status: MarkerStatus, userId: string) returns (r: Outcome<()>)
      requires Valid()
      modifies this, categories
      ensures Valid() && deletedFolders == old(deletedFolders)
      ensures !IsObjectId(id) ==> r == Err(InvalidId) && unchanged(this) && categories.docs == old(categories.docs)
      ensures IsObjectId(id) && !HasId(old(docs), id) ==>
        r == Err(Crash) && unchanged(this) && categories.docs == old(categories.docs)
      ensures IsObjectId(id) && HasId(old(docs), id) ==>
        var m := Get(old(docs), id).value;
        && r == Ok(())
        && docs == SetBody(old(docs), id, m.(status := status))
        && outbox == old(outbox) + (if status == Completed && m.ownerId != userId then [CompletionNotice(id, m)] else [])
        && categories.docs == CounterCall(old(categories.docs), m.categoryId, StatusDelta(status))
    {
      if !IsObjectId(id) {
        return Err(InvalidId);
      }
      var found := Get(docs, id);
      if found.None? {
        return Err(Crash);
      }
      var m := found.value;
      SetBodyKeepsUniqueUsers(docs, id, m.(status := status), ParticipantsOf);
      docs := SetBody(docs, id, m.(status := status));
      if status == Completed && m.ownerId != userId {
        outbox := outbox + [CompletionNotice(id, m)];
      }
      if status == Active {
        var _ := categories.IncrementMarkersCount(m.categoryId);
      } else {
        var _ := categories.DecrementMarkersCount(m.categoryId);
      }
      r := Ok(());
    }

    /** `applyForHelp`: a new applicant joins at the end as Pending and the owner is told. */
    method ApplyForHelp(id: string, userId: string, joinedAt: string) returns (r: Outcome<()>)
      requires Valid()
      modifies this
      ensures Valid() && deletedFolders == old(deletedFolders)
      ensures old(FindOne(id)).Err? ==> r == Err(old(FindOne(id)).error) && unchanged(this)
      ensures old(FindOne(id)).Ok? && IsParticipant(old(FindOne(id)).value.participants, userId) ==>
        r == Err(Unauthorized) && unchanged(this)
      ensures old(FindOne(id)).Ok? && !IsParticipant(old(FindOne(id)).value.participants, userId) ==>
        var m := old(FindOne(id)).value;
        && r == Ok(())
        && docs == SetBody(old(docs), id, m.(participants := WithApplicant(m.participants, userId, joinedAt)))
        && outbox == old(outbox) + [ApplicationNotice(id, m)]
    {
      var found := FindOne(id);
      if found.Err? {
        return Err(found.error);
      }
      var m := found.value;
      if IsParticipant(m.participants, userId) {
        return Err(Unauthorized);
      }
      UniqueUsersAt(docs, id, ParticipantsOf);
      var updated := m.(participants := WithApplicant(m.participants, userId, joinedAt));
      SetBodyKeepsUniqueUsers(docs, id, updated, ParticipantsOf);
      docs := SetBody(docs, id, updated);
      outbox := outbox + [ApplicationNotice(id, m)];
      r := Ok(());
    }

    /** `removeFromHelp`: only a participant can withdraw; all of their entries go. */
    method RemoveFromHelp(id: string, userId: string) returns (r: Outcome<()>)
      requires Valid()
      modifies this
      ensures Valid() && outbox == old(outbox) && deletedFolders == old(deletedFolders)
      ensures old(FindOne(id)).Err? ==> r == Err(old(FindOne(id)).error) && unchanged(this)
      ensures old(FindOne(id)).Ok? && !IsParticipant(old(FindOne(id)).value.participants, userId) ==>
        r == Err(Unauthorized) && unchanged(this)
      ensures old(FindOne(id)).Ok? && IsParticipant(old(FindOne(id)).value.participants, userId) ==>
        var m := old(FindOne(id)).value;
        r == Ok(()) && docs == SetBody(old(docs), id, m.(participants := Pulled(m.participants, userId)))
    {
      var found := FindOne(id);
      if found.Err? {
        return Err(found.error);
      }
      var m := found.value;
      if !IsParticipant(m.participants, userId) {
        return Err(Unauthorized);
      }
      UniqueUsersAt(docs, id, ParticipantsOf);
      PulledUnique(m.participants, userId);
      var updated := m.(participants := Pulled(m.participants, userId));
      SetBodyKeepsUniqueUsers(docs, id, updated, ParticipantsOf);
      docs := SetBody(docs, id, updated);
      r := Ok(());
    }

    /**
     * `updateParticipantStatus`: the first entry of the participant gets the
     * decision, and the participant is told, even when no entry matched.
     */
    method UpdateParticipantStatus(id: string, participantId: string, decision: Decision) returns (r: Outcome<()>)
      requires Valid()
      modifies this
      ensures Valid() && deletedFolders == old(deletedFolders)
      ensures old(FindOne(id)).Err? ==> r == Err(old(FindOne(id)).error) && unchanged(this)
      ensures old(FindOne(id)).Ok? ==>
        var m := old(FindOne(id)).value;
        && r == Ok(())
        && docs == SetBody(old(docs), id, m.(participants := SetFirstStatus(m.participants, participantId, DecisionStatus(decision))))
        && outbox == old(outbox) + [DecisionNotice(id, m, participantId, decision)]
    {
      var found := FindOne(id);
      if found.Err? {
        return Err(found.error);
      }
      var m := found.value;
      UniqueUsersAt(docs, id, ParticipantsOf);
      var ps := SetFirstStatus(m.participants, participantId, DecisionStatus(decision));
      assert UniqueUsers(ps) by {
        assert forall i :: 0 <= i < |ps| ==> ps[i].userId == m.participants[i].userId;
      }
      var updated := m.(participants := ps);
      SetBodyKeepsUniqueUsers(docs, id, updated, ParticipantsOf);
      docs := SetBody(docs, id, updated);
      outbox := outbox + [DecisionNotice(id, m, participantId, decision)];
      r := Ok(());
    }
  }

  function MarkerAction(id: string): Option<Notifications.Action> {
    Some(Notifications.Action(Notifications.MarkerAction, id))
  }

  /** The owner's notice that someone else completed the marker. */
  function CompletionNotice(id: string, m: Marker): Notifications.NotificationRequest {
    Notifications.NotificationRequest([m.ownerId], "Marker Completed",
      "Your marker: " + m.title + " has been completed", Notifications.MarkerCompleted, MarkerAction(id))
  }

  /** The owner's notice of a new applicant. */
  function ApplicationNotice(id: string, m: Marker): Notifications.NotificationRequest {
    Notifications.NotificationRequest([m.ownerId], "New Helper Application",
      "Someone wants to help with your marker: " + m.title, Notifications.MarkerApplication, MarkerAction(id))
  }

  /** The applicant's notice of the owner's decision, its title chosen by the decision. */
  function DecisionNotice(id: string, m: Marker, participantId: string, d: Decision): (n: Notifications.NotificationRequest)
    ensures n.userIds == [participantId]
    ensures n.title == (if d == Accept then "Application Accepted" else "Application Rejected")
  {
    Notifications.NotificationRequest([participantId],
      if d == Accept then "Application Accepted" else "Application Rejected",
      "Your application to help with \"" + m.title + "\" has been " + DecisionText(d),
      Notifications.MarkerStatusUpdate, MarkerAction(id))
  }
}
