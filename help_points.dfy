/**
 * `HelpPointsService`: the help-point collection with its owner-only edits,
 * the participant list, status changes and the per-category help-point
 * counters. The category service's help-point counters are an abstract map,
 * notifications sent are an outbox of `addNotification` requests, and storage
 * folder deletions are a log; uploads, the clock and new ids are parameters.
 */
module HelpPoints {
  import opened Common
  import opened Documents
  import opened Participants
  import opened Proximity
  import opened CounterDeltas
  import Notifications

  datatype HelpPointStatus = Active | Completed | Cancelled | PendingStatus | WaitingForApproval | InProgress

  datatype HelpPoint = HelpPoint(
    title: string,
    description: string,
    categoryId: string,
    ownerId: string,
    priority: string,
    status: HelpPointStatus,
    participants: seq<Participant>,
    images: Option<seq<string>>,
    rating: int,
    reviewCount: int,
    visitCount: int,
    isFavorited: bool,
    isActive: bool,
    verified: bool,
    contactPhone: Option<string>,
    coordinates: seq<real>,
    address: Option<string>,
    locationDescription: Option<string>,
    createdAt: int)

  /** `CreateHelpPointDto`. */
  datatype HelpPointInput = HelpPointInput(
    title: string,
    description: string,
    coordinates: seq<real>,
    address: Option<string>,
    locationDescription: Option<string>,
    categoryId: string,
    images: Option<seq<string>>,
    contactPhone: Option<string>,
    status: Option<HelpPointStatus>,
    priority: Option<string>)

  /** The fields of `Partial<HelpPoint>` an update may set in this model; the others are left out. */
  datatype HelpPointPatch = HelpPointPatch(
    title: Option<string>,
    description: Option<string>,
    categoryId: Option<string>,
    images: Option<seq<string>>,
    status: Option<HelpPointStatus>,
    priority: Option<string>,
    contactPhone: Option<string>,
    address: Option<string>,
    locationDescription: Option<string>,
    isActive: Option<bool>)

  datatype Decision = Accept | Reject

  function DecisionStatus(d: Decision): ParticipantStatus {
    if d == Accept then Accepted else Rejected
  }

  function DecisionText(d: Decision): string {
    if d == Accept then "accepted" else "rejected"
  }

  /** The change `changeStatus` makes to the category's counter; it depends on the new status alone. */
  function StatusDelta(s: HelpPointStatus): (d: int)
    ensures d == 1 <==> s == Active
    ensures d == -1 <==> s == Completed || s == Cancelled || s == PendingStatus
    ensures d == 0 <==> s == WaitingForApproval || s == InProgress
  {
    match s
    case Active => 1
    case Cancelled => -1
    case Completed => -1
    case PendingStatus => -1
    case _ => 0
  }

  /** The initial record of `create`. */
  function NewHelpPoint(userId: string, input: HelpPointInput, images: Option<seq<string>>, now: int): HelpPoint {
    HelpPoint(
      input.title, input.description, input.categoryId, userId,
      if input.priority.Some? then input.priority.value else "Medium",
      if input.status.Some? then input.status.value else Active,
      [], images, 0, 0, 0, false, true, false, input.contactPhone,
      input.coordinates, input.address, input.locationDescription, now)
  }

  function Patched(h: HelpPoint, p: HelpPointPatch, images: Option<seq<string>>): HelpPoint {
    h.(
      title := if p.title.Some? then p.title.value else h.title,
      description := if p.description.Some? then p.description.value else h.description,
      categoryId := if p.categoryId.Some? then p.categoryId.value else h.categoryId,
      images := images,
      status := if p.status.Some? then p.status.value else h.status,
      priority := if p.priority.Some? then p.priority.value else h.priority,
      contactPhone := if p.contactPhone.Some? then p.contactPhone else h.contactPhone,
      address := if p.address.Some? then p.address else h.address,
      locationDescription := if p.locationDescription.Some? then p.locationDescription else h.locationDescription,
      isActive := if p.isActive.Some? then p.isActive.value else h.isActive)
  }

  function ParticipantsOf(h: HelpPoint): seq<Participant> {
    h.participants
  }

  function AttachmentsFolder(id: string): string {
    "helpPoints/attachments/" + id
  }

  class HelpPointStore {
    var docs: seq<Doc<HelpPoint>>
    /** `helpPointsCount` per category, kept by the category service. */
    var counts: map<string, int>
    /** Every `addNotification` request, oldest first. */
    var outbox: seq<Notifications.NotificationRequest>
    /** Every storage folder deleted, oldest first. */
    var deletedFolders: seq<string>

    ghost predicate Valid()
      reads this
    {
      UniqueIds(docs) && AllUniqueUsers(docs, ParticipantsOf)
    }

    constructor()
      ensures Valid() && docs == [] && counts == map[] && outbox == [] && deletedFolders == []
    {
      docs := [];
      counts := map[];
      outbox := [];
      deletedFolders := [];
    }

    /** `findOne`: a malformed id fails the cast; an unknown one is NotFound. */
    function FindOne(id: string): (r: Outcome<HelpPoint>)
      reads this
      ensures !IsObjectId(id) ==> r == Err(InvalidId)
      ensures IsObjectId(id) && !HasId(docs, id) ==> r == Err(NotFound)
      ensures IsObjectId(id) && HasId(docs, id) ==> r.Ok?
      ensures r.Ok? ==> exists i :: 0 <= i < |docs| && docs[i].id == id && docs[i].body == r.value
    {
      if !IsObjectId(id) then Err(InvalidId)
      else match Get(docs, id)
        case None => Err(NotFound)
        case Some(h) => Ok(h)
    }

    /**
     * `findAll`: at most one record (the query is limited to one), the newest,
     * among those near the given point when one is given.
     */
    function FindAll(params: Option<LocationParams>, near: (HelpPoint, real, real, real) -> bool): (r: seq<HelpPoint>)
      reads this
      ensures |r| <= 1
      ensures forall x :: x in r ==> x in Bodies(docs)
      ensures params.Some? ==> forall x :: x in r ==>
        near(x, params.value.longitude, params.value.latitude, EffectiveRadius(params.value))
      ensures params.None? ==> (r == [] <==> docs == [])
      ensures params.Some? ==> (r == [] <==> forall x :: x in Bodies(docs) ==>
        !near(x, params.value.longitude, params.value.latitude, EffectiveRadius(params.value)))
      ensures |r| == 1 ==> forall x ::
        (x in Bodies(docs) && (params.None? || near(x, params.value.longitude, params.value.latitude, EffectiveRadius(params.value))))
        ==> x.createdAt <= r[0].createdAt
    {
      var candidates := if params.Some? then NearOnes(Bodies(docs), params.value, near) else Bodies(docs);
      match Newest(candidates, (x: HelpPoint) => x.createdAt)
      case None => []
      case Some(h) => [h]
    }

    /**
     * `create`: a malformed category id throws before anything is stored.
     * Otherwise the record is saved (unless the store rejects it), its images
     * are uploaded, and the achievement check runs; a failure after the save
     * yields the failure envelope but leaves the record stored.
     */
    method Create(userId: string, input: HelpPointInput, newId: string, now: int,
                  saveOk: bool, uploaded: Option<seq<string>>, achievementsOk: bool)
      returns (r: Outcome<Envelope<HelpPoint>>)
      requires Valid() && !HasId(docs, newId)
      modifies this
      ensures Valid() && outbox == old(outbox) && deletedFolders == old(deletedFolders)
      ensures !IsObjectId(input.categoryId) ==> r == Err(InvalidId) && docs == old(docs) && counts == old(counts)
      ensures IsObjectId(input.categoryId) && !saveOk ==>
        r == Ok(Envelope(false, None)) && docs == old(docs) && counts == old(counts)
      ensures IsObjectId(input.categoryId) && saveOk ==>
        var h := NewHelpPoint(userId, input, uploaded, now);
        && docs == old(docs) + [Doc(newId, h)]
        && h.participants == [] && h.rating == 0 && h.reviewCount == 0 && h.visitCount == 0
        && !h.isFavorited && h.ownerId == userId
        && (achievementsOk ==> r == Ok(Envelope(true, Some(h))) && counts == AfterBumps(old(counts), [Bump(Some(input.categoryId), 1)]))
        && (!achievementsOk ==> r == Ok(Envelope(false, None)) && counts == old(counts))
    {
      if !IsObjectId(input.categoryId) {
        return Err(InvalidId);
      }
      if !saveOk {
        return Ok(Envelope(false, None));
      }
      var h := NewHelpPoint(userId, input, None, now);
      docs := docs + [Doc(newId, h)];
      h := h.(images := uploaded);
      docs := docs[|docs| - 1 := Doc(newId, h)];
      if !achievementsOk {
        return Ok(Envelope(false, None));
      }
      counts := AfterBumps(counts, [Bump(Some(input.categoryId), 1)]);
      r := Ok(Envelope(true, Some(h)));
    }

    /**
     * `update`: owner only. The attachment folder is deleted, new images (if
     * any) uploaded, the patch applied, and the counters moved when the
     * category changes. A malformed id is reported as NotFound.
     */
    method Update(id: string, userId: string, patch: HelpPointPatch, uploaded: Option<seq<string>>)
      returns (r: Outcome<Envelope<HelpPoint>>)
      requires Valid()
      modifies this
      ensures Valid() && outbox == old(outbox)
      ensures old(FindOne(id)).Err? ==> r == Err(NotFound) && unchanged(this)
      ensures old(FindOne(id)).Ok? && old(FindOne(id)).value.ownerId != userId ==> r == Err(Unauthorized) && unchanged(this)
      ensures old(FindOne(id)).Ok? && old(FindOne(id)).value.ownerId == userId ==>
        var h := old(FindOne(id)).value;
        var images := if patch.images.Some? && |patch.images.value| > 0 then uploaded
                      else if patch.images.Some? then patch.images else h.images;
        && deletedFolders == old(deletedFolders) + [AttachmentsFolder(id)]
        && (patch.categoryId.Some? && !IsObjectId(patch.categoryId.value) ==>
              r == Err(Failure) && docs == old(docs) && counts == old(counts))
        && (patch.categoryId.None? || IsObjectId(patch.categoryId.value) ==>
              && r == Ok(Envelope(true, Some(Patched(h, patch, images))))
              && docs == SetBody(old(docs), id, Patched(h, patch, images))
              && counts == AfterBumps(old(counts), UpdateBumps(patch.categoryId, h.categoryId)))
    {
      var found := FindOne(id);
      if found.Err? {
        return Err(NotFound);
      }
      var h := found.value;
      if h.ownerId != userId {
        return Err(Unauthorized);
      }
      deletedFolders := deletedFolders + [AttachmentsFolder(id)];
      var images := h.images;
      if patch.images.Some? && |patch.images.value| > 0 {
        images := uploaded;
      } else if patch.images.Some? {
        images := patch.images;
      }
      if patch.categoryId.Some? && !IsObjectId(patch.categoryId.value) {
        return Err(Failure);
      }
      var updated := Patched(h, patch, images);
      SetBodyKeepsUniqueUsers(docs, id, updated, ParticipantsOf);
      docs := SetBody(docs, id, updated);
      counts := AfterBumps(counts, UpdateBumps(patch.categoryId, h.categoryId));
      r := Ok(Envelope(true, Some(updated)));
    }

    /** `remove`: owner only; the attachment folder and the record are deleted. */
    method Remove(id: string, userId: string) returns (r: Outcome<()>)
      requires Valid()
      modifies this
      ensures Valid() && outbox == old(outbox) && counts == old(counts)
      ensures old(FindOne(id)).Err? ==> r == Err(old(FindOne(id)).error) && unchanged(this)
      ensures old(FindOne(id)).Ok? && old(FindOne(id)).value.ownerId != userId ==> r == Err(Unauthorized) && unchanged(this)
      ensures old(FindOne(id)).Ok? && old(FindOne(id)).value.ownerId == userId ==>
        r == Ok(()) && docs == Delete(old(docs), id) && deletedFolders == old(deletedFolders) + [AttachmentsFolder(id)]
    {
      var found := FindOne(id);
      if found.Err? {
        return Err(found.error);
      }
      if found.value.ownerId != userId {
        return Err(Unauthorized);
      }
      deletedFolders := deletedFolders + [AttachmentsFolder(id)];
      DeleteKeepsUniqueUsers(docs, id, ParticipantsOf);
      docs := Delete(docs, id);
      r := Ok(());
    }

    /**
     * `changeStatus`: sets the status, tells the owner when someone else
     * completes the help point, and moves the category counter by the delta
     * of the new status. A missing record is a crash (a property set on null).
     */
    method ChangeStatus(id: string, status: HelpPointStatus, userId: string) returns (r: Outcome<()>)
      requires Valid()
      modifies this
      ensures Valid() && deletedFolders == old(deletedFolders)
      ensures !IsObjectId(id) ==> r == Err(InvalidId) && unchanged(this)
      ensures IsObjectId(id) && !HasId(old(docs), id) ==> r == Err(Crash) && unchanged(this)
      ensures IsObjectId(id) && HasId(old(docs), id) ==>
        var h := Get(old(docs), id).value;
        && r == Ok(())
        && docs == SetBody(old(docs), id, h.(status := status))
        && outbox == old(outbox) + (if status == Completed && h.ownerId != userId then [CompletionNotice(id, h)] else [])
        && counts == AfterBumps(old(counts), [Bump(Some(h.categoryId), StatusDelta(status))])
    {
      if !IsObjectId(id) {
        return Err(InvalidId);
      }
      var found := Get(docs, id);
      if found.None? {
        return Err(Crash);
      }
      var h := found.value;
      SetBodyKeepsUniqueUsers(docs, id, h.(status := status), ParticipantsOf);
      docs := SetBody(docs, id, h.(status := status));
      if status == Completed && h.ownerId != userId {
        outbox := outbox + [CompletionNotice(id, h)];
      }
      counts := AfterBumps(counts, [Bump(Some(h.categoryId), StatusDelta(status))]);
      r := Ok(());
    }

    /** `applyForHelp`: a new applicant joins at the end as Pending and the owner is told. */
    method ApplyForHelp(id: string, userId: string, joinedAt: string) returns (r: Outcome<()>)
      requires Valid()
      modifies this
      ensures Valid() && counts == old(counts) && deletedFolders == old(deletedFolders)
      ensures old(FindOne(id)).Err? ==> r == Err(old(FindOne(id)).error) && unchanged(this)
      ensures old(FindOne(id)).Ok? && IsParticipant(old(FindOne(id)).value.participants, userId) ==>
        r == Err(Unauthorized) && unchanged(this)
      ensures old(FindOne(id)).Ok? && !IsParticipant(old(FindOne(id)).value.participants, userId) ==>
        var h := old(FindOne(id)).value;
        && r == Ok(())
        && docs == SetBody(old(docs), id, h.(participants := WithApplicant(h.participants, userId, joinedAt)))
        && outbox == old(outbox) + [ApplicationNotice(id, h)]
    {
      var found := FindOne(id);
      if found.Err? {
        return Err(found.error);
      }
      var h := found.value;
      if IsParticipant(h.participants, userId) {
        return Err(Unauthorized);
      }
      UniqueUsersAt(docs, id, ParticipantsOf);
      var updated := h.(participants := WithApplicant(h.participants, userId, joinedAt));
      SetBodyKeepsUniqueUsers(docs, id, updated, ParticipantsOf);
      docs := SetBody(docs, id, updated);
      outbox := outbox + [ApplicationNotice(id, h)];
      r := Ok(());
    }

    /** `removeFromHelp`: only a participant can withdraw; all of their entries go. */
    method RemoveFromHelp(id: string, userId: string) returns (r: Outcome<()>)
      requires Valid()
      modifies this
      ensures Valid() && counts == old(counts) && outbox == old(outbox) && deletedFolders == old(deletedFolders)
      ensures old(FindOne(id)).Err? ==> r == Err(old(FindOne(id)).error) && unchanged(this)
      ensures old(FindOne(id)).Ok? && !IsParticipant(old(FindOne(id)).value.participants, userId) ==>
        r == Err(Unauthorized) && unchanged(this)
      ensures old(FindOne(id)).Ok? && IsParticipant(old(FindOne(id)).value.participants, userId) ==>
        var h := old(FindOne(id)).value;
        r == Ok(()) && docs == SetBody(old(docs), id, h.(participants := Pulled(h.participants, userId)))
    {
      var found := FindOne(id);
      if found.Err? {
        return Err(found.error);
      }
      var h := found.value;
      if !IsParticipant(h.participants, userId) {
        return Err(Unauthorized);
      }
      UniqueUsersAt(docs, id, ParticipantsOf);
      PulledUnique(h.participants, userId);
      var updated := h.(participants := Pulled(h.participants, userId));
      SetBodyKeepsUniqueUsers(docs, id, updated, ParticipantsOf);
      docs := SetBody(docs, id, updated);
      r := Ok(());
    }

    /**
     * `updateParticipantStatus`: the first entry of the participant gets the
     * decision, and the participant is told, even when no entry matched.
     */
    method UpdateParticipantStatus(id: string, participantId: string, decision: Decision) returns (r: Outcome<()>)
      requires Valid()
      modifies this
      ensures Valid() && counts == old(counts) && deletedFolders == old(deletedFolders)
      ensures old(FindOne(id)).Err? ==> r == Err(old(FindOne(id)).error) && unchanged(this)
      ensures old(FindOne(id)).Ok? ==>
        var h := old(FindOne(id)).value;
        && r == Ok(())
        && docs == SetBody(old(docs), id, h.(participants := SetFirstStatus(h.participants, participantId, DecisionStatus(decision))))
        && outbox == old(outbox) + [DecisionNotice(id, h, participantId, decision)]
    {
      var found := FindOne(id);
      if found.Err? {
        return Err(found.error);
      }
      var h := found.value;
      UniqueUsersAt(docs, id, ParticipantsOf);
      var ps := SetFirstStatus(h.participants, participantId, DecisionStatus(decision));
      assert UniqueUsers(ps) by {
        assert forall i :: 0 <= i < |ps| ==> ps[i].userId == h.participants[i].userId;
      }
      var updated := h.(participants := ps);
      SetBodyKeepsUniqueUsers(docs, id, updated, ParticipantsOf);
      docs := SetBody(docs, id, updated);
      outbox := outbox + [DecisionNotice(id, h, participantId, decision)];
      r := Ok(());
    }
  }

  function HelpPointAction(id: string): Option<Notifications.Action> {
    Some(Notifications.Action(Notifications.HelpPointAction, id))
  }

  /** The owner's notice that someone else completed the help point. */
  function CompletionNotice(id: string, h: HelpPoint): Notifications.NotificationRequest {
    Notifications.NotificationRequest([h.ownerId], "Help Point Completed",
      "Your help point: " + h.title + " has been completed", Notifications.MarkerCompleted, HelpPointAction(id))
  }

  /** The owner's notice of a new applicant. */
  function ApplicationNotice(id: string, h: HelpPoint): Notifications.NotificationRequest {
    Notifications.NotificationRequest([h.ownerId], "New Helper Application",
      "Someone wants to help with your help point: " + h.title, Notifications.MarkerApplication, HelpPointAction(id))
  }

  /** The applicant's notice of the owner's decision, its title chosen by the decision. */
  function DecisionNotice(id: string, h: HelpPoint, participantId: string, d: Decision): (n: Notifications.NotificationRequest)
    ensures n.userIds == [participantId]
    ensures n.title == (if d == Accept then "Application Accepted" else "Application Rejected")
  {
    Notifications.NotificationRequest([participantId],
      if d == Accept then "Application Accepted" else "Application Rejected",
      "Your application to help with \"" + h.title + "\" has been " + DecisionText(d),
      Notifications.MarkerStatusUpdate, HelpPointAction(id))
  }
}
