/**
 * The dashboard: activity records, profile-view recording with its
 * one-hour cooldown, the recent-activity feed and the profile-completeness
 * score.
 */
module Dashboard {
  import opened Common
  import opened ErrorCodes
  import opened Users
  import opened Actors

  datatype ActivityType = ProfileView | Favorite | ContactRequest

  /** An activity entry; `userId` is the account whose feed it belongs to. */
  datatype Activity = Activity(
    userId: Uuid, activityType: ActivityType, message: string,
    relatedUserId: Option<Uuid>, relatedUserName: Option<string>, relatedEntityId: Option<Uuid>)

  /** The name an anonymous viewer is shown under. */
  const AnonymousName := "익명 사용자"
  const ViewedSuffix := "님이 프로필을 조회했습니다"
  const FavoritedSuffix := "님이 프로필을 찜했습니다"
  const ContactSuffix := "님으로부터 섭외 요청이 도착했습니다"

  /** `create`: all six arguments copied. */
  function Create(user: Uuid, activityType: ActivityType, message: string,
                  relatedUserId: Option<Uuid>, relatedUserName: Option<string>, relatedEntityId: Option<Uuid>): (r: Activity)
    ensures r.userId == user && r.activityType == activityType && r.message == message
    ensures r.relatedUserId == relatedUserId && r.relatedUserName == relatedUserName
    ensures r.relatedEntityId == relatedEntityId
  {
    Activity(user, activityType, message, relatedUserId, relatedUserName, relatedEntityId)
  }

  /** The name a viewer is shown under: the account name, or the anonymous name. */
  function ViewerName(viewer: User?): (r: string)
    reads viewer
    ensures viewer == null ==> r == AnonymousName
    ensures viewer != null ==> r == viewer.name
  {
    if viewer == null then AnonymousName else viewer.name
  }

  /** `profileViewed`: an entry on the actor's feed naming the viewer, or the anonymous name. */
  function ProfileViewed(actor: User, viewer: User?): (r: Activity)
    reads viewer
    ensures r.userId == actor.id && r.activityType == ProfileView
    ensures r.message == ViewerName(viewer) + ViewedSuffix && r.relatedUserName == Some(ViewerName(viewer))
    ensures viewer == null ==> r.relatedUserId == None && r.relatedUserName == Some(AnonymousName)
    ensures viewer != null ==> r.relatedUserId == Some(viewer.id)
    ensures r.relatedEntityId == None
  {
    var name := ViewerName(viewer);
    Activity(actor.id, ProfileView, name + ViewedSuffix,
             if viewer == null then None else Some(viewer.id), Some(name), None)
  }

  /** `favorited`: an entry on the actor's feed naming who added the favorite. */
  function Favorited(actor: User, favoritedBy: User): (r: Activity)
    reads favoritedBy
    ensures r.userId == actor.id && r.activityType == Favorite
    ensures r.message == favoritedBy.name + FavoritedSuffix
    ensures r.relatedUserId == Some(favoritedBy.id) && r.relatedUserName == Some(favoritedBy.name)
    ensures r.relatedEntityId == None
  {
    Activity(actor.id, Favorite, favoritedBy.name + FavoritedSuffix, Some(favoritedBy.id), Some(favoritedBy.name), None)
  }

  /** `contactReceived`: an entry on the actor's feed naming the agency and the project. */
  function ContactReceived(actor: User, agency: User, projectId: Uuid): (r: Activity)
    reads agency
    ensures r.userId == actor.id && r.activityType == ContactRequest
    ensures r.message == agency.name + ContactSuffix
    ensures r.relatedUserId == Some(agency.id) && r.relatedUserName == Some(agency.name)
    ensures r.relatedEntityId == Some(projectId)
  {
    Activity(actor.id, ContactRequest, agency.name + ContactSuffix, Some(agency.id), Some(agency.name), Some(projectId))
  }

  /** A fixed suffix can be cut off again: equal messages name the same user. */
  lemma {:induction false} SuffixCancels(a: string, b: string, suffix: string)
    requires a + suffix == b + suffix
    ensures a == b
  {
    assert |a| == |b|;
    assert a == (a + suffix)[..|a|];
    assert b == (b + suffix)[..|b|];
  }

  /** Two profile-view messages are equal exactly when they name the same viewer. */
  lemma ProfileViewMessageNamesViewer(actor: User, v1: User?, v2: User?)
    ensures ProfileViewed(actor, v1).message == ProfileViewed(actor, v2).message <==> ViewerName(v1) == ViewerName(v2)
  {
    if ProfileViewed(actor, v1).message == ProfileViewed(actor, v2).message {
      SuffixCancels(ViewerName(v1), ViewerName(v2), ViewedSuffix);
    }
  }

  // ---------------------------------------------------------------------
  // Profile completeness
  // ---------------------------------------------------------------------

  /** The weights of stage name, birth year, introduction, height, weight, skills, languages and image. */
  const Weights: seq<int> := [15, 10, 20, 10, 10, 15, 10, 10]

  /** Which of the eight scored items a profile has; lists count only when non-empty. */
  function Presence(p: ActorProfile): (r: seq<bool>)
    reads p, p.user
    ensures |r| == |Weights|
  {
    [p.stageName.Some?, p.birthYear.Some?, p.introduction.Some?, p.height.Some?, p.weight.Some?,
     |p.skills| > 0, |p.languages| > 0, p.user.profileImage.Some?]
  }

  /** The sum of the weights whose item is present. */
  function WeightedSum(present: seq<bool>, weights: seq<int>): int
    requires |present| == |weights|
  {
    if present == [] then 0
    else (if present[0] then weights[0] else 0) + WeightedSum(present[1..], weights[1..])
  }

  function Sum(xs: seq<int>): int
  {
    if xs == [] then 0 else xs[0] + Sum(xs[1..])
  }

  predicate AllTrue(bs: seq<bool>)
  {
    forall i :: 0 <= i < |bs| ==> bs[i]
  }

  /** With positive weights the sum lies between 0 and the total, and reaches the total exactly when all are present. */
  lemma {:induction false} WeightedSumBounds(present: seq<bool>, weights: seq<int>)
    requires |present| == |weights|
    requires forall i :: 0 <= i < |weights| ==> weights[i] > 0
    ensures 0 <= WeightedSum(present, weights) <= Sum(weights)
    ensures WeightedSum(present, weights) == Sum(weights) <==> AllTrue(present)
  {
    if present != [] {
      WeightedSumBounds(present[1..], weights[1..]);
      if AllTrue(present) {
        assert AllTrue(present[1..]);
      }
      if AllTrue(present[1..]) && present[0] {
        assert forall i :: 0 <= i < |present| ==> present[i] by {
          forall i | 0 <= i < |present| ensures present[i] {
            if i > 0 { assert present[i] == present[1..][i - 1]; }
          }
        }
      }
    }
  }

  lemma WeightsTotal100()
    ensures Sum(Weights) == 100
  {
  }

  /**
   * `calculateProfileCompleteness`: 0 without a profile, otherwise the
   * fixed weight of every item the profile has.
   */
  function ProfileCompleteness(p: ActorProfile?): (score: int)
    reads if p == null then {} else {p, p.user}
    ensures p == null ==> score == 0
  {
    if p == null then 0
    else
      (if p.stageName.Some? then 15 else 0) +
      (if p.birthYear.Some? then 10 else 0) +
      (if p.introduction.Some? then 20 else 0) +
      (if p.height.Some? then 10 else 0) +
      (if p.weight.Some? then 10 else 0) +
      (if |p.skills| > 0 then 15 else 0) +
      (if |p.languages| > 0 then 10 else 0) +
      (if p.user.profileImage.Some? then 10 else 0)
  }

  /**
   * The score is the weighted sum over the present items, lies in 0..100,
   * and is 100 exactly when all eight items are present.
   */
  lemma CompletenessIsWeightedSum(p: ActorProfile)
    ensures ProfileCompleteness(p) == WeightedSum(Presence(p), Weights)
    ensures 0 <= ProfileCompleteness(p) <= 100
    ensures ProfileCompleteness(p) == 100 <==> AllTrue(Presence(p))
  {
    var pr := Presence(p);
    UnrollWeights(pr);
    WeightedSumBounds(pr, Weights);
    WeightsTotal100();
  }

  /** The weighted sum over the fixed weights, written out item by item. */
  lemma UnrollWeights(b: seq<bool>)
    requires |b| == 8
    ensures WeightedSum(b, Weights) ==
      (if b[0] then 15 else 0) + (if b[1] then 10 else 0) + (if b[2] then 20 else 0) + (if b[3] then 10 else 0) +
      (if b[4] then 10 else 0) + (if b[5] then 15 else 0) + (if b[6] then 10 else 0) + (if b[7] then 10 else 0)
  {
    var w := Weights;
    assert WeightedSum(b[8..], w[8..]) == 0;
    assert WeightedSum(b[7..], w[7..]) == (if b[7] then 10 else 0) + WeightedSum(b[8..], w[8..]);
    assert WeightedSum(b[6..], w[6..]) == (if b[6] then 10 else 0) + WeightedSum(b[7..], w[7..]);
    assert WeightedSum(b[5..], w[5..]) == (if b[5] then 15 else 0) + WeightedSum(b[6..], w[6..]);
    assert WeightedSum(b[4..], w[4..]) == (if b[4] then 10 else 0) + WeightedSum(b[5..], w[5..]);
    assert WeightedSum(b[3..], w[3..]) == (if b[3] then 10 else 0) + WeightedSum(b[4..], w[4..]);
    assert WeightedSum(b[2..], w[2..]) == (if b[2] then 20 else 0) + WeightedSum(b[3..], w[3..]);
    assert WeightedSum(b[1..], w[1..]) == (if b[1] then 10 else 0) + WeightedSum(b[2..], w[2..]);
    assert b[0..] == b && w[0..] == w;
  }

  // ---------------------------------------------------------------------
  // The dashboard service
  // ---------------------------------------------------------------------

  /** A stored profile view; `createdAt` is in seconds. */
  datatype ProfileViewRecord = ProfileViewRecord(actorId: Uuid, viewerId: Option<Uuid>, viewerIp: Option<string>, createdAt: int)

  /** The cooldown between two recorded views by the same viewer, in seconds (one hour). */
  const ViewCooldownSeconds := 3600

  /** The largest page of recent activities a caller may ask for. */
  const MaxRecentActivities := 50

  /** `existsByActorIdAndViewerIdSince`. */
  predicate ViewedByUserSince(views: seq<ProfileViewRecord>, actorId: Uuid, viewerId: Uuid, since: int)
  {
    exists i :: 0 <= i < |views| && views[i].actorId == actorId && views[i].viewerId == Some(viewerId) && views[i].createdAt >= since
  }

  /** `existsByActorIdAndViewerIpSince`. */
  predicate ViewedFromIpSince(views: seq<ProfileViewRecord>, actorId: Uuid, viewerIp: string, since: int)
  {
    exists i :: 0 <= i < |views| && views[i].actorId == actorId && views[i].viewerIp == Some(viewerIp) && views[i].createdAt >= since
  }

  /**
   * Whether `recordProfileView` stores a view: the target must be an actor
   * account, a viewer never counts on their own profile, and a logged-in
   * viewer (by id) or else an anonymous one with a known IP (by IP) must not
   * have a recorded view within the cooldown. An anonymous view without an
   * IP is always recorded.
   */
  predicate ShouldRecordView(actorType: Option<UserType>, actorId: Uuid, viewerId: Option<Uuid>, viewerIp: Option<string>,
                             views: seq<ProfileViewRecord>, now: int)
  {
    actorType == Some(Actor) &&
    viewerId != Some(actorId) &&
    var since := now - ViewCooldownSeconds;
    if viewerId.Some? then !ViewedByUserSince(views, actorId, viewerId.value, since)
    else viewerIp.None? || !ViewedFromIpSince(views, actorId, viewerIp.value, since)
  }

  /** Within the cooldown, a second view by the same viewer, or from the same IP, is not recorded. */
  lemma {:induction false} RepeatViewIgnored(actorType: Option<UserType>, actorId: Uuid, viewerId: Option<Uuid>,
                                            viewerIp: Option<string>, views: seq<ProfileViewRecord>, now: int, later: int)
    requires now <= later <= now + ViewCooldownSeconds
    requires viewerId.Some? || viewerIp.Some?
    ensures !ShouldRecordView(actorType, actorId, viewerId, viewerIp,
                              views + [ProfileViewRecord(actorId, viewerId, viewerIp, now)], later)
  {
    var w := views + [ProfileViewRecord(actorId, viewerId, viewerIp, now)];
    var since := later - ViewCooldownSeconds;
    assert w[|views|].createdAt >= since;
    if viewerId.Some? {
      assert ViewedByUserSince(w, actorId, viewerId.value, since);
    } else {
      assert ViewedFromIpSince(w, actorId, viewerIp.value, since);
    }
  }

  /** Once the cooldown has passed, the earlier view no longer blocks a new one. */
  lemma {:induction false} ViewCountsAgainAfterCooldown(actorId: Uuid, viewerId: Uuid, viewerIp: Option<string>, now: int, later: int)
    requires later > now + ViewCooldownSeconds
    ensures (ShouldRecordView(Some(Actor), actorId, Some(viewerId), viewerIp,
                              [ProfileViewRecord(actorId, Some(viewerId), viewerIp, now)], later)
             <==> viewerId != actorId)
  {
    var w := [ProfileViewRecord(actorId, Some(viewerId), viewerIp, now)];
    assert !ViewedByUserSince(w, actorId, viewerId, later - ViewCooldownSeconds) by {
      forall i | 0 <= i < |w| ensures w[i].createdAt < later - ViewCooldownSeconds {
      }
    }
  }

  /** The activities of one account, oldest first. */
  function ActivitiesOf(acts: seq<Activity>, userId: Uuid): (r: seq<Activity>)
    ensures |r| <= |acts|
    ensures forall i :: 0 <= i < |r| ==> r[i].userId == userId
  {
    if acts == [] then []
    else ActivitiesOf(acts[..|acts| - 1], userId) + (if acts[|acts| - 1].userId == userId then [acts[|acts| - 1]] else [])
  }

  /** `countByUserId`. */
  function CountOf(acts: seq<Activity>, userId: Uuid): nat
  {
    |set i | 0 <= i < |acts| && acts[i].userId == userId|
  }

  lemma {:induction false} ActivitiesOfCounts(acts: seq<Activity>, userId: Uuid)
    ensures |ActivitiesOf(acts, userId)| == CountOf(acts, userId)
  {
    if acts != [] {
      var init := acts[..|acts| - 1];
      ActivitiesOfCounts(init, userId);
      var s := set i | 0 <= i < |acts| && acts[i].userId == userId;
      var s0 := set i | 0 <= i < |init| && init[i].userId == userId;
      if acts[|acts| - 1].userId == userId {
        assert s == s0 + {|acts| - 1};
      } else {
        assert s == s0;
      }
    }
  }

  function Reverse<T>(xs: seq<T>): (r: seq<T>)
    ensures |r| == |xs|
    ensures forall i :: 0 <= i < |xs| ==> r[i] == xs[|xs| - 1 - i]
  {
    if xs == [] then [] else [xs[|xs| - 1]] + Reverse(xs[..|xs| - 1])
  }

  function Min(a: int, b: int): int
  {
    if a <= b then a else b
  }

  /** `RecentActivitiesResponse`: a page of entries, newest first, and the total count. */
  datatype RecentActivities = RecentActivities(items: seq<Activity>, total: int)

  class DashboardService {
    /** The user store, by id. */
    var users: map<Uuid, User>
    /** The actor profile store, by user id. */
    var actorProfiles: map<Uuid, ActorProfile>
    /** Stored profile views, in the order they were saved. */
    var profileViews: seq<ProfileViewRecord>
    /** Stored activities, in the order they were saved (oldest first). */
    var activities: seq<Activity>

    predicate Valid()
      reads this
    {
      forall id :: id in users ==> users[id].id == id
    }

    constructor ()
      ensures Valid()
      ensures users == map[] && actorProfiles == map[] && profileViews == [] && activities == []
    {
      users, actorProfiles, profileViews, activities := map[], map[], [], [];
    }

    /** `isActor`: exactly the accounts holding the actor role. */
    function IsActor(user: User): (r: bool)
      ensures r <==> user.userType == Actor
      ensures r <==> user.Authorities() == ["ROLE_ACTOR"]
    {
      assert "ROLE_" + TypeName(Actor) == "ROLE_ACTOR";
      assert |"ROLE_" + TypeName(Agency)| != |"ROLE_ACTOR"|;
      user.userType == Actor
    }

    /** The completeness score of the account's actor profile (0 when it has none). */
    function CompletenessOf(userId: Uuid): (score: int)
      reads this, if userId in actorProfiles then {actorProfiles[userId], actorProfiles[userId].user} else {}
      ensures userId !in actorProfiles ==> score == 0
      ensures 0 <= score <= 100
    {
      if userId in actorProfiles then
        CompletenessIsWeightedSum(actorProfiles[userId]);
        ProfileCompleteness(actorProfiles[userId])
      else
        ProfileCompleteness(null)
    }

    /**
     * `recordProfileView`: when the view counts, save one view (with the
     * viewer's id and IP as given) and one activity on the actor's feed;
     * otherwise change nothing. `now` is the current time in seconds.
     */
    method RecordProfileView(actorId: Uuid, viewer: User?, viewerIp: Option<string>, now: int)
      requires Valid()
      modifies this
      ensures Valid()
      ensures users == old(users) && actorProfiles == old(actorProfiles)
      ensures var viewerId := if viewer == null then None else Some(viewer.id);
        var actorType := if actorId in users then Some(users[actorId].userType) else None;
        if ShouldRecordView(actorType, actorId, viewerId, viewerIp, old(profileViews), now) then
          profileViews == old(profileViews) + [ProfileViewRecord(actorId, viewerId, viewerIp, now)] &&
          activities == old(activities) + [ProfileViewed(users[actorId], viewer)]
        else
          profileViews == old(profileViews) && activities == old(activities)
    {
      if actorId !in users || users[actorId].userType != Actor {
        return;
      }
      var actor := users[actorId];
      if viewer != null && viewer.id == actorId {
        return;
      }
      var since := now - ViewCooldownSeconds;
      if viewer != null {
        if ViewedByUserSince(profileViews, actorId, viewer.id, since) {
          return;
        }
      } else if viewerIp.Some? {
        if ViewedFromIpSince(profileViews, actorId, viewerIp.value, since) {
          return;
        }
      }
      var viewerId := if viewer == null then None else Some(viewer.id);
      profileViews := profileViews + [ProfileViewRecord(actorId, viewerId, viewerIp, now)];
      activities := activities + [ProfileViewed(actor, viewer)];
    }

    /** `recordFavoriteActivity`: a no-op for an unknown account, else one entry on its feed. */
    method RecordFavoriteActivity(actorId: Uuid, favoritedBy: User)
      requires Valid()
      modifies this
      ensures Valid()
      ensures users == old(users) && actorProfiles == old(actorProfiles) && profileViews == old(profileViews)
      ensures actorId !in users ==> activities == old(activities)
      ensures actorId in users ==> activities == old(activities) + [Favorited(users[actorId], favoritedBy)]
    {
      if actorId !in users {
        return;
      }
      activities := activities + [Favorited(users[actorId], favoritedBy)];
    }

    /**
     * `getRecentActivities`: the account's newest entries, at most
     * min(limit, 50) of them, and the account's total entry count. A page
     * size below 1 is rejected by the paging request (a validation error).
     */
    function GetRecentActivities(userId: Uuid, limit: int): (r: Result<RecentActivities, ErrorCode>)
      reads this
      ensures Min(limit, MaxRecentActivities) < 1 <==> r == Failure(ValidationError)
      ensures r.Success? ==>
        var mine := ActivitiesOf(activities, userId);
        r.value.total == CountOf(activities, userId) &&
        |r.value.items| == Min(Min(limit, MaxRecentActivities), |mine|) &&
        forall i :: 0 <= i < |r.value.items| ==> r.value.items[i] == mine[|mine| - 1 - i] && r.value.items[i].userId == userId
    {
      var size := Min(limit, MaxRecentActivities);
      if size < 1 then Failure(ValidationError)
      else
        var mine := ActivitiesOf(activities, userId);
        var newest := Reverse(mine);
        ActivitiesOfCounts(activities, userId);
        Success(RecentActivities(newest[..Min(size, |newest|)], CountOf(activities, userId)))
    }
  }
}
