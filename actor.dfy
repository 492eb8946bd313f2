/**
 * Actor profiles and the actor service: profile registration with a birth
 * year estimated from an age group, recommendations for agencies, and
 * contact requests.
 */
module Actors {
  import opened Common
  import opened ErrorCodes
  import opened Users

  /** A profile's field values at one moment; an absent list is stored as empty. */
  datatype ActorProfileRow = ActorProfileRow(
    stageName: Option<string>, birthYear: Option<int>, introduction: Option<string>,
    nationality: Option<string>, height: Option<int>, weight: Option<int>,
    skills: seq<string>, languages: seq<string>, agency: Option<string>, isProfileComplete: bool)

  /** What the builder leaves when given only the user: nothing set, empty lists, incomplete. */
  const DefaultRow := ActorProfileRow(None, None, None, None, None, None, [], [], None, false)

  class ActorProfile {
    /** The actor's account; its id is the profile's id. */
    const user: User
    var stageName: Option<string>
    var birthYear: Option<int>
    var introduction: Option<string>
    var nationality: Option<string>
    var height: Option<int>
    var weight: Option<int>
    var skills: seq<string>
    var languages: seq<string>
    var agency: Option<string>
    var isProfileComplete: bool

    /** `createDefault(user)`: only the user is set. */
    constructor CreateDefault(user: User)
      ensures this.user == user
      ensures Row() == DefaultRow
    {
      this.user := user;
      stageName, birthYear, introduction, nationality := None, None, None, None;
      height, weight, agency := None, None, None;
      skills, languages := [], [];
      isProfileComplete := false;
    }

    function Row(): ActorProfileRow
      reads this
    {
      ActorProfileRow(stageName, birthYear, introduction, nationality, height, weight,
                      skills, languages, agency, isProfileComplete)
    }

    /**
     * `updateProfile`: store the seven scalar arguments as given, null lists
     * as empty lists, and mark the profile complete.
     */
    method UpdateProfile(stageName: Option<string>, birthYear: Option<int>, introduction: Option<string>,
                         nationality: Option<string>, height: Option<int>, weight: Option<int>,
                         skills: Option<seq<string>>, languages: Option<seq<string>>, agency: Option<string>)
      modifies this
      ensures Row() == ActorProfileRow(stageName, birthYear, introduction, nationality, height, weight,
                                       OrEmpty(skills), OrEmpty(languages), agency, true)
      ensures Row().isProfileComplete
    {
      this.stageName := stageName;
      this.birthYear := birthYear;
      this.introduction := introduction;
      this.nationality := nationality;
      this.height := height;
      this.weight := weight;
      this.skills := OrEmpty(skills);
      this.languages := OrEmpty(languages);
      this.agency := agency;
      this.isProfileComplete := true;
    }
  }

  /** The age groups a registration may give, youngest first. */
  const AgeGroups: seq<string> := ["10대", "20대", "30대", "40대", "50대", "60대 이상"]

  /**
   * `estimateBirthYear`: the i-th age group (from 0) estimates a birth year
   * 15 + 10i years before the current year; any other string estimates
   * nothing. The current year is a parameter.
   */
  function EstimateBirthYear(ageGroup: string, currentYear: int): (r: Option<int>)
    ensures r.Some? <==> ageGroup in AgeGroups
    ensures forall i :: 0 <= i < |AgeGroups| && AgeGroups[i] == ageGroup ==> r == Some(currentYear - (15 + 10 * i))
  {
    match ageGroup
    case "10대" => Some(currentYear - 15)
    case "20대" => Some(currentYear - 25)
    case "30대" => Some(currentYear - 35)
    case "40대" => Some(currentYear - 45)
    case "50대" => Some(currentYear - 55)
    case "60대 이상" => Some(currentYear - 65)
    case _ => None
  }

  /** Every estimate lies between 15 and 65 years back, and an older group never gives a later year. */
  lemma EstimateRange(a: string, b: string, currentYear: int)
    ensures EstimateBirthYear(a, currentYear).Some? ==>
      currentYear - 65 <= EstimateBirthYear(a, currentYear).value <= currentYear - 15
    ensures forall i, j :: 0 <= i <= j < |AgeGroups| && AgeGroups[i] == a && AgeGroups[j] == b ==>
      EstimateBirthYear(b, currentYear).value <= EstimateBirthYear(a, currentYear).value
  {
  }

  /** The two reasons a recommendation can give. */
  const CompleteReason := "프로필 완성도 높음"
  const SkillsReason := "다양한 스킬 보유"

  /** `ActorRecommendResponse`. */
  datatype Recommendation = Recommendation(
    id: Uuid, name: string, imageUrl: Option<string>, matchScore: int, matchReasons: seq<string>)

  /**
   * The response for one recommended actor: named by stage name when there
   * is one, else by account name; always the completeness reason, and the
   * skills reason exactly when the actor lists skills.
   */
  function RecommendationFor(actor: ActorProfile, score: int): (r: Recommendation)
    reads actor, actor.user
    ensures r.id == actor.user.id && r.matchScore == score && r.imageUrl == actor.user.profileImage
    ensures actor.stageName.Some? ==> r.name == actor.stageName.value
    ensures actor.stageName.None? ==> r.name == actor.user.name
    ensures 1 <= |r.matchReasons| <= 2 && r.matchReasons[0] == CompleteReason
    ensures |r.matchReasons| == 2 <==> |actor.skills| > 0
    ensures |r.matchReasons| == 2 ==> r.matchReasons[1] == SkillsReason
  {
    var reasons := if |actor.skills| > 0 then [CompleteReason, SkillsReason] else [CompleteReason];
    Recommendation(actor.user.id, if actor.stageName.Some? then actor.stageName.value else actor.user.name,
                   actor.user.profileImage, score, reasons)
  }

  /** The score of the i-th recommendation (from 0): 85, then 5 less for each later one. */
  function ScoreAt(i: nat): (s: int)
    ensures s <= 85
    ensures i < 10 ==> 40 <= s
  {
    85 - 5 * i
  }

  /** Consecutive scores step down by exactly 5. */
  lemma ScoresStepDown(i: nat)
    ensures ScoreAt(i + 1) == ScoreAt(i) - 5
  {
  }

  class ActorService {
    /** The actor profile store, by user id. */
    var profiles: map<Uuid, ActorProfile>

    predicate Valid()
      reads this
    {
      forall id :: id in profiles ==> profiles[id].user.id == id
    }

    constructor ()
      ensures Valid() && profiles == map[]
    {
      profiles := map[];
    }

    /**
     * `updateProfile`: actors only; the caller's profile must exist; the
     * request's nine fields are stored and the profile marked complete.
     */
    method UpdateProfile(user: User, stageName: Option<string>, birthYear: Option<int>, introduction: Option<string>,
                         nationality: Option<string>, height: Option<int>, weight: Option<int>,
                         skills: Option<seq<string>>, languages: Option<seq<string>>, agency: Option<string>)
      returns (r: Result<ActorProfileRow, ErrorCode>)
      requires Valid()
      modifies if user.id in profiles then {profiles[user.id]} else {}
      ensures user.userType != Actor ==> r == Failure(Forbidden)
      ensures user.userType == Actor && user.id !in profiles ==> r == Failure(ActorProfileNotFound)
      ensures user.userType == Actor && user.id in profiles ==>
        r == Success(profiles[user.id].Row()) &&
        profiles[user.id].Row() == ActorProfileRow(stageName, birthYear, introduction, nationality, height, weight,
                                                   OrEmpty(skills), OrEmpty(languages), agency, true)
      ensures r.Failure? && user.id in profiles ==> profiles[user.id].Row() == old(profiles[user.id].Row())
    {
      var guard := RequireType(user, Actor);
      if guard.Failure? {
        return Failure(guard.error);
      }
      if user.id !in profiles {
        return Failure(ActorProfileNotFound);
      }
      var actor := profiles[user.id];
      actor.UpdateProfile(stageName, birthYear, introduction, nationality, height, weight, skills, languages, agency);
      r := Success(actor.Row());
    }

    /**
     * `createProfile`: actors only; the caller's (default) profile must
     * exist. The account is renamed, and its image replaced only when an
     * uploaded image URL is given. The birth year is the one given, else the
     * estimate from the age group; nationality, languages and agency are
     * cleared, and the profile is marked complete.
     */
    method CreateProfile(user: User, name: string, introduction: string, ageGroup: string,
                         birthYear: Option<int>, height: Option<int>, weight: Option<int>,
                         skills: Option<seq<string>>, profileImageUrl: Option<string>, currentYear: int)
      returns (r: Result<ActorProfileRow, ErrorCode>)
      requires Valid()
      modifies user, if user.id in profiles then {profiles[user.id]} else {}
      ensures user.userType != Actor ==> r == Failure(Forbidden)
      ensures user.userType == Actor && user.id !in profiles ==> r == Failure(ActorProfileNotFound)
      ensures r.Failure? ==> user.Row() == old(user.Row())
      ensures r.Failure? && user.id in profiles ==> profiles[user.id].Row() == old(profiles[user.id].Row())
      ensures user.userType == Actor && user.id in profiles ==>
        var year := if birthYear.Some? then birthYear else EstimateBirthYear(ageGroup, currentYear);
        user.Row() == old(user.Row()).(name := name,
                                       profileImage := if profileImageUrl.Some? then profileImageUrl else old(user.profileImage)) &&
        profiles[user.id].Row() == ActorProfileRow(Some(name), year, Some(introduction), None, height, weight,
                                                   OrEmpty(skills), [], None, true) &&
        r == Success(profiles[user.id].Row())
    {
      var guard := RequireType(user, Actor);
      if guard.Failure? {
        return Failure(guard.error);
      }
      if user.id !in profiles {
        return Failure(ActorProfileNotFound);
      }
      var actor := profiles[user.id];
      if profileImageUrl.Some? {
        user.UpdateProfile(name, profileImageUrl);
      } else {
        user.UpdateProfile(name, user.profileImage);
      }
      var year := if birthYear.Some? then birthYear else EstimateBirthYear(ageGroup, currentYear);
      actor.UpdateProfile(Some(name), year, Some(introduction), None, height, weight, skills, None, None);
      r := Success(actor.Row());
    }

    /**
     * `recommendActors`: agencies only. `page` is what
     * `findByIsProfileCompleteTrue(PageRequest.of(0, 10))` returns: at most
     * ten distinct stored profiles, all complete, and every complete profile
     * when there are fewer than ten (the order is the database's). Each
     * becomes a recommendation, the i-th scored 85 - 5i.
     */
    method RecommendActors(user: User, page: seq<ActorProfile>) returns (r: Result<seq<Recommendation>, ErrorCode>)
      requires Valid()
      requires |page| <= 10
      requires forall i :: 0 <= i < |page| ==>
        page[i].user.id in profiles && profiles[page[i].user.id] == page[i] && page[i].isProfileComplete
      requires forall i, j :: 0 <= i < j < |page| ==> page[i] != page[j]
      requires |page| < 10 ==> forall id :: id in profiles && profiles[id].isProfileComplete ==>
        exists i :: 0 <= i < |page| && page[i] == profiles[id]
      ensures user.userType != Agency ==> r == Failure(Forbidden)
      ensures user.userType == Agency ==> r.Success? && |r.value| == |page|
      ensures r.Success? ==> forall i :: 0 <= i < |r.value| ==> r.value[i] == RecommendationFor(page[i], ScoreAt(i))
      ensures r.Success? ==> forall i :: 0 <= i < |r.value| ==> 40 <= r.value[i].matchScore <= 85
      ensures r.Success? ==> forall i :: 0 <= i < |r.value| ==>
        r.value[i].id in profiles && profiles[r.value[i].id].isProfileComplete
      ensures r.Success? ==> forall i, j :: 0 <= i < j < |r.value| ==> r.value[i].id != r.value[j].id
      ensures r.Success? && |page| < 10 ==> forall id :: id in profiles && profiles[id].isProfileComplete ==>
        exists i :: 0 <= i < |r.value| && r.value[i].id == id
    {
      var guard := RequireType(user, Agency);
      if guard.Failure? {
        return Failure(guard.error);
      }
      var recommendations: seq<Recommendation> := [];
      var baseScore := 85;
      var i := 0;
      while i < |page|
        invariant 0 <= i <= |page|
        invariant |recommendations| == i
        invariant baseScore == ScoreAt(i)
        invariant forall k :: 0 <= k < i ==> recommendations[k] == RecommendationFor(page[k], ScoreAt(k))
      {
        var actor := page[i];
        var reasons := [CompleteReason];
        if |actor.skills| > 0 {
          reasons := reasons + [SkillsReason];
        }
        var name := if actor.stageName.Some? then actor.stageName.value else actor.user.name;
        recommendations := recommendations + [Recommendation(actor.user.id, name, actor.user.profileImage, baseScore, reasons)];
        baseScore := baseScore - 5;
        i := i + 1;
      }
      r := Success(recommendations);
    }

    /**
     * `contactActor`: agencies only; the target actor's profile must exist.
     * Nothing is stored; the answer is the generated contact id, a parameter.
     */
    method ContactActor(user: User, actorId: Uuid, contactId: Uuid) returns (r: Result<Uuid, ErrorCode>)
      ensures user.userType != Agency ==> r == Failure(Forbidden)
      ensures user.userType == Agency && actorId !in profiles ==> r == Failure(ActorProfileNotFound)
      ensures user.userType == Agency && actorId in profiles ==> r == Success(contactId)
    {
      var guard := RequireType(user, Agency);
      if guard.Failure? {
        return Failure(guard.error);
      }
      if actorId !in profiles {
        return Failure(ActorProfileNotFound);
      }
      r := Success(contactId);
    }
  }
}
