/**
 * Showreels: an actor's video portfolio entries, their view counter, the
 * response that shows a duration as "m:ss", and the service that lets
 * anyone watch them and only their actor write them.
 */
module Showreels {
  import opened Common
  import opened ErrorCodes
  import opened JavaLang
  import opened Users
  import opened Actors

  // ---------------------------------------------------------------------
  // Duration formatting
  // ---------------------------------------------------------------------

  /** "%02d" of a number below 100: two digits, with a leading zero when needed. */
  function TwoDigits(n: nat): (r: string)
    requires n < 100
    ensures |r| == 2 && AllDigits(r)
    ensures DecimalValue(r) == n
  {
    var r := [DigitChar(n / 10), DigitChar(n % 10)];
    assert DecimalValue(r[..1]) == n / 10 by {
      assert r[..1][..0] == [];
    }
    assert DecimalValue(r) == DecimalValue(r[..1]) * 10 + n % 10;
    r
  }

  /**
   * `formatDuration`: nothing for a missing or non-positive length;
   * otherwise whole minutes, a colon, and the remaining seconds as two
   * digits.
   */
  function FormatDuration(seconds: Option<Int32>): (r: Option<string>)
    ensures r.None? <==> seconds.None? || seconds.value <= 0
    ensures r.Some? ==> |r.value| >= 4 && r.value[|r.value| - 3] == ':'
  {
    if seconds.None? || seconds.value <= 0 then None
    else
      var s := seconds.value as int;
      Some(DecimalString(s / 60) + ":" + TwoDigits(s % 60))
  }

  /** Reads "m:ss" back into seconds: the reading side of FormatDuration. */
  function ParseDuration(text: string): (r: Option<int>)
    ensures r.Some? ==> r.value >= 0
  {
    if |text| >= 4 && text[|text| - 3] == ':' && AllDigits(text[..|text| - 3]) && AllDigits(text[|text| - 2..])
    then Some(DecimalValue(text[..|text| - 3]) * 60 + DecimalValue(text[|text| - 2..]))
    else None
  }

  /** A formatted duration reads back as the number of seconds it was made from. */
  lemma FormatDurationRoundTrip(seconds: Int32)
    requires seconds > 0
    ensures ParseDuration(FormatDuration(Some(seconds)).value) == Some(seconds as int)
  {
    var s := seconds as int;
    var minutes, rest := DecimalString(s / 60), TwoDigits(s % 60);
    var text := minutes + ":" + rest;
    assert FormatDuration(Some(seconds)).value == text;
    assert text[..|text| - 3] == minutes;
    assert text[|text| - 2..] == rest;
    DecimalRoundTrip(s / 60);
  }

  /** Different positive lengths are never shown alike. */
  lemma FormatDurationInjective(a: Int32, b: Int32)
    requires a > 0 && b > 0 && a != b
    ensures FormatDuration(Some(a)) != FormatDuration(Some(b))
  {
    FormatDurationRoundTrip(a);
    FormatDurationRoundTrip(b);
  }

  /** A worked value: 125 seconds is "2:05". */
  lemma FormatDurationExample()
    ensures FormatDuration(Some(125)) == Some("2:05")
    ensures FormatDuration(Some(0)) == None
  {
    assert DecimalString(2) == "2";
    assert TwoDigits(5) == "05";
    assert "2" + ":" + "05" == "2:05";
  }

  // ---------------------------------------------------------------------
  // The entity
  // ---------------------------------------------------------------------

  /** The fields an actor sets, in the order `update` takes them; absent tags are stored as empty. */
  datatype ShowreelContent = ShowreelContent(
    title: string, videoUrl: string, thumbnailUrl: Option<string>, duration: Option<Int32>,
    workTitle: Option<string>, genre: Option<string>, description: Option<string>, tags: seq<string>)

  /** The content `create` and `update` store: everything as given, a null tag list as empty. */
  function Stored(c: ShowreelContent, tags: Option<seq<string>>): (r: ShowreelContent)
    ensures r.(tags := c.tags) == c
    ensures tags.Some? ==> r.tags == tags.value
    ensures tags.None? ==> r.tags == []
  {
    c.(tags := OrEmpty(tags))
  }

  class Showreel {
    const id: Uuid
    /** The owning actor profile. */
    const actor: ActorProfile
    var content: ShowreelContent
    var viewCount: Int64

    /** `create(actor, ...)`: the content as given, a null tag list as empty, no views. */
    constructor Create(id: Uuid, actor: ActorProfile, content: ShowreelContent, tags: Option<seq<string>>)
      ensures this.id == id && this.actor == actor
      ensures this.content == Stored(content, tags) && viewCount == 0
    {
      this.id := id;
      this.actor := actor;
      this.content := Stored(content, tags);
      viewCount := 0;
    }

    /** `update`: the content is overwritten; a null tag list becomes empty; views stay. */
    method Update(content: ShowreelContent, tags: Option<seq<string>>)
      modifies this
      ensures this.content == Stored(content, tags) && viewCount == old(viewCount)
    {
      this.content := Stored(content, tags);
    }

    /** `incrementViewCount`: `viewCount++` on a Long; the content stays. */
    method IncrementViewCount()
      modifies this
      ensures viewCount == LongIncrement(old(viewCount)) && content == old(content)
      ensures old(viewCount) as int < LongMax ==> viewCount as int == old(viewCount) as int + 1
    {
      viewCount := LongIncrement(viewCount);
    }
  }

  /** `ShowreelResponse.from`. */
  datatype ShowreelResponse = ShowreelResponse(
    id: Uuid, actorId: Uuid, actorName: string, content: ShowreelContent,
    durationFormatted: Option<string>, viewCount: Int64)

  /** The response names the actor by stage name, else by account name, and formats the duration. */
  function ResponseOf(showreel: Showreel): (r: ShowreelResponse)
    reads showreel, showreel.actor, showreel.actor.user
    ensures r.id == showreel.id && r.actorId == showreel.actor.user.id
    ensures showreel.actor.stageName.Some? ==> r.actorName == showreel.actor.stageName.value
    ensures showreel.actor.stageName.None? ==> r.actorName == showreel.actor.user.name
    ensures r.content == showreel.content && r.viewCount == showreel.viewCount
    ensures r.durationFormatted == FormatDuration(showreel.content.duration)
  {
    var name := if showreel.actor.stageName.Some? then showreel.actor.stageName.value else showreel.actor.user.name;
    ShowreelResponse(showreel.id, showreel.actor.user.id, name, showreel.content,
                     FormatDuration(showreel.content.duration), showreel.viewCount)
  }

  // ---------------------------------------------------------------------
  // The service
  // ---------------------------------------------------------------------

  class ShowreelService {
    /** The showreel store, by id. */
    var showreels: map<Uuid, Showreel>
    /** The actor profile store, by user id. */
    var actorProfiles: map<Uuid, ActorProfile>

    predicate Valid()
      reads this
    {
      (forall id :: id in showreels ==> showreels[id].id == id) &&
      (forall id :: id in actorProfiles ==> actorProfiles[id].user.id == id)
    }

    constructor (actorProfiles: map<Uuid, ActorProfile>)
      requires forall id :: id in actorProfiles ==> actorProfiles[id].user.id == id
      ensures Valid() && showreels == map[] && this.actorProfiles == actorProfiles
    {
      showreels := map[];
      this.actorProfiles := actorProfiles;
    }

    /** The ids of one actor's showreels (`findByActorId`). */
    function ReelsOf(actorId: Uuid): (r: set<Uuid>)
      reads this
      ensures forall id :: id in r <==> id in showreels && showreels[id].actor.user.id == actorId
    {
      set id | id in showreels && showreels[id].actor.user.id == actorId
    }

    /** `getShowreelsByActor`: public; the actor's profile must exist, then all its reels. */
    function GetShowreelsByActor(actorId: Uuid): (r: Result<set<Uuid>, ErrorCode>)
      reads this
      ensures actorId !in actorProfiles <==> r == Failure(ActorProfileNotFound)
      ensures r.Success? ==> r.value == ReelsOf(actorId)
    {
      if actorId !in actorProfiles then Failure(ActorProfileNotFound) else Success(ReelsOf(actorId))
    }

    /** `getMyShowreels`: actors only, then the caller's reels (no profile check). */
    function GetMyShowreels(user: User): (r: Result<set<Uuid>, ErrorCode>)
      reads this
      ensures user.userType != Actor <==> r == Failure(Forbidden)
      ensures r.Success? ==> r.value == ReelsOf(user.id)
    {
      if RequireType(user, Actor).Failure? then Failure(Forbidden) else Success(ReelsOf(user.id))
    }

    /**
     * The lookup `updateShowreel` and `deleteShowreel` run after the role
     * check: the caller's own reel, else SHOWREEL_NOT_FOUND when no reel has
     * that id, else FORBIDDEN.
     */
    function OwnReel(user: User, showreelId: Uuid): (r: Result<Showreel, ErrorCode>)
      reads this
      ensures r.Success? <==> user.userType == Actor && showreelId in showreels &&
                              showreels[showreelId].actor.user.id == user.id
      ensures r.Success? ==> r.value == showreels[showreelId]
      ensures r.Failure? ==> r.error == (if user.userType == Actor && showreelId !in showreels
                                         then ShowreelNotFound else Forbidden)
    {
      if RequireType(user, Actor).Failure? then Failure(Forbidden)
      else if showreelId !in showreels then Failure(ShowreelNotFound)
      else if showreels[showreelId].actor.user.id != user.id then Failure(Forbidden)
      else Success(showreels[showreelId])
    }

    /** `getShowreel`: public; a missing reel is SHOWREEL_NOT_FOUND, otherwise its view count goes up by one first. */
    method GetShowreel(showreelId: Uuid) returns (r: Result<ShowreelResponse, ErrorCode>)
      requires Valid()
      modifies if showreelId in showreels then {showreels[showreelId]} else {}
      ensures showreelId !in showreels ==> r == Failure(ShowreelNotFound)
      ensures showreelId in showreels ==>
        showreels[showreelId].viewCount == LongIncrement(old(showreels[showreelId].viewCount)) &&
        showreels[showreelId].content == old(showreels[showreelId].content) &&
        r == Success(ResponseOf(showreels[showreelId]))
    {
      if showreelId !in showreels {
        return Failure(ShowreelNotFound);
      }
      var showreel := showreels[showreelId];
      showreel.IncrementViewCount();
      r := Success(ResponseOf(showreel));
    }

    /**
     * `createShowreel`: actors only; the caller's profile must exist; the
     * reel is stored under `newId`, the id the database assigns.
     */
    method CreateShowreel(user: User, newId: Uuid, content: ShowreelContent, tags: Option<seq<string>>)
      returns (r: Result<ShowreelResponse, ErrorCode>)
      requires Valid() && newId !in showreels
      modifies this
      ensures Valid() && actorProfiles == old(actorProfiles)
      ensures user.userType != Actor ==> r == Failure(Forbidden)
      ensures user.userType == Actor && user.id !in actorProfiles ==> r == Failure(ActorProfileNotFound)
      ensures r.Failure? ==> showreels == old(showreels)
      ensures r.Success? <==> user.userType == Actor && user.id in actorProfiles
      ensures r.Success? ==>
        newId in showreels && fresh(showreels[newId]) &&
        showreels == old(showreels)[newId := showreels[newId]] &&
        showreels[newId].actor == actorProfiles[user.id] &&
        showreels[newId].content == Stored(content, tags) && showreels[newId].viewCount == 0 &&
        r == Success(ResponseOf(showreels[newId]))
    {
      var guard := RequireType(user, Actor);
      if guard.Failure? {
        return Failure(guard.error);
      }
      if user.id !in actorProfiles {
        return Failure(ActorProfileNotFound);
      }
      var showreel := new Showreel.Create(newId, actorProfiles[user.id], content, tags);
      showreels := showreels[newId := showreel];
      r := Success(ResponseOf(showreel));
    }

    /** `updateShowreel`: only the caller's own reel is rewritten; its views stay. */
    method UpdateShowreel(user: User, showreelId: Uuid, content: ShowreelContent, tags: Option<seq<string>>)
      returns (r: Result<ShowreelResponse, ErrorCode>)
      requires Valid()
      modifies if showreelId in showreels then {showreels[showreelId]} else {}
      ensures r.Success? <==> old(OwnReel(user, showreelId)).Success?
      ensures r.Failure? ==> r.error == old(OwnReel(user, showreelId)).error &&
                             (showreelId in showreels ==>
                                showreels[showreelId].content == old(showreels[showreelId].content))
      ensures r.Success? ==>
        showreels[showreelId].content == Stored(content, tags) &&
        showreels[showreelId].viewCount == old(showreels[showreelId].viewCount) &&
        r == Success(ResponseOf(showreels[showreelId]))
    {
      var own := OwnReel(user, showreelId);
      if own.Failure? {
        return Failure(own.error);
      }
      own.value.Update(content, tags);
      r := Success(ResponseOf(own.value));
    }

    /** `deleteShowreel`: only the caller's own reel is removed. */
    method DeleteShowreel(user: User, showreelId: Uuid) returns (r: Result<(), ErrorCode>)
      requires Valid()
      modifies this
      ensures Valid() && actorProfiles == old(actorProfiles)
      ensures r.Success? <==> old(OwnReel(user, showreelId)).Success?
      ensures r.Failure? ==> r.error == old(OwnReel(user, showreelId)).error && showreels == old(showreels)
      ensures r.Success? ==> showreels == old(showreels) - {showreelId}
    {
      var own := OwnReel(user, showreelId);
      if own.Failure? {
        return Failure(own.error);
      }
      showreels := showreels - {showreelId};
      r := Success(());
    }
  }
}
