/**
 * Filmographies: the works an actor lists on a profile, and the service
 * that lets anyone read them and only their actor write them.
 */
module Filmographies {
  import opened Common
  import opened ErrorCodes
  import opened Users
  import opened ActorEnums

  /** The nine fields `update` takes, in its order. */
  datatype FilmographyContent = FilmographyContent(
    title: string, year: Option<int>, workType: FilmographyType, role: Option<string>,
    roleType: Option<RoleType>, thumbnailUrl: Option<string>, description: Option<string>,
    director: Option<string>, production: Option<string>)

  class Filmography {
    const id: Uuid
    /** The owning actor profile's id, which is its account's id. */
    const actorId: Uuid
    var content: FilmographyContent

    /** `create(actor, ...)`: every argument stored as given. */
    constructor Create(id: Uuid, actorId: Uuid, content: FilmographyContent)
      ensures this.id == id && this.actorId == actorId && this.content == content
    {
      this.id := id;
      this.actorId := actorId;
      this.content := content;
    }

    /** `update`: the nine fields are overwritten; id and actor stay. */
    method Update(content: FilmographyContent)
      modifies this
      ensures this.content == content
    {
      this.content := content;
    }
  }

  class FilmographyService {
    /** The filmography store, by id. */
    var filmographies: map<Uuid, Filmography>
    /** The ids of the actor profiles that exist. */
    var actorProfiles: set<Uuid>

    predicate Valid()
      reads this
    {
      forall id :: id in filmographies ==> filmographies[id].id == id
    }

    constructor (actorProfiles: set<Uuid>)
      ensures Valid() && filmographies == map[] && this.actorProfiles == actorProfiles
    {
      filmographies := map[];
      this.actorProfiles := actorProfiles;
    }

    /** The ids of the works listed by one actor (`findByActorId`). */
    function WorksOf(actorId: Uuid): (r: set<Uuid>)
      reads this
      ensures forall id :: id in r <==> id in filmographies && filmographies[id].actorId == actorId
    {
      set id | id in filmographies && filmographies[id].actorId == actorId
    }

    /** `getFilmographiesByActor`: public; the actor's profile must exist, then all its works. */
    function GetFilmographiesByActor(actorId: Uuid): (r: Result<set<Uuid>, ErrorCode>)
      reads this
      ensures actorId !in actorProfiles <==> r == Failure(ActorProfileNotFound)
      ensures r.Success? ==> r.value == WorksOf(actorId)
    {
      if actorId !in actorProfiles then Failure(ActorProfileNotFound) else Success(WorksOf(actorId))
    }

    /** `getFilmography`: public; FILMOGRAPHY_NOT_FOUND for an unknown id. */
    function GetFilmography(filmographyId: Uuid): (r: Result<FilmographyContent, ErrorCode>)
      reads this, if filmographyId in filmographies then {filmographies[filmographyId]} else {}
      ensures filmographyId !in filmographies <==> r == Failure(FilmographyNotFound)
      ensures r.Success? ==> r.value == filmographies[filmographyId].content
    {
      if filmographyId !in filmographies then Failure(FilmographyNotFound)
      else Success(filmographies[filmographyId].content)
    }

    /**
     * `getMyFilmographies`: actors only, then the caller's works. Unlike
     * the public listing it does not check that the caller has a profile.
     */
    function GetMyFilmographies(user: User): (r: Result<set<Uuid>, ErrorCode>)
      reads this
      ensures user.userType != Actor <==> r == Failure(Forbidden)
      ensures r.Success? ==> r.value == WorksOf(user.id)
    {
      if RequireType(user, Actor).Failure? then Failure(Forbidden) else Success(WorksOf(user.id))
    }

    /**
     * The lookup `updateFilmography` and `deleteFilmography` run after the
     * role check: the caller's own work, else FILMOGRAPHY_NOT_FOUND when no
     * work has that id, else FORBIDDEN.
     */
    function OwnWork(user: User, filmographyId: Uuid): (r: Result<Filmography, ErrorCode>)
      reads this
      ensures r.Success? <==> user.userType == Actor && filmographyId in filmographies &&
                              filmographies[filmographyId].actorId == user.id
      ensures r.Success? ==> r.value == filmographies[filmographyId]
      ensures r.Failure? ==> r.error == (if user.userType == Actor && filmographyId !in filmographies
                                         then FilmographyNotFound else Forbidden)
    {
      if RequireType(user, Actor).Failure? then Failure(Forbidden)
      else if filmographyId !in filmographies then Failure(FilmographyNotFound)
      else if filmographies[filmographyId].actorId != user.id then Failure(Forbidden)
      else Success(filmographies[filmographyId])
    }

    /**
     * `createFilmography`: actors only; the caller's profile must exist; the
     * work is stored under `newId`, the id the database assigns.
     */
    method CreateFilmography(user: User, newId: Uuid, content: FilmographyContent)
      returns (r: Result<FilmographyContent, ErrorCode>)
      requires Valid() && newId !in filmographies
      modifies this
      ensures Valid() && actorProfiles == old(actorProfiles)
      ensures user.userType != Actor ==> r == Failure(Forbidden)
      ensures user.userType == Actor && user.id !in actorProfiles ==> r == Failure(ActorProfileNotFound)
      ensures r.Failure? ==> filmographies == old(filmographies)
      ensures r.Success? <==> user.userType == Actor && user.id in actorProfiles
      ensures r.Success? ==>
        r.value == content && newId in filmographies && fresh(filmographies[newId]) &&
        filmographies == old(filmographies)[newId := filmographies[newId]] &&
        filmographies[newId].actorId == user.id && filmographies[newId].content == content
    {
      var guard := RequireType(user, Actor);
      if guard.Failure? {
        return Failure(guard.error);
      }
      if user.id !in actorProfiles {
        return Failure(ActorProfileNotFound);
      }
      var work := new Filmography.Create(newId, user.id, content);
      filmographies := filmographies[newId := work];
      r := Success(work.content);
    }

    /** `updateFilmography`: only the caller's own work is rewritten. */
    method UpdateFilmography(user: User, filmographyId: Uuid, content: FilmographyContent)
      returns (r: Result<FilmographyContent, ErrorCode>)
      requires Valid()
      modifies if filmographyId in filmographies then {filmographies[filmographyId]} else {}
      ensures r.Success? <==> old(OwnWork(user, filmographyId)).Success?
      ensures r.Failure? ==> r.error == old(OwnWork(user, filmographyId)).error &&
                             (filmographyId in filmographies ==>
                                filmographies[filmographyId].content == old(filmographies[filmographyId].content))
      ensures r.Success? ==> filmographies[filmographyId].content == content && r.value == content
    {
      var own := OwnWork(user, filmographyId);
      if own.Failure? {
        return Failure(own.error);
      }
      own.value.Update(content);
      r := Success(own.value.content);
    }

    /** `deleteFilmography`: only the caller's own work is removed. */
    method DeleteFilmography(user: User, filmographyId: Uuid) returns (r: Result<(), ErrorCode>)
      requires Valid()
      modifies this
      ensures Valid() && actorProfiles == old(actorProfiles)
      ensures r.Success? <==> old(OwnWork(user, filmographyId)).Success?
      ensures r.Failure? ==> r.error == old(OwnWork(user, filmographyId)).error && filmographies == old(filmographies)
      ensures r.Success? ==> filmographies == old(filmographies) - {filmographyId}
    {
      var own := OwnWork(user, filmographyId);
      if own.Failure? {
        return Failure(own.error);
      }
      filmographies := filmographies - {filmographyId};
      r := Success(());
    }
  }

  /**
   * Writes are owner-only: a caller who may update a work may also delete
   * it, and that caller is an actor whose own listing contains the work.
   */
  lemma OwnerSeesOwnWork(s: FilmographyService, user: User, filmographyId: Uuid)
    requires s.OwnWork(user, filmographyId).Success?
    ensures s.GetMyFilmographies(user).Success?
    ensures filmographyId in s.GetMyFilmographies(user).value
  {
  }
}
