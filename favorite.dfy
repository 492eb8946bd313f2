/**
 * Favorites: a user's bookmarks of actors and projects, the two ways a
 * favorite type is read from text (the JSON code lookup and the
 * request-parameter converter), and the service that lists, adds and
 * removes favorites.
 */
module Favorites {
  import opened Common
  import opened ErrorCodes
  import opened JavaLang
  import opened Users

  // ---------------------------------------------------------------------
  // FavoriteType and its two parsers
  // ---------------------------------------------------------------------

  datatype FavoriteType = ActorFavorite | ProjectFavorite

  const FavoriteValues: seq<FavoriteType> := [ActorFavorite, ProjectFavorite]

  /** The JSON code of a type. */
  function Code(t: FavoriteType): string
  {
    match t
    case ActorFavorite => "actor"
    case ProjectFavorite => "project"
  }

  /** `name()`: the identifier `valueOf` matches. */
  function ConstantName(t: FavoriteType): string
  {
    match t
    case ActorFavorite => "ACTOR"
    case ProjectFavorite => "PROJECT"
  }

  /** A code upper-cased is the constant's identifier. */
  lemma CodeUpperCased(t: FavoriteType)
    ensures ToUpperCase(Code(t)) == ConstantName(t)
  {
    var u := ToUpperCase(Code(t));
    assert forall i :: 0 <= i < |u| ==> u[i] == ConstantName(t)[i];
  }

  /**
   * `FavoriteType.fromCode`: the type whose code equals the input ignoring
   * case; None is the IllegalArgumentException raised for any other input,
   * null included.
   */
  function FromCode(code: Option<string>): (r: Option<FavoriteType>)
    ensures code.None? ==> r.None?
    ensures r.Some? ==> code.Some? && EqualsIgnoreCase(Code(r.value), code.value)
    ensures code.Some? && r.None? ==> forall t :: !EqualsIgnoreCase(Code(t), code.value)
  {
    if code.None? then None
    else
      var r := FirstWithKeyIgnoringCase(FavoriteValues, Code, code.value);
      assert r.None? ==> forall t :: !EqualsIgnoreCase(Code(t), code.value) by {
        if r.None? {
          forall t ensures !EqualsIgnoreCase(Code(t), code.value) {
            assert t == FavoriteValues[if t == ActorFavorite then 0 else 1];
          }
        }
      }
      r
  }

  /** Every type is found by its code, in any letter case. */
  lemma FromCodeRoundTrip(t: FavoriteType)
    ensures FromCode(Some(Code(t))) == Some(t)
    ensures FromCode(Some(ConstantName(t))) == Some(t)
  {
    CodeUpperCased(t);
    UpperCaseFixed(ConstantName(t));
    CodeUpperCased(ActorFavorite);
    var u := FromCode(Some(Code(t))).value;
    CodeUpperCased(u);
    var v := FromCode(Some(ConstantName(t))).value;
    CodeUpperCased(v);
  }

  /** What `StringToFavoriteTypeConverter.convert` yields. */
  datatype Conversion = Absent | Converted(t: FavoriteType) | Invalid

  /**
   * `convert`: null or empty text gives null (no filter); otherwise the
   * constant named by the upper-cased text; any other text makes `valueOf`
   * throw, which is Invalid.
   */
  function Convert(source: Option<string>): (r: Conversion)
    ensures r == Absent <==> source.None? || source.value == ""
    ensures r.Converted? ==> ConstantName(r.t) == ToUpperCase(source.value)
    ensures r == Invalid ==> forall t :: ConstantName(t) != ToUpperCase(source.value)
  {
    if source.None? || source.value == "" then Absent
    else if ToUpperCase(source.value) == "ACTOR" then Converted(ActorFavorite)
    else if ToUpperCase(source.value) == "PROJECT" then Converted(ProjectFavorite)
    else Invalid
  }

  /**
   * The converter and the JSON lookup accept the same non-empty texts and
   * agree on the type they read.
   */
  lemma ConverterAgreesWithFromCode(s: string)
    requires s != ""
    ensures Convert(Some(s)).Converted? <==> FromCode(Some(s)).Some?
    ensures Convert(Some(s)).Converted? ==> FromCode(Some(s)) == Some(Convert(Some(s)).t)
  {
    CodeUpperCased(ActorFavorite);
    CodeUpperCased(ProjectFavorite);
  }

  // ---------------------------------------------------------------------
  // The service
  // ---------------------------------------------------------------------

  /** A favorite row: who bookmarked what. */
  datatype Favorite = Favorite(id: Uuid, userId: Uuid, targetId: Uuid, favoriteType: FavoriteType)

  /** `FavoriteResponse`: an actor favorite carries the actor's summary (here its id) when the profile exists. */
  datatype FavoriteResponse = FavoriteResponse(id: Uuid, favoriteType: FavoriteType, targetId: Uuid, actor: Option<Uuid>)

  class FavoriteService {
    /** The favorite store, by id. */
    var favorites: map<Uuid, Favorite>
    /** The ids of the actor profiles that exist. */
    var actorProfiles: set<Uuid>

    /**
     * Ids are keys, and the unique constraint on (user, target, type) holds:
     * no two favorites of one user bookmark the same target as the same type.
     */
    predicate Valid()
      reads this
    {
      (forall id :: id in favorites ==> favorites[id].id == id) &&
      (forall a, b :: a in favorites && b in favorites && a != b ==>
         (favorites[a].userId, favorites[a].targetId, favorites[a].favoriteType) !=
         (favorites[b].userId, favorites[b].targetId, favorites[b].favoriteType))
    }

    constructor (actorProfiles: set<Uuid>)
      ensures Valid() && favorites == map[] && this.actorProfiles == actorProfiles
    {
      favorites := map[];
      this.actorProfiles := actorProfiles;
    }

    /** `existsByUserIdAndTargetIdAndType`. */
    predicate Exists(userId: Uuid, targetId: Uuid, t: FavoriteType)
      reads this
    {
      exists id :: id in favorites && favorites[id] == Favorite(id, userId, targetId, t)
    }

    /** The listing's mapping of one favorite: an actor favorite with an existing profile carries the summary. */
    function ResponseOf(f: Favorite): (r: FavoriteResponse)
      reads this
      ensures r.id == f.id && r.favoriteType == f.favoriteType && r.targetId == f.targetId
      ensures r.actor.Some? <==> f.favoriteType == ActorFavorite && f.targetId in actorProfiles
      ensures r.actor.Some? ==> r.actor.value == f.targetId
    {
      FavoriteResponse(f.id, f.favoriteType, f.targetId,
                       if f.favoriteType == ActorFavorite && f.targetId in actorProfiles then Some(f.targetId) else None)
    }

    /** `getFavorites`: the caller's favorites, of the given type when one is given (paging not modelled). */
    function GetFavorites(user: User, t: Option<FavoriteType>): (r: set<Uuid>)
      reads this
      ensures forall id :: id in r <==> (id in favorites && favorites[id].userId == user.id &&
                                        (t.None? || favorites[id].favoriteType == t.value))
    {
      set id | id in favorites && favorites[id].userId == user.id && (t.None? || favorites[id].favoriteType == t.value)
    }

    /**
     * `addFavorite`: a duplicate is FAVORITE_ALREADY_EXISTS; then an actor
     * target must have a profile (RESOURCE_NOT_FOUND), while a project
     * target is not checked; then the favorite is stored under `newId`.
     */
    method AddFavorite(user: User, targetId: Uuid, t: FavoriteType, newId: Uuid) returns (r: Result<FavoriteResponse, ErrorCode>)
      requires Valid() && newId !in favorites
      modifies this
      ensures Valid() && actorProfiles == old(actorProfiles)
      ensures old(Exists(user.id, targetId, t)) ==> r == Failure(FavoriteAlreadyExists)
      ensures !old(Exists(user.id, targetId, t)) && t == ActorFavorite && targetId !in actorProfiles ==>
        r == Failure(ResourceNotFound)
      ensures r.Failure? ==> favorites == old(favorites)
      ensures r.Success? <==> !old(Exists(user.id, targetId, t)) && (t == ProjectFavorite || targetId in actorProfiles)
      ensures r.Success? ==> favorites == old(favorites)[newId := Favorite(newId, user.id, targetId, t)] &&
                             r.value == FavoriteResponse(newId, t, targetId, None)
    {
      if exists id :: id in favorites && favorites[id] == Favorite(id, user.id, targetId, t) {
        return Failure(FavoriteAlreadyExists);
      }
      var targetExists := match t
        case ActorFavorite => targetId in actorProfiles
        case ProjectFavorite => true;
      if !targetExists {
        return Failure(ResourceNotFound);
      }
      var favorite := Favorite(newId, user.id, targetId, t);
      favorites := favorites[newId := favorite];
      r := Success(FavoriteResponse(favorite.id, favorite.favoriteType, favorite.targetId, None));
    }

    /**
     * `deleteFavorite`: only a favorite of the caller's is removed; another
     * user's favorite is FAVORITE_NOT_FOUND, exactly as a missing one.
     */
    method DeleteFavorite(user: User, favoriteId: Uuid) returns (r: Result<(), ErrorCode>)
      requires Valid()
      modifies this
      ensures Valid() && actorProfiles == old(actorProfiles)
      ensures r.Success? <==> favoriteId in old(favorites) && old(favorites)[favoriteId].userId == user.id
      ensures r.Failure? ==> r == Failure(FavoriteNotFound) && favorites == old(favorites)
      ensures r.Success? ==> favorites == old(favorites) - {favoriteId}
    {
      if favoriteId !in favorites || favorites[favoriteId].userId != user.id {
        return Failure(FavoriteNotFound);
      }
      favorites := favorites - {favoriteId};
      r := Success(());
    }
  }

  /** Adding the same bookmark twice fails the second time: a favorite just added is a duplicate. */
  lemma AddedIsDuplicate(s: FavoriteService, newId: Uuid, userId: Uuid, targetId: Uuid, t: FavoriteType)
    requires newId in s.favorites && s.favorites[newId] == Favorite(newId, userId, targetId, t)
    ensures s.Exists(userId, targetId, t)
  {
  }
}
