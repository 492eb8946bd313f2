/**
 * Projects an agency runs and the characters (roles) it casts for them:
 * the two entities, the project search filter, and the two services that
 * let anyone read them and only the owning agency write them. Both
 * services work on the same two repositories, held in one ProjectStore.
 */
module Projects {
  import opened Common
  import opened ErrorCodes
  import opened JavaLang
  import opened Users
  import ActorEnums

  // ---------------------------------------------------------------------
  // Enums
  // ---------------------------------------------------------------------

  datatype ProjectType = Drama | Movie | Musical | Theater | Cf | MusicVideo | WebDrama | Ott | ShortFilm | Documentary | OtherType

  /** `name()`: the identifier the native search query compares the column with. */
  function TypeName(t: ProjectType): string
  {
    match t
    case Drama => "DRAMA"
    case Movie => "MOVIE"
    case Musical => "MUSICAL"
    case Theater => "THEATER"
    case Cf => "CF"
    case MusicVideo => "MUSIC_VIDEO"
    case WebDrama => "WEB_DRAMA"
    case Ott => "OTT"
    case ShortFilm => "SHORT_FILM"
    case Documentary => "DOCUMENTARY"
    case OtherType => "OTHER"
  }

  lemma TypeNamesDistinct(a: ProjectType, b: ProjectType)
    ensures TypeName(a) == TypeName(b) ==> a == b
  {
  }

  datatype ProjectStatus = Planning | Casting | PreProduction | InProduction | PostProduction | Completed | Released | Cancelled

  /** `name()` of a status. */
  function StatusName(s: ProjectStatus): string
  {
    match s
    case Planning => "PLANNING"
    case Casting => "CASTING"
    case PreProduction => "PRE_PRODUCTION"
    case InProduction => "IN_PRODUCTION"
    case PostProduction => "POST_PRODUCTION"
    case Completed => "COMPLETED"
    case Released => "RELEASED"
    case Cancelled => "CANCELLED"
  }

  lemma StatusNamesDistinct(a: ProjectStatus, b: ProjectStatus)
    ensures StatusName(a) == StatusName(b) ==> a == b
  {
  }

  /** A character's gender requirement. */
  datatype CastGender = MaleRole | FemaleRole | AnyGender

  // ---------------------------------------------------------------------
  // Entities
  // ---------------------------------------------------------------------

  /** A calendar date (`LocalDate`), as a day number. */
  type Date = int

  /** The fields of a project its agency writes, besides the status. */
  datatype ProjectContent = ProjectContent(
    projectName: string, company: Option<string>, projectType: ProjectType, genre: Option<string>,
    description: Option<string>, director: Option<string>, writer: Option<string>,
    thumbnailUrl: Option<string>, startDate: Option<Date>, endDate: Option<Date>,
    filmingLocation: Option<string>)

  class Project {
    const id: Uuid
    /** The owning agency profile's id, which is its account's id. */
    const agencyId: Uuid
    var content: ProjectContent
    var status: ProjectStatus

    /** `create(agency, ...)`: the content as given; the status defaults to PLANNING. */
    constructor Create(id: Uuid, agencyId: Uuid, content: ProjectContent)
      ensures this.id == id && this.agencyId == agencyId
      ensures this.content == content && status == Planning
    {
      this.id := id;
      this.agencyId := agencyId;
      this.content := content;
      status := Planning;
    }

    /** `update`: the twelve fields, the status among them, are overwritten. */
    method Update(content: ProjectContent, status: ProjectStatus)
      modifies this
      ensures this.content == content && this.status == status
    {
      this.content := content;
      this.status := status;
    }
  }

  /** The fields of a character its agency writes; an absent keyword list is stored as empty. */
  datatype CharacterContent = CharacterContent(
    name: string, gender: Option<CastGender>, ageRange: Option<string>, roleType: Option<ActorEnums.RoleType>,
    description: Option<string>, keywords: seq<string>, fee: Option<string>)

  /** What `create` and `update` store: the request, with a null keyword list as empty. */
  function StoredCharacter(c: CharacterContent, keywords: Option<seq<string>>): (r: CharacterContent)
    ensures r.(keywords := c.keywords) == c
    ensures keywords.Some? ==> r.keywords == keywords.value
    ensures keywords.None? ==> r.keywords == []
  {
    c.(keywords := OrEmpty(keywords))
  }

  class Character {
    const id: Uuid
    /** The project the role belongs to. */
    const project: Project
    var content: CharacterContent
    var isCastingComplete: bool

    /** `create(project, ...)`: null keywords become empty; casting starts open. */
    constructor Create(id: Uuid, project: Project, content: CharacterContent, keywords: Option<seq<string>>)
      ensures this.id == id && this.project == project
      ensures this.content == StoredCharacter(content, keywords) && !isCastingComplete
    {
      this.id := id;
      this.project := project;
      this.content := StoredCharacter(content, keywords);
      isCastingComplete := false;
    }

    /** `update`: the seven fields are overwritten; the casting flag stays. */
    method Update(content: CharacterContent, keywords: Option<seq<string>>)
      modifies this
      ensures this.content == StoredCharacter(content, keywords)
      ensures isCastingComplete == old(isCastingComplete)
    {
      this.content := StoredCharacter(content, keywords);
    }

    /** `completeCasting`: the role is marked cast, nothing else changes; doing it twice is the same as once. */
    method CompleteCasting()
      modifies this
      ensures isCastingComplete && content == old(content)
    {
      isCastingComplete := true;
    }
  }

  // ---------------------------------------------------------------------
  // Search
  // ---------------------------------------------------------------------

  /** `sub` occurs in `s`: some suffix of `s` starts with it. */
  predicate Contains(s: string, sub: string)
  {
    StartsWith(s, sub) || (|s| > 0 && Contains(s[1..], sub))
  }

  /**
   * One row of the native search: a name filter matched as a
   * case-insensitive substring (ILIKE), and type and status filters compared
   * with the stored enum names; a missing filter admits every row.
   */
  predicate SearchMatches(content: ProjectContent, status: ProjectStatus,
                          name: Option<string>, typeName: Option<string>, statusName: Option<string>)
  {
    (name.None? || Contains(ToUpperCase(content.projectName), ToUpperCase(name.value))) &&
    (typeName.None? || TypeName(content.projectType) == typeName.value) &&
    (statusName.None? || StatusName(status) == statusName.value)
  }

  /** `getProjects`' conversion of its enum arguments into the query's strings: a null enum stays null. */
  function TypeFilter(t: Option<ProjectType>): (r: Option<string>)
    ensures r.Some? <==> t.Some?
    ensures r.Some? ==> r.value == TypeName(t.value)
  {
    if t.Some? then Some(TypeName(t.value)) else None
  }

  function StatusFilter(s: Option<ProjectStatus>): (r: Option<string>)
    ensures r.Some? <==> s.Some?
    ensures r.Some? ==> r.value == StatusName(s.value)
  {
    if s.Some? then Some(StatusName(s.value)) else None
  }

  /**
   * Filtering by the converted names selects exactly the projects of the
   * requested type and status: the names identify the constants.
   */
  lemma SearchByEnumsIsExact(content: ProjectContent, status: ProjectStatus,
                             t: Option<ProjectType>, s: Option<ProjectStatus>)
    ensures SearchMatches(content, status, None, TypeFilter(t), StatusFilter(s)) <==>
            (t.None? || content.projectType == t.value) && (s.None? || status == s.value)
  {
    if t.Some? {
      TypeNamesDistinct(content.projectType, t.value);
    }
    if s.Some? {
      StatusNamesDistinct(status, s.value);
    }
  }

  // ---------------------------------------------------------------------
  // The services
  // ---------------------------------------------------------------------

  /** The project and character repositories both services use. */
  class ProjectStore {
    var projects: map<Uuid, Project>
    var characters: map<Uuid, Character>

    predicate Valid()
      reads this
    {
      (forall id :: id in projects ==> projects[id].id == id) &&
      (forall id :: id in characters ==> characters[id].id == id)
    }

    constructor ()
      ensures Valid() && projects == map[] && characters == map[]
    {
      projects, characters := map[], map[];
    }
  }

  class ProjectService {
    const store: ProjectStore
    /** The ids of the agency profiles that exist. */
    var agencyProfiles: set<Uuid>

    constructor (store: ProjectStore, agencyProfiles: set<Uuid>)
      ensures this.store == store && this.agencyProfiles == agencyProfiles
    {
      this.store := store;
      this.agencyProfiles := agencyProfiles;
    }

    /** `getProjects`: the ids of the projects the search admits (page order and size are not modelled). */
    function GetProjects(name: Option<string>, t: Option<ProjectType>, s: Option<ProjectStatus>): (r: set<Uuid>)
      reads store, set id | id in store.projects :: store.projects[id]
      ensures forall id :: id in r <==> (id in store.projects &&
        SearchMatches(store.projects[id].content, store.projects[id].status, name, TypeFilter(t), StatusFilter(s)))
    {
      set id | id in store.projects &&
        SearchMatches(store.projects[id].content, store.projects[id].status, name, TypeFilter(t), StatusFilter(s))
    }

    /** `getCastingProjects`: the projects whose status is CASTING (page order and size are not modelled). */
    function GetCastingProjects(): (r: set<Uuid>)
      reads store, set id | id in store.projects :: store.projects[id]
      ensures forall id :: id in r <==> id in store.projects && store.projects[id].status == Casting
    {
      set id | id in store.projects && store.projects[id].status == Casting
    }

    /** `getProject`: public; PROJECT_NOT_FOUND for an unknown id. */
    function GetProject(projectId: Uuid): (r: Result<(ProjectContent, ProjectStatus), ErrorCode>)
      reads store, if projectId in store.projects then {store.projects[projectId]} else {}
      ensures projectId !in store.projects <==> r == Failure(ProjectNotFound)
      ensures r.Success? ==> r.value == (store.projects[projectId].content, store.projects[projectId].status)
    {
      if projectId !in store.projects then Failure(ProjectNotFound)
      else Success((store.projects[projectId].content, store.projects[projectId].status))
    }

    /** The ids of one agency's projects (`findByAgencyId`). */
    function ProjectsOf(agencyId: Uuid): (r: set<Uuid>)
      reads store
      ensures forall id :: id in r <==> id in store.projects && store.projects[id].agencyId == agencyId
    {
      set id | id in store.projects && store.projects[id].agencyId == agencyId
    }

    /** `getMyProjects`: agencies only, then the caller's projects (no profile check). */
    function GetMyProjects(user: User): (r: Result<set<Uuid>, ErrorCode>)
      reads store
      ensures user.userType != Agency <==> r == Failure(Forbidden)
      ensures r.Success? ==> r.value == ProjectsOf(user.id)
    {
      if RequireType(user, Agency).Failure? then Failure(Forbidden) else Success(ProjectsOf(user.id))
    }

    /**
     * The lookup `updateProject` and `deleteProject` run after the role
     * check: the caller's own project, else PROJECT_NOT_FOUND when no
     * project has that id, else FORBIDDEN.
     */
    function OwnProject(user: User, projectId: Uuid): (r: Result<Project, ErrorCode>)
      reads store
      ensures r.Success? <==> user.userType == Agency && projectId in store.projects &&
                              store.projects[projectId].agencyId == user.id
      ensures r.Success? ==> r.value == store.projects[projectId]
      ensures r.Failure? ==> r.error == (if user.userType == Agency && projectId !in store.projects
                                         then ProjectNotFound else Forbidden)
    {
      if RequireType(user, Agency).Failure? then Failure(Forbidden)
      else if projectId !in store.projects then Failure(ProjectNotFound)
      else if store.projects[projectId].agencyId != user.id then Failure(Forbidden)
      else Success(store.projects[projectId])
    }

    /**
     * `createProject`: agencies only; the caller's agency profile must
     * exist; the project is stored under `newId` with status PLANNING.
     */
    method CreateProject(user: User, newId: Uuid, content: ProjectContent) returns (r: Result<Uuid, ErrorCode>)
      requires store.Valid() && newId !in store.projects
      modifies store
      ensures store.Valid() && store.characters == old(store.characters)
      ensures user.userType != Agency ==> r == Failure(Forbidden)
      ensures user.userType == Agency && user.id !in agencyProfiles ==> r == Failure(AgencyProfileNotFound)
      ensures r.Failure? ==> store.projects == old(store.projects)
      ensures r.Success? <==> user.userType == Agency && user.id in agencyProfiles
      ensures r.Success? ==>
        r.value == newId && newId in store.projects && fresh(store.projects[newId]) &&
        store.projects == old(store.projects)[newId := store.projects[newId]] &&
        store.projects[newId].agencyId == user.id &&
        store.projects[newId].content == content && store.projects[newId].status == Planning
    {
      var guard := RequireType(user, Agency);
      if guard.Failure? {
        return Failure(guard.error);
      }
      if user.id !in agencyProfiles {
        return Failure(AgencyProfileNotFound);
      }
      var project := new Project.Create(newId, user.id, content);
      store.projects := store.projects[newId := project];
      r := Success(newId);
    }

    /** `updateProject`: only the caller's own project is rewritten, status included. */
    method UpdateProject(user: User, projectId: Uuid, content: ProjectContent, status: ProjectStatus)
      returns (r: Result<(), ErrorCode>)
      requires store.Valid()
      modifies if projectId in store.projects then {store.projects[projectId]} else {}
      ensures r.Success? <==> old(OwnProject(user, projectId)).Success?
      ensures r.Failure? ==> r.error == old(OwnProject(user, projectId)).error &&
                             (projectId in store.projects ==>
                                store.projects[projectId].content == old(store.projects[projectId].content) &&
                                store.projects[projectId].status == old(store.projects[projectId].status))
      ensures r.Success? ==> store.projects[projectId].content == content && store.projects[projectId].status == status
    {
      var own := OwnProject(user, projectId);
      if own.Failure? {
        return Failure(own.error);
      }
      own.value.Update(content, status);
      r := Success(());
    }

    /**
     * `deleteProject`: only the caller's own project is removed, and its
     * characters go with it (the association cascades with orphan removal).
     */
    method DeleteProject(user: User, projectId: Uuid) returns (r: Result<(), ErrorCode>)
      requires store.Valid()
      modifies store
      ensures store.Valid()
      ensures r.Success? <==> old(OwnProject(user, projectId)).Success?
      ensures r.Failure? ==> r.error == old(OwnProject(user, projectId)).error &&
                             store.projects == old(store.projects) && store.characters == old(store.characters)
      ensures r.Success? ==> store.projects == old(store.projects) - {projectId}
      ensures r.Success? ==> forall id :: id in store.characters <==>
                               id in old(store.characters) && old(store.characters)[id].project.id != projectId
      ensures forall id :: id in store.characters ==>
                (id in old(store.characters) && store.characters[id] == old(store.characters)[id])
    {
      var own := OwnProject(user, projectId);
      if own.Failure? {
        return Failure(own.error);
      }
      store.projects := store.projects - {projectId};
      store.characters := map id | id in store.characters && store.characters[id].project.id != projectId
                                :: store.characters[id];
      r := Success(());
    }
  }

  class CharacterService {
    const store: ProjectStore

    constructor (store: ProjectStore)
      ensures this.store == store
    {
      this.store := store;
    }

    /** The ids of one project's characters (`findByProjectId`). */
    function CharactersOf(projectId: Uuid): (r: set<Uuid>)
      reads store
      ensures forall id :: id in r <==> id in store.characters && store.characters[id].project.id == projectId
    {
      set id | id in store.characters && store.characters[id].project.id == projectId
    }

    /** `getCharactersByProject`: public; the project must exist, then all its characters. */
    function GetCharactersByProject(projectId: Uuid): (r: Result<set<Uuid>, ErrorCode>)
      reads store
      ensures projectId !in store.projects <==> r == Failure(ProjectNotFound)
      ensures r.Success? ==> r.value == CharactersOf(projectId)
    {
      if projectId !in store.projects then Failure(ProjectNotFound) else Success(CharactersOf(projectId))
    }

    /** `getOpenCastings`: public; the project must exist, then its characters not yet cast. */
    function GetOpenCastings(projectId: Uuid): (r: Result<set<Uuid>, ErrorCode>)
      reads store, set id | id in store.characters :: store.characters[id]
      ensures projectId !in store.projects <==> r == Failure(ProjectNotFound)
      ensures r.Success? ==> forall id :: id in r.value <==>
        id in CharactersOf(projectId) && !store.characters[id].isCastingComplete
    {
      if projectId !in store.projects then Failure(ProjectNotFound)
      else Success(set id | id in CharactersOf(projectId) && !store.characters[id].isCastingComplete)
    }

    /** `getCharacter`: public; CHARACTER_NOT_FOUND for an unknown id. */
    function GetCharacter(characterId: Uuid): (r: Result<CharacterContent, ErrorCode>)
      reads store, if characterId in store.characters then {store.characters[characterId]} else {}
      ensures characterId !in store.characters <==> r == Failure(CharacterNotFound)
      ensures r.Success? ==> r.value == store.characters[characterId].content
    {
      if characterId !in store.characters then Failure(CharacterNotFound)
      else Success(store.characters[characterId].content)
    }

    /**
     * The lookup `updateCharacter` and `deleteCharacter` run after the role
     * check: a character of one of the caller's projects, else
     * CHARACTER_NOT_FOUND when no character has that id, else FORBIDDEN.
     */
    function OwnCharacter(user: User, characterId: Uuid): (r: Result<Character, ErrorCode>)
      reads store
      ensures r.Success? <==> user.userType == Agency && characterId in store.characters &&
                              store.characters[characterId].project.agencyId == user.id
      ensures r.Success? ==> r.value == store.characters[characterId]
      ensures r.Failure? ==> r.error == (if user.userType == Agency && characterId !in store.characters
                                         then CharacterNotFound else Forbidden)
    {
      if RequireType(user, Agency).Failure? then Failure(Forbidden)
      else if characterId !in store.characters then Failure(CharacterNotFound)
      else if store.characters[characterId].project.agencyId != user.id then Failure(Forbidden)
      else Success(store.characters[characterId])
    }

    /**
     * `createCharacter`: agencies only; the project must exist and be the
     * caller's; the character is stored under `newId`, open for casting.
     */
    method CreateCharacter(user: User, projectId: Uuid, newId: Uuid, content: CharacterContent,
                           keywords: Option<seq<string>>) returns (r: Result<Uuid, ErrorCode>)
      requires store.Valid() && newId !in store.characters
      modifies store
      ensures store.Valid() && store.projects == old(store.projects)
      ensures user.userType != Agency ==> r == Failure(Forbidden)
      ensures user.userType == Agency && projectId !in store.projects ==> r == Failure(ProjectNotFound)
      ensures user.userType == Agency && projectId in store.projects && store.projects[projectId].agencyId != user.id ==>
        r == Failure(Forbidden)
      ensures r.Failure? ==> store.characters == old(store.characters)
      ensures r.Success? <==> user.userType == Agency && projectId in store.projects &&
                              store.projects[projectId].agencyId == user.id
      ensures r.Success? ==>
        r.value == newId && newId in store.characters && fresh(store.characters[newId]) &&
        store.characters == old(store.characters)[newId := store.characters[newId]] &&
        store.characters[newId].project == store.projects[projectId] &&
        store.characters[newId].content == StoredCharacter(content, keywords) &&
        !store.characters[newId].isCastingComplete
    {
      var guard := RequireType(user, Agency);
      if guard.Failure? {
        return Failure(guard.error);
      }
      if projectId !in store.projects {
        return Failure(ProjectNotFound);
      }
      var project := store.projects[projectId];
      if project.agencyId != user.id {
        return Failure(Forbidden);
      }
      var character := new Character.Create(newId, project, content, keywords);
      store.characters := store.characters[newId := character];
      r := Success(newId);
    }

    /** `updateCharacter`: only a character of the caller's own project is rewritten. */
    method UpdateCharacter(user: User, characterId: Uuid, content: CharacterContent, keywords: Option<seq<string>>)
      returns (r: Result<CharacterContent, ErrorCode>)
      requires store.Valid()
      modifies if characterId in store.characters then {store.characters[characterId]} else {}
      ensures r.Success? <==> old(OwnCharacter(user, characterId)).Success?
      ensures r.Failure? ==> r.error == old(OwnCharacter(user, characterId)).error &&
                             (characterId in store.characters ==>
                                store.characters[characterId].content == old(store.characters[characterId].content))
      ensures r.Success? ==>
        store.characters[characterId].content == StoredCharacter(content, keywords) &&
        store.characters[characterId].isCastingComplete == old(store.characters[characterId].isCastingComplete) &&
        r.value == store.characters[characterId].content
    {
      var own := OwnCharacter(user, characterId);
      if own.Failure? {
        return Failure(own.error);
      }
      own.value.Update(content, keywords);
      r := Success(own.value.content);
    }

    /** `deleteCharacter`: only a character of the caller's own project is removed. */
    method DeleteCharacter(user: User, characterId: Uuid) returns (r: Result<(), ErrorCode>)
      requires store.Valid()
      modifies store
      ensures store.Valid() && store.projects == old(store.projects)
      ensures r.Success? <==> old(OwnCharacter(user, characterId)).Success?
      ensures r.Failure? ==> r.error == old(OwnCharacter(user, characterId)).error &&
                             store.characters == old(store.characters)
      ensures r.Success? ==> store.characters == old(store.characters) - {characterId}
    {
      var own := OwnCharacter(user, characterId);
      if own.Failure? {
        return Failure(own.error);
      }
      store.characters := store.characters - {characterId};
      r := Success(());
    }
  }

  /** The casting listing is the search with only the status filter set to CASTING. */
  lemma {:induction false} CastingListingIsStatusSearch(ps: ProjectService)
    ensures ps.GetCastingProjects() == ps.GetProjects(None, None, Some(Casting))
  {
    forall id | id in ps.store.projects
      ensures (ps.store.projects[id].status == Casting) <==>
              SearchMatches(ps.store.projects[id].content, ps.store.projects[id].status, None, None, Some("CASTING"))
    {
      StatusNamesDistinct(ps.store.projects[id].status, Casting);
    }
  }

  /**
   * The agency that may write a project may write each of its characters:
   * the two ownership checks agree.
   */
  lemma ProjectOwnerOwnsCharacters(ps: ProjectService, cs: CharacterService, user: User, characterId: Uuid)
    requires ps.store == cs.store && ps.store.Valid()
    requires characterId in cs.store.characters && cs.store.characters[characterId].project.id in ps.store.projects
    requires ps.store.projects[cs.store.characters[characterId].project.id] == cs.store.characters[characterId].project
    ensures cs.OwnCharacter(user, characterId).Success? <==>
            ps.OwnProject(user, cs.store.characters[characterId].project.id).Success?
  {
  }
}
