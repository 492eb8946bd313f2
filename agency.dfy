/**
 * Agency profiles: the entity an agency account owns, and the service that
 * shows it to anyone and lets its agency edit it.
 */
module Agencies {
  import opened Common
  import opened ErrorCodes
  import opened Users

  /** A profile's field values at one moment; an absent specialties list is stored as empty. */
  datatype AgencyProfileRow = AgencyProfileRow(
    agencyName: Option<string>, representativeName: Option<string>, foundedYear: Option<string>,
    businessNumber: Option<string>, address: Option<string>, phone: Option<string>,
    website: Option<string>, introduction: Option<string>, specialties: seq<string>,
    isProfileComplete: bool)

  /** What the builder leaves when given only the user: nothing set, no specialties, incomplete. */
  const DefaultRow := AgencyProfileRow(None, None, None, None, None, None, None, None, [], false)

  /** The eight text fields an agency edits, in the order `updateProfile` takes them. */
  datatype AgencyDetails = AgencyDetails(
    agencyName: Option<string>, representativeName: Option<string>, foundedYear: Option<string>,
    businessNumber: Option<string>, address: Option<string>, phone: Option<string>,
    website: Option<string>, introduction: Option<string>)

  /** The row `updateProfile` leaves: the details as given, null specialties as empty, complete. */
  function UpdatedRow(d: AgencyDetails, specialties: Option<seq<string>>): (r: AgencyProfileRow)
    ensures r.isProfileComplete
    ensures specialties.None? ==> r.specialties == []
    ensures specialties.Some? ==> r.specialties == specialties.value
    ensures DetailsOf(r) == d
  {
    AgencyProfileRow(d.agencyName, d.representativeName, d.foundedYear, d.businessNumber, d.address,
                     d.phone, d.website, d.introduction,
                     OrEmpty(specialties), true)
  }

  /** The eight text fields of a row. */
  function DetailsOf(row: AgencyProfileRow): AgencyDetails
  {
    AgencyDetails(row.agencyName, row.representativeName, row.foundedYear, row.businessNumber,
                  row.address, row.phone, row.website, row.introduction)
  }

  /** Editing with the details and specialties a row already shows gives back a complete copy of it. */
  lemma UpdateWithOwnRow(row: AgencyProfileRow)
    ensures UpdatedRow(DetailsOf(row), Some(row.specialties)) == row.(isProfileComplete := true)
  {
  }

  class AgencyProfile {
    /** The agency's account; its id is the profile's id. */
    const user: User
    var agencyName: Option<string>
    var representativeName: Option<string>
    var foundedYear: Option<string>
    var businessNumber: Option<string>
    var address: Option<string>
    var phone: Option<string>
    var website: Option<string>
    var introduction: Option<string>
    var specialties: seq<string>
    var isProfileComplete: bool

    /** `createDefault(user)`: only the user is set. */
    constructor CreateDefault(user: User)
      ensures this.user == user
      ensures Row() == DefaultRow
    {
      this.user := user;
      agencyName, representativeName, foundedYear, businessNumber := None, None, None, None;
      address, phone, website, introduction := None, None, None, None;
      specialties := [];
      isProfileComplete := false;
    }

    function Row(): AgencyProfileRow
      reads this
    {
      AgencyProfileRow(agencyName, representativeName, foundedYear, businessNumber, address, phone,
                       website, introduction, specialties, isProfileComplete)
    }

    /** `updateProfile`: overwrite the eight fields and the specialties, and mark the profile complete. */
    method UpdateProfile(d: AgencyDetails, specialties: Option<seq<string>>)
      modifies this
      ensures Row() == UpdatedRow(d, specialties)
    {
      agencyName := d.agencyName;
      representativeName := d.representativeName;
      foundedYear := d.foundedYear;
      businessNumber := d.businessNumber;
      address := d.address;
      phone := d.phone;
      website := d.website;
      introduction := d.introduction;
      this.specialties := OrEmpty(specialties);
      isProfileComplete := true;
    }
  }

  /** `AgencyProfileResponse.from`: the account's public fields and the profile row. */
  datatype AgencyProfileResponse = AgencyProfileResponse(
    userId: Uuid, email: string, name: string, profileImage: Option<string>, profile: AgencyProfileRow)

  function ResponseOf(agency: AgencyProfile): (r: AgencyProfileResponse)
    reads agency, agency.user
    ensures r.userId == agency.user.id && r.email == agency.user.email
    ensures r.name == agency.user.name && r.profileImage == agency.user.profileImage
    ensures r.profile == agency.Row()
  {
    AgencyProfileResponse(agency.user.id, agency.user.email, agency.user.name, agency.user.profileImage, agency.Row())
  }

  class AgencyService {
    /** The agency profile store, by user id. */
    var profiles: map<Uuid, AgencyProfile>

    predicate Valid()
      reads this
    {
      forall id :: id in profiles ==> profiles[id].user.id == id
    }

    constructor ()
      ensures Valid() && profiles == map[]
    {
      profiles := map[];
    }

    /** `getAgencyProfile`: public, no role check; only the profile must exist. */
    function GetAgencyProfile(agencyId: Uuid): (r: Result<AgencyProfileResponse, ErrorCode>)
      reads this, set id | id in profiles :: profiles[id], set id | id in profiles :: profiles[id].user
      requires Valid()
      ensures agencyId !in profiles <==> r == Failure(AgencyProfileNotFound)
      ensures r.Success? ==> r.value.userId == agencyId && r.value.profile == profiles[agencyId].Row()
    {
      if agencyId !in profiles then Failure(AgencyProfileNotFound) else Success(ResponseOf(profiles[agencyId]))
    }

    /** `getMyProfile`: agencies only, then the caller's own profile must exist. */
    function GetMyProfile(user: User): (r: Result<AgencyProfileResponse, ErrorCode>)
      reads this, set id | id in profiles :: profiles[id], set id | id in profiles :: profiles[id].user
      requires Valid()
      ensures user.userType != Agency ==> r == Failure(Forbidden)
      ensures user.userType == Agency ==> r == GetAgencyProfile(user.id)
    {
      if RequireType(user, Agency).Failure? then Failure(Forbidden) else GetAgencyProfile(user.id)
    }

    /**
     * `updateProfile`: agencies only; the caller's profile must exist; the
     * request is stored and the profile marked complete. A failure changes
     * nothing.
     */
    method UpdateProfile(user: User, d: AgencyDetails, specialties: Option<seq<string>>)
      returns (r: Result<AgencyProfileResponse, ErrorCode>)
      requires Valid()
      modifies if user.id in profiles then {profiles[user.id]} else {}
      ensures user.userType != Agency ==> r == Failure(Forbidden)
      ensures user.userType == Agency && user.id !in profiles ==> r == Failure(AgencyProfileNotFound)
      ensures user.userType == Agency && user.id in profiles ==>
        profiles[user.id].Row() == UpdatedRow(d, specialties) &&
        r == Success(ResponseOf(profiles[user.id]))
      ensures r.Failure? && user.id in profiles ==> profiles[user.id].Row() == old(profiles[user.id].Row())
    {
      var guard := RequireType(user, Agency);
      if guard.Failure? {
        return Failure(guard.error);
      }
      if user.id !in profiles {
        return Failure(AgencyProfileNotFound);
      }
      var agency := profiles[user.id];
      agency.UpdateProfile(d, specialties);
      r := Success(ResponseOf(agency));
    }
  }

  /** Once updated, the caller's own profile reads back as the request, complete. */
  lemma UpdateThenGet(s: AgencyService, user: User, d: AgencyDetails, specialties: Option<seq<string>>)
    requires s.Valid() && user.userType == Agency && user.id in s.profiles
    requires s.profiles[user.id].Row() == UpdatedRow(d, specialties)
    ensures s.GetMyProfile(user).Success?
    ensures DetailsOf(s.GetMyProfile(user).value.profile) == d
    ensures s.GetMyProfile(user).value.profile.isProfileComplete
  {
  }
}
