/**
 * The user's own profile: the extra profile row beside the account, its
 * notification settings, and the service that reads and edits them and
 * changes the password.
 */
module UserProfiles {
  import opened Common
  import opened ErrorCodes
  import opened Users

  /** The three notification flags, as the settings DTO carries them. */
  datatype SettingsDto = SettingsDto(casting: bool, message: bool, marketing: bool)

  /** Casting and message notifications on, marketing off. */
  const DefaultSettings := SettingsDto(true, true, false)

  /**
   * The flags the settings builder produces: a flag the builder is not given
   * takes its declared default.
   */
  function BuilderFlags(casting: Option<bool>, message: Option<bool>, marketing: Option<bool>): (r: SettingsDto)
    ensures casting.Some? ==> r.casting == casting.value
    ensures message.Some? ==> r.message == message.value
    ensures marketing.Some? ==> r.marketing == marketing.value
  {
    SettingsDto(
      if casting.Some? then casting.value else DefaultSettings.casting,
      if message.Some? then message.value else DefaultSettings.message,
      if marketing.Some? then marketing.value else DefaultSettings.marketing)
  }

  /** The builder's defaults are exactly the defaults `createDefault` sets. */
  lemma BuilderDefaultsAgree()
    ensures BuilderFlags(None, None, None) == DefaultSettings
    ensures DefaultSettings.casting && DefaultSettings.message && !DefaultSettings.marketing
  {
  }

  /** The seven free-form profile fields, in declaration order. */
  datatype ProfileDetails = ProfileDetails(
    position: Option<string>, agency: Option<string>, phone: Option<string>, bio: Option<string>,
    fee: Option<string>, height: Option<int>, weight: Option<int>)

  const EmptyDetails := ProfileDetails(None, None, None, None, None, None, None)

  class NotificationSettings {
    /** The profile these settings belong to; its user id is their id. */
    const userProfile: UserProfile
    var castingNotification: bool
    var messageNotification: bool
    var marketingNotification: bool

    /** `createDefault(profile)`. */
    constructor CreateDefault(userProfile: UserProfile)
      ensures this.userProfile == userProfile
      ensures Flags() == DefaultSettings
    {
      this.userProfile := userProfile;
      castingNotification := true;
      messageNotification := true;
      marketingNotification := false;
    }

    /** The builder: each flag given, or its declared default. */
    constructor Build(userProfile: UserProfile, casting: Option<bool>, message: Option<bool>, marketing: Option<bool>)
      ensures this.userProfile == userProfile
      ensures Flags() == BuilderFlags(casting, message, marketing)
    {
      this.userProfile := userProfile;
      castingNotification := if casting.Some? then casting.value else true;
      messageNotification := if message.Some? then message.value else true;
      marketingNotification := if marketing.Some? then marketing.value else false;
    }

    /** `NotificationSettingsDto.from(this)`. */
    function Flags(): SettingsDto
      reads this
    {
      SettingsDto(castingNotification, messageNotification, marketingNotification)
    }

    /** `updateSettings`: overwrite the three flags (the owning profile is fixed). */
    method UpdateSettings(casting: bool, message: bool, marketing: bool)
      modifies this
      ensures Flags() == SettingsDto(casting, message, marketing)
    {
      castingNotification := casting;
      messageNotification := message;
      marketingNotification := marketing;
    }
  }

  class UserProfile {
    /** The account this profile extends; its id is the profile's id. */
    const user: User
    var position: Option<string>
    var agency: Option<string>
    var phone: Option<string>
    var bio: Option<string>
    var fee: Option<string>
    var height: Option<int>
    var weight: Option<int>
    var notificationSettings: NotificationSettings?

    /** `createDefault(user)`: empty details and freshly attached default settings. */
    constructor CreateDefault(user: User)
      ensures this.user == user
      ensures Details() == EmptyDetails
      ensures notificationSettings != null && fresh(notificationSettings)
      ensures notificationSettings.userProfile == this
      ensures notificationSettings.Flags() == DefaultSettings
    {
      this.user := user;
      position, agency, phone, bio, fee := None, None, None, None, None;
      height, weight := None, None;
      new;
      notificationSettings := new NotificationSettings.CreateDefault(this);
    }

    function Details(): ProfileDetails
      reads this
    {
      ProfileDetails(position, agency, phone, bio, fee, height, weight)
    }

    /** The settings a client sees: the stored flags, or the defaults when none are stored. */
    function Settings(): (r: SettingsDto)
      reads this, notificationSettings
      ensures notificationSettings == null ==> r == DefaultSettings
      ensures notificationSettings != null ==> r == notificationSettings.Flags()
    {
      if notificationSettings == null then DefaultSettings else notificationSettings.Flags()
    }

    /** `updateProfile`: overwrite the seven detail fields; the settings link stays. */
    method UpdateProfile(details: ProfileDetails)
      modifies this
      ensures Details() == details
      ensures notificationSettings == old(notificationSettings)
    {
      position, agency, phone, bio, fee := details.position, details.agency, details.phone, details.bio, details.fee;
      height, weight := details.height, details.weight;
    }
  }

  /** `UserProfileResponse`: the account fields, the details (all null without a profile) and the settings. */
  datatype UserProfileResponse = UserProfileResponse(user: UserInfo, details: ProfileDetails, settings: SettingsDto)

  /** The failures of `changePassword`: the two codes the error table lacks, and table codes. */
  datatype PasswordError = InvalidPassword | SamePassword | Coded(code: ErrorCode)

  class UserService {
    /** The user store, by id. */
    var users: map<Uuid, User>
    /** The profile store, by user id. */
    var profiles: map<Uuid, UserProfile>

    /** Whether a raw password matches a stored hash. */
    const matches: (string, string) -> bool
    /** The password encoder's hash. */
    const encode: string -> string

    predicate Valid()
      reads this
    {
      (forall id :: id in users ==> users[id].id == id) &&
      (forall id :: id in profiles ==> profiles[id].user.id == id)
    }

    constructor (matches: (string, string) -> bool, encode: string -> string)
      ensures Valid()
      ensures users == map[] && profiles == map[]
      ensures this.matches == matches && this.encode == encode
    {
      users := map[];
      profiles := map[];
      this.matches := matches;
      this.encode := encode;
    }

    /** `getMyProfile`: the user is required, the profile is optional. */
    method GetMyProfile(userId: Uuid) returns (r: Result<UserProfileResponse, ErrorCode>)
      requires Valid()
      ensures userId !in users <==> r == Failure(UserNotFound)
      ensures userId in users && userId !in profiles ==>
        r == Success(UserProfileResponse(users[userId].Info(), EmptyDetails, DefaultSettings))
      ensures userId in users && userId in profiles ==>
        r == Success(UserProfileResponse(users[userId].Info(), profiles[userId].Details(), profiles[userId].Settings()))
    {
      if userId !in users {
        return Failure(UserNotFound);
      }
      var user := users[userId];
      if userId !in profiles {
        return Success(UserProfileResponse(user.Info(), EmptyDetails, DefaultSettings));
      }
      var profile := profiles[userId];
      r := Success(UserProfileResponse(user.Info(), profile.Details(), profile.Settings()));
    }

    /**
     * `updateProfile`: rename the user only when a name is given (keeping the
     * image), create a default profile when there is none, then overwrite
     * the profile's seven detail fields.
     */
    method UpdateProfile(userId: Uuid, name: Option<string>, details: ProfileDetails)
      returns (r: Result<UserProfileResponse, ErrorCode>)
      requires Valid()
      modifies this, if userId in users then {users[userId]} else {}, if userId in profiles then {profiles[userId]} else {}
      ensures Valid()
      ensures users == old(users)
      ensures userId !in users ==> r == Failure(UserNotFound) && profiles == old(profiles)
      ensures userId in users ==>
        users[userId].Row() == (if name.Some? then old(users[userId].Row()).(name := name.value) else old(users[userId].Row())) &&
        userId in profiles && profiles[userId].Details() == details &&
        (forall other :: other in profiles && other != userId ==> other in old(profiles) && profiles[other] == old(profiles)[other]) &&
        r == Success(UserProfileResponse(users[userId].Info(), details, profiles[userId].Settings()))
      ensures userId in users && userId in old(profiles) ==>
        profiles == old(profiles) && profiles[userId].notificationSettings == old(profiles[userId].notificationSettings)
      ensures userId in users && userId !in old(profiles) ==>
        fresh(profiles[userId]) && profiles[userId].user == users[userId] &&
        profiles == old(profiles)[userId := profiles[userId]] &&
        profiles[userId].Settings() == DefaultSettings
    {
      if userId !in users {
        return Failure(UserNotFound);
      }
      var user := users[userId];
      if name.Some? {
        user.UpdateProfile(name.value, user.profileImage);
      }
      var profile: UserProfile;
      if userId in profiles {
        profile := profiles[userId];
      } else {
        profile := new UserProfile.CreateDefault(user);
        profiles := profiles[userId := profile];
      }
      profile.UpdateProfile(details);
      r := Success(UserProfileResponse(user.Info(), profile.Details(), profile.Settings()));
    }

    /** `getNotificationSettings`: the profile is required; missing settings read as the defaults. */
    method GetNotificationSettings(userId: Uuid) returns (r: Result<SettingsDto, ErrorCode>)
      ensures userId !in profiles <==> r == Failure(UserProfileNotFound)
      ensures userId in profiles && profiles[userId].notificationSettings == null ==> r == Success(DefaultSettings)
      ensures userId in profiles && profiles[userId].notificationSettings != null ==>
        r == Success(profiles[userId].notificationSettings.Flags())
    {
      if userId !in profiles {
        return Failure(UserProfileNotFound);
      }
      var settings := profiles[userId].notificationSettings;
      if settings == null {
        return Success(DefaultSettings);
      }
      r := Success(settings.Flags());
    }

    /**
     * `updateNotificationSettings` as written: find or create the profile;
     * when the profile has no settings, a default settings object is built
     * for it but never attached, so the update lands on an object nothing
     * stores and the profile keeps no settings.
     */
    method UpdateNotificationSettings(userId: Uuid, request: SettingsDto)
      returns (r: Result<SettingsDto, ErrorCode>)
      requires Valid()
      modifies this, if userId in profiles && profiles[userId].notificationSettings != null
                     then {profiles[userId].notificationSettings} else {}
      ensures Valid()
      ensures users == old(users)
      ensures userId !in old(profiles) && userId !in users ==>
        r == Failure(UserNotFound) && profiles == old(profiles)
      ensures r.Success? ==> r.value == request && userId in profiles
      ensures userId in old(profiles) ==> r.Success? && profiles == old(profiles)
      ensures userId in old(profiles) && old(profiles[userId].notificationSettings) == null ==>
        profiles[userId].notificationSettings == null && profiles[userId].Settings() == DefaultSettings
      ensures userId in old(profiles) && old(profiles[userId].notificationSettings) != null ==>
        profiles[userId].notificationSettings == old(profiles[userId].notificationSettings) &&
        profiles[userId].Settings() == request
      ensures userId !in old(profiles) && userId in users ==>
        r.Success? && fresh(profiles[userId]) && profiles == old(profiles)[userId := profiles[userId]] &&
        profiles[userId].user == users[userId] && profiles[userId].Settings() == request
    {
      var profile: UserProfile;
      if userId in profiles {
        profile := profiles[userId];
      } else {
        if userId !in users {
          return Failure(UserNotFound);
        }
        profile := new UserProfile.CreateDefault(users[userId]);
        profiles := profiles[userId := profile];
      }
      var settings := profile.notificationSettings;
      if settings == null {
        settings := new NotificationSettings.CreateDefault(profile);
      }
      settings.UpdateSettings(request.casting, request.message, request.marketing);
      r := Success(settings.Flags());
    }

    /**
     * `updateNotificationSettings` with the settings object attached to the
     * profile when it has to be created, so the update is stored in every case.
     */
    method UpdateNotificationSettingsAttached(userId: Uuid, request: SettingsDto)
      returns (r: Result<SettingsDto, ErrorCode>)
      requires Valid()
      modifies this, if userId in profiles then {profiles[userId]} else {},
        if userId in profiles && profiles[userId].notificationSettings != null
        then {profiles[userId].notificationSettings} else {}
      ensures Valid()
      ensures users == old(users)
      ensures userId !in old(profiles) && userId !in users ==>
        r == Failure(UserNotFound) && profiles == old(profiles)
      ensures (userId in old(profiles) || userId in users) ==>
        r == Success(request) && userId in profiles &&
        profiles == old(profiles)[userId := profiles[userId]] &&
        profiles[userId].Details() == old(if userId in profiles then profiles[userId].Details() else EmptyDetails) &&
        profiles[userId].notificationSettings != null && profiles[userId].Settings() == request
    {
      var profile: UserProfile;
      if userId in profiles {
        profile := profiles[userId];
      } else {
        if userId !in users {
          return Failure(UserNotFound);
        }
        profile := new UserProfile.CreateDefault(users[userId]);
        profiles := profiles[userId := profile];
      }
      var settings := profile.notificationSettings;
      if settings == null {
        settings := new NotificationSettings.CreateDefault(profile);
        profile.notificationSettings := settings;
      }
      settings.UpdateSettings(request.casting, request.message, request.marketing);
      r := Success(settings.Flags());
    }

    /**
     * `changePassword`: the user must exist; then, in order, the current
     * password must match, the new password must equal its confirmation, and
     * the new password must not match the current hash. On success only the
     * password hash changes.
     */
    method ChangePassword(userId: Uuid, currentPassword: string, newPassword: string, confirmPassword: string)
      returns (r: Result<(), PasswordError>)
      requires Valid()
      modifies if userId in users then {users[userId]} else {}
      ensures userId !in users ==> r == Failure(Coded(UserNotFound))
      ensures userId in users ==>
        var stored := old(users[userId].password);
        r == (if !matches(currentPassword, stored) then Failure(InvalidPassword)
              else if newPassword != confirmPassword then Failure(Coded(PasswordMismatch))
              else if matches(newPassword, stored) then Failure(SamePassword)
              else Success(()))
      ensures userId in users && r.Failure? ==> users[userId].Row() == old(users[userId].Row())
      ensures userId in users && r.Success? ==>
        users[userId].Row() == old(users[userId].Row()).(password := encode(newPassword))
    {
      if userId !in users {
        return Failure(Coded(UserNotFound));
      }
      var user := users[userId];
      if !matches(currentPassword, user.password) {
        return Failure(InvalidPassword);
      }
      if newPassword != confirmPassword {
        return Failure(Coded(PasswordMismatch));
      }
      if matches(newPassword, user.password) {
        return Failure(SamePassword);
      }
      user.UpdatePassword(encode(newPassword));
      r := Success(());
    }
  }
}
