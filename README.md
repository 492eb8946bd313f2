# k-culture-backend, modelled in Dafny

k-culture-backend is a Spring Boot service that connects actors with casting agencies. Accounts are either actors or agencies.

- Actors keep a profile, a filmography and showreels.
- Agencies keep a profile and post projects with characters to cast, and job postings.
- Everyone can bookmark actors and projects, read notices, receive notifications and upload files.

This project models the service layer of that system and proves what it promises.

**Authentication** (module `Auth`, over `RefreshTokens`) is the centre of the model. It covers:

- signup, login, refresh-token rotation, logout, forgot/reset password and account deactivation;
- two stores: the user store, and the refresh-token store keyed by user id with a secondary index by token value.

The authentication manager, the password encoder and the JWT codec are fixed functions of the service. Each call receives as parameters the tokens the codec issues and the id the database assigns. The proofs show that:

- the token index always matches the records;
- every user has at most one refresh record;
- every error path leaves both stores unchanged;
- a rotated token is rejected when it is presented again;
- a re-issued identical token stays valid.

The last point needs freshness of the issued token, which the code does not guarantee within the same second.

**Around it:**

- the entity state machines (`Users`, `Jobs`, `Showreels`, `Projects`, `Notices`, `Notifications`, `Actors`, `Agencies`, `UserProfiles`), each with "only this field changes" contracts;
- the service guard ladders: role checks, ownership checks, duplicate checks and not-found errors, decided before any repository changes;
- the pure parts:
  - the profile-completeness score;
  - `formatDuration`;
  - file-extension extraction and the upload URL/key round trip;
  - the birth-year estimate and the recommendation scores;
  - the enum display-name parsers;
  - the error-code table and the response envelope.

Java semantics the code relies on are in `JavaLang`:

- `Integer` and `Long` increments, which wrap;
- ASCII case mapping;
- `lastIndexOf` and `%d`;
- the `values()` lookup loops.

Repositories are maps keyed by id (or sets of ids). An entity that the source updates in place is a class held by reference, so the repository sees the update as JPA's managed entities do. A listing query is a set comprehension, stated with both directions of membership.

Points of the code that a reader might expect otherwise:

- `refreshToken` reads the token from the request body, not from a cookie. The transport is not modelled.
- `login` asks the authentication manager before it looks the user up. The manager accepts an active account whose stored hash matches the password; an unknown email, a deactivated account and a wrong password all fail as unauthorized.
- `resetPassword` leaves refresh records alone: refresh tokens issued before the reset stay valid.
- `signup` saves only the user row. It creates no profile row.

## Model

| member | source | states |
|---|---|---|
| RefreshTokens.Of | src/main/java/restapi/kculturebackend/domain/auth/entity/RefreshToken.java:33-40 | the record's id is the user id, and the email, token and expiration are stored as given |
| RefreshTokens.Save | src/main/java/restapi/kculturebackend/domain/auth/entity/RefreshToken.java:22-26 | saving puts the record under its id, replacing any earlier record of that user, and keeps the token index consistent with the records |
| RefreshTokens.DeleteById | src/main/java/restapi/kculturebackend/domain/auth/service/AuthService.java:111 | exactly the record with that id is removed; the index stays consistent |
| RefreshTokens.DeleteByToken | src/main/java/restapi/kculturebackend/domain/auth/repository/RefreshTokenRepository.java:17 | exactly the records holding that token are removed; the index stays consistent |
| RefreshTokens.FindByToken | src/main/java/restapi/kculturebackend/domain/auth/repository/RefreshTokenRepository.java:15 | no result iff no record holds the token; a found record is stored and is the only holder; more than one holder is reported as such |
| RefreshTokens.UniqueTokensNeverAmbiguous | src/main/java/restapi/kculturebackend/domain/auth/repository/RefreshTokenRepository.java:15 | while no two records share a token, a lookup never has two candidates |
| RefreshTokens.SaveKeepsTokensUnique | src/main/java/restapi/kculturebackend/domain/auth/service/AuthService.java:218-226 | saving a record whose token no other record holds keeps tokens unique |
| RefreshTokens.DeletesKeepTokensUnique | src/main/java/restapi/kculturebackend/domain/auth/service/AuthService.java:111 | deleting by id or by token keeps tokens unique |
| RefreshTokens.SavedRecordIsFound | src/main/java/restapi/kculturebackend/domain/auth/entity/RefreshToken.java:25-26 | after a save with a fresh token, looking that token up finds exactly the saved record |
| RefreshTokens.DeleteByIdIdempotent | src/main/java/restapi/kculturebackend/domain/auth/service/AuthService.java:110-113 | deleting an id twice is deleting it once, and deleting an absent id changes nothing |
| RefreshTokens.DeletedTokenNotFound | src/main/java/restapi/kculturebackend/domain/auth/service/AuthService.java:140 | after deleting a token, looking it up finds nothing |
| RefreshTokens.OperationsKeepTtl | src/main/java/restapi/kculturebackend/domain/auth/service/AuthService.java:218-226 | when every record carries the same TTL, saving a record with that TTL and deleting by id or by token keep it so |
| RefreshTokens.Rotate | src/main/java/restapi/kculturebackend/domain/auth/service/AuthService.java:140-141 | deleting the presented token and then saving the new record leaves a consistent store |
| RefreshTokens.RotationRejectsReplay | src/main/java/restapi/kculturebackend/domain/auth/service/AuthService.java:136-146 | after a rotation to a different token the presented token is no longer found, and a fresh new token finds the new record |
| RefreshTokens.ReissuedTokenStaysValid | src/main/java/restapi/kculturebackend/domain/auth/service/AuthService.java:136-141 | if the codec issues the very token that was presented, that token is still found after the rotation |
| Auth.BeforeFirst | src/main/java/restapi/kculturebackend/domain/auth/service/AuthService.java:91 | the result is a prefix of the input without the separator, followed in the input by the separator unless it is the whole input |
| Auth.EmailLocalPart | src/main/java/restapi/kculturebackend/domain/auth/service/AuthService.java:91 | the signup name is the text before the first '@'; a non-empty email made only of '@' has no first field and fails |
| Auth.AuthService.FindByEmail | src/main/java/restapi/kculturebackend/domain/auth/service/AuthService.java:50-51 | a user is found iff one has the email, and the user found has it |
| Auth.AuthService.RecordFor | src/main/java/restapi/kculturebackend/domain/auth/service/AuthService.java:218-224 | the record saved for a user holds the user id, the email, the token and the 7-day TTL |
| Auth.AuthService.Login | src/main/java/restapi/kculturebackend/domain/auth/service/AuthService.java:40-65 | success exactly when the email belongs to an active account whose stored hash matches the password; otherwise unauthorized with the refresh store unchanged; on success exactly one record, keyed by the user's id with the new refresh token, is saved, and the response returns the issued tokens and the user's info |
| Auth.AccountAuthenticates | src/main/java/restapi/kculturebackend/domain/user/entity/User.java:79-81 | a stored account authenticates with a password exactly when it is active and its stored hash matches that password |
| Auth.AuthService.Signup | src/main/java/restapi/kculturebackend/domain/auth/service/AuthService.java:71-104 | password mismatch, then a taken email, then missing agreements fail in that order and save nothing; success stores one new active user with the hashed password, the requested type and the email's local part as name, who then authenticates exactly with passwords matching that hash; the refresh store is never touched |
| Auth.AuthService.Logout | src/main/java/restapi/kculturebackend/domain/auth/service/AuthService.java:110-113 | exactly the user's refresh record is deleted; users are unchanged |
| Auth.AuthService.Refresh | src/main/java/restapi/kculturebackend/domain/auth/service/AuthService.java:119-147 | a token the codec rejects, or one with no stored record, fails as unauthorized; a record whose email has no user fails as not found; every failure leaves the refresh store unchanged; success rotates the presented token to the newly issued one under the user's id |
| Auth.AuthService.ForgotPassword | src/main/java/restapi/kculturebackend/domain/auth/service/AuthService.java:153-161 | succeeds iff an account has the email, and changes nothing |
| Auth.AuthService.ResetPassword | src/main/java/restapi/kculturebackend/domain/auth/service/AuthService.java:167-196 | a mismatch fails before the token is checked; an invalid token or an unknown subject changes nothing; success replaces only the password hash of the token's user, after which the account authenticates exactly with passwords matching the new hash while it is active; the refresh store is never touched |
| Auth.AuthService.DeleteAccount | src/main/java/restapi/kculturebackend/domain/auth/service/AuthService.java:202-213 | an unknown user fails as not found with both stores unchanged; otherwise the user is deactivated with no other field changed, can no longer log in with any password, and their refresh record is deleted |
| Auth.AuthService.SaveRefreshToken | src/main/java/restapi/kculturebackend/domain/auth/service/AuthService.java:218-226 | the store becomes the old store with the user's 7-day record saved; users are unchanged |
| Users.User.constructor | src/main/java/restapi/kculturebackend/domain/user/entity/User.java:25-50 | the builder stores every field as given |
| Users.User.WithDefaults | src/main/java/restapi/kculturebackend/domain/user/entity/User.java:48-50 | without an isActive value the account is active, hence enabled |
| Users.User.Info | src/main/java/restapi/kculturebackend/domain/auth/dto/UserInfo.java:26-34 | the info carries the user's id, email, name, type and profile image |
| Users.User.Authorities | src/main/java/restapi/kculturebackend/domain/user/entity/User.java:53-56 | the single authority is "ROLE_" followed by the type's name |
| Users.User.UpdateProfile | src/main/java/restapi/kculturebackend/domain/user/entity/User.java:84-87 | only the name and the profile image change |
| Users.User.UpdatePassword | src/main/java/restapi/kculturebackend/domain/user/entity/User.java:89-91 | only the password changes |
| Users.User.Deactivate | src/main/java/restapi/kculturebackend/domain/user/entity/User.java:93-95 | only isActive changes, to false, so the account is disabled; a second call changes nothing further |
| Users.RequireType | src/main/java/restapi/kculturebackend/domain/actor/service/ActorService.java:229-240 | the role guard passes iff the account has the required type, equivalently its authority is that role; otherwise FORBIDDEN |
| Users.AuthoritiesSeparateTypes | src/main/java/restapi/kculturebackend/domain/user/entity/User.java:53-56 | accounts of different types never share an authority |
| Users.OnlyActivityDisables | src/main/java/restapi/kculturebackend/domain/user/entity/User.java:58-81 | the username is the email, the expiry and lock checks always pass, and enabled equals isActive |
| ApiResponses.SuccessWith | src/main/java/restapi/kculturebackend/common/dto/ApiResponse.java:26-28 | success is true, the data is as given and there is no error |
| ApiResponses.SuccessEmpty | src/main/java/restapi/kculturebackend/common/dto/ApiResponse.java:33-35 | success is true with neither data nor error |
| ApiResponses.ErrorWith | src/main/java/restapi/kculturebackend/common/dto/ApiResponse.java:40-42 | success is false, there is no data and the error is as given |
| ApiResponses.ErrorOf | src/main/java/restapi/kculturebackend/common/dto/ApiResponse.java:47-49 | success is false, no data, and the error has the code and message and no details |
| ApiResponses.SuccessAndErrorDiffer | src/main/java/restapi/kculturebackend/common/dto/ApiResponse.java:26-49 | no success envelope equals an error envelope; no factory pairs success with an error |
| ErrorCodes.Status | src/main/java/restapi/kculturebackend/common/exception/ErrorCode.java:24-79 | every constant is answered with one of 400, 401, 403, 404, 409 and 500 |
| ErrorCodes.CodeRoundTrip | src/main/java/restapi/kculturebackend/common/exception/ErrorCode.java:24-75 | every code string identifies its constant |
| ErrorCodes.CodesDistinct | src/main/java/restapi/kculturebackend/common/exception/ErrorCode.java:24-75 | the code strings are pairwise distinct |
| ErrorCodes.CodeShape | src/main/java/restapi/kculturebackend/common/exception/ErrorCode.java:24-75 | every code is its area, an underscore and three more characters |
| ErrorCodes.AuthCodesAreUnauthorized | src/main/java/restapi/kculturebackend/common/exception/ErrorCode.java:24-28 | every AUTH_xxx code is answered with 401 |
| ErrorCodes.NotFoundCodesAre404 | src/main/java/restapi/kculturebackend/common/exception/ErrorCode.java:31-75 | every *_NOT_FOUND constant is answered with 404 |
| ErrorCodes.ConflictCodesAre409 | src/main/java/restapi/kculturebackend/common/exception/ErrorCode.java:32-74 | 409 is answered exactly for EMAIL_ALREADY_EXISTS, FAVORITE_ALREADY_EXISTS and CONFLICT |
| UserProfiles.BuilderFlags | src/main/java/restapi/kculturebackend/domain/user/entity/NotificationSettings.java:29-39 | a flag given to the builder is stored as given |
| UserProfiles.BuilderDefaultsAgree | src/main/java/restapi/kculturebackend/domain/user/entity/NotificationSettings.java:29-56 | the builder's defaults are casting on, message on, marketing off, the same as createDefault |
| UserProfiles.NotificationSettings.CreateDefault | src/main/java/restapi/kculturebackend/domain/user/entity/NotificationSettings.java:49-56 | the settings belong to the given profile, with casting and message on and marketing off |
| UserProfiles.NotificationSettings.Build | src/main/java/restapi/kculturebackend/domain/user/entity/NotificationSettings.java:29-39 | each flag is the one given or its declared default |
| UserProfiles.NotificationSettings.UpdateSettings | src/main/java/restapi/kculturebackend/domain/user/entity/NotificationSettings.java:42-47 | exactly the three flags are overwritten; the owning profile is fixed |
| UserProfiles.UserProfile.CreateDefault | src/main/java/restapi/kculturebackend/domain/user/entity/UserProfile.java:65-75 | a profile of the user with empty details and new default settings attached to it |
| UserProfiles.UserProfile.Settings | src/main/java/restapi/kculturebackend/domain/user/dto/UserProfileResponse.java:36-38 | the stored flags, or the defaults when the profile has no settings |
| UserProfiles.UserProfile.UpdateProfile | src/main/java/restapi/kculturebackend/domain/user/entity/UserProfile.java:54-63 | the seven detail fields become the given ones; the settings link stays |
| UserProfiles.UserService.GetMyProfile | src/main/java/restapi/kculturebackend/domain/user/service/UserService.java:40-47 | USER_NOT_FOUND iff the user is missing; without a profile the details are empty and the settings the defaults |
| UserProfiles.UserService.UpdateProfile | src/main/java/restapi/kculturebackend/domain/user/service/UserService.java:53-85 | USER_NOT_FOUND changes nothing; the user is renamed only when a name is given, keeping the image; a missing profile is created with default settings; the seven fields are overwritten; other profiles are unchanged |
| UserProfiles.UserService.GetNotificationSettings | src/main/java/restapi/kculturebackend/domain/user/service/UserService.java:91-101 | USER_PROFILE_NOT_FOUND iff there is no profile; missing settings read as (true, true, false) |
| UserProfiles.UserService.UpdateNotificationSettings | src/main/java/restapi/kculturebackend/domain/user/service/UserService.java:107-131 | as written: the answer echoes the request, but a profile that had no settings still has none, so its settings read as the defaults |
| UserProfiles.UserService.UpdateNotificationSettingsAttached | src/main/java/restapi/kculturebackend/domain/user/service/UserService.java:107-131 | corrected: an unknown user without a profile fails with USER_NOT_FOUND; otherwise the profile's stored settings equal the request and its details are unchanged |
| UserProfiles.UserService.ChangePassword | src/main/java/restapi/kculturebackend/domain/user/service/UserService.java:137-160 | USER_NOT_FOUND for a missing user; then INVALID_PASSWORD, PASSWORD_MISMATCH and SAME_PASSWORD in that order, each changing nothing; success replaces only the password with the encoding of the new one |
| Common.OrEmpty | src/main/java/restapi/kculturebackend/domain/actor/entity/ActorProfile.java:80-81 | a null list argument is stored as the empty list, any other as given |
| Actors.ActorProfile.CreateDefault | src/main/java/restapi/kculturebackend/domain/actor/entity/ActorProfile.java:86-90 | a default profile holds only its user: every optional field unset, empty skill and language lists (builder defaults, lines 51-68), not complete |
| Actors.ActorProfile.UpdateProfile | src/main/java/restapi/kculturebackend/domain/actor/entity/ActorProfile.java:71-84 | the whole new row: the seven scalar arguments as given, null lists as empty lists, and the profile marked complete |
| Actors.EstimateBirthYear | src/main/java/restapi/kculturebackend/domain/actor/service/ActorService.java:215-226 | an estimate exists exactly for the six age groups, and the i-th group gives the current year minus 15 + 10i |
| Actors.EstimateRange | src/main/java/restapi/kculturebackend/domain/actor/service/ActorService.java:215-226 | every estimate lies 15 to 65 years back, and an older age group never estimates a later birth year |
| Actors.RecommendationFor | src/main/java/restapi/kculturebackend/domain/actor/dto/ActorRecommendResponse.java:26-34 | the response carries the account id, image and score; its name is the stage name when set, else the account name |
| Actors.ScoresStepDown | src/main/java/restapi/kculturebackend/domain/actor/service/ActorService.java:179-191 | each later recommendation scores exactly 5 less than the one before, starting from 85 |
| Actors.ActorService.UpdateProfile | src/main/java/restapi/kculturebackend/domain/actor/service/ActorService.java:94-116 | non-actors are FORBIDDEN; a missing profile is ACTOR_PROFILE_NOT_FOUND; otherwise the profile's new row is the request's fields with null lists emptied and marked complete; a failure changes nothing |
| Actors.ActorService.CreateProfile | src/main/java/restapi/kculturebackend/domain/actor/service/ActorService.java:135-169 | the guards as in updateProfile; on success the account is renamed and its image replaced only by a given upload URL; the birth year is the given one, else the age-group estimate; nationality, languages and agency are cleared; a failure changes neither the account nor the profile |
| Actors.ActorService.RecommendActors | src/main/java/restapi/kculturebackend/domain/actor/service/ActorService.java:173-194 | non-agencies are FORBIDDEN; otherwise one recommendation per profile of the page, in order, the i-th scored 85 - 5i with the completeness reason always and the skills reason exactly when skills are listed; every score is between 40 and 85, every recommended actor is a distinct stored complete profile, and when fewer than ten complete profiles exist all of them are recommended |
| Actors.ActorService.ContactActor | src/main/java/restapi/kculturebackend/domain/actor/service/ActorService.java:198-212 | non-agencies are FORBIDDEN; an unknown actor is ACTOR_PROFILE_NOT_FOUND; otherwise the generated contact id is returned |
| Dashboard.Create | src/main/java/restapi/kculturebackend/domain/dashboard/entity/Activity.java:66-76 | all six arguments are stored as given |
| Dashboard.ProfileViewed | src/main/java/restapi/kculturebackend/domain/dashboard/entity/Activity.java:78-87 | an entry on the actor's feed whose message and related name are the viewer's name, or the anonymous name when there is no viewer, with the viewer's id when there is one |
| Dashboard.Favorited | src/main/java/restapi/kculturebackend/domain/dashboard/entity/Activity.java:89-97 | an entry on the actor's feed naming the user who added the favorite, with that user's id |
| Dashboard.ContactReceived | src/main/java/restapi/kculturebackend/domain/dashboard/entity/Activity.java:99-108 | an entry on the actor's feed naming the agency, with the agency's id and the project id |
| Dashboard.ProfileViewMessageNamesViewer | src/main/java/restapi/kculturebackend/domain/dashboard/entity/Activity.java:78-87 | two profile-view messages are equal exactly when they name the same viewer |
| Dashboard.CompletenessIsWeightedSum | src/main/java/restapi/kculturebackend/domain/dashboard/service/DashboardService.java:195-210 | the completeness score is the weighted sum of the eight present items, lies between 0 and 100, and is 100 exactly when all eight are present |
| Dashboard.WeightedSumBounds | src/main/java/restapi/kculturebackend/domain/dashboard/service/DashboardService.java:198-207 | with positive weights the sum lies between 0 and the total, and equals the total exactly when every item is present |
| Dashboard.ProfileCompleteness | src/main/java/restapi/kculturebackend/domain/dashboard/service/DashboardService.java:195-210 | a missing profile scores 0 |
| Dashboard.RepeatViewIgnored | src/main/java/restapi/kculturebackend/domain/dashboard/service/DashboardService.java:132-148 | within the one-hour cooldown a second view by the same viewer, or from the same IP, is not recorded |
| Dashboard.ViewCountsAgainAfterCooldown | src/main/java/restapi/kculturebackend/domain/dashboard/service/DashboardService.java:132-148 | once the hour has passed an earlier view no longer blocks a new one, which is then recorded exactly when the viewer is not the actor |
| Dashboard.ActivitiesOfCounts | src/main/java/restapi/kculturebackend/domain/dashboard/service/DashboardService.java:187 | the account's feed has exactly as many entries as the count query returns |
| Dashboard.DashboardService.IsActor | src/main/java/restapi/kculturebackend/domain/dashboard/service/DashboardService.java:112-114 | true exactly for actor accounts, which are exactly the accounts whose only authority is ROLE_ACTOR |
| Dashboard.DashboardService.CompletenessOf | src/main/java/restapi/kculturebackend/domain/dashboard/service/DashboardService.java:195-210 | an account without an actor profile scores 0, and every score lies between 0 and 100 |
| Dashboard.DashboardService.RecordProfileView | src/main/java/restapi/kculturebackend/domain/dashboard/service/DashboardService.java:119-159 | when the view counts (an actor target, not the actor themself, no view by that viewer or IP within the hour) one view and one profile-view activity are appended; otherwise nothing changes |
| Dashboard.DashboardService.RecordFavoriteActivity | src/main/java/restapi/kculturebackend/domain/dashboard/service/DashboardService.java:164-173 | an unknown account changes nothing; otherwise exactly one favorite entry is appended to its feed |
| Dashboard.DashboardService.GetRecentActivities | src/main/java/restapi/kculturebackend/domain/dashboard/service/DashboardService.java:178-190 | a page size min(limit, 50) below 1 is a validation error; otherwise the account's newest entries, newest first, at most that many, and the account's total count |
| ActorEnums.FilmographyDisplayNamesDistinct | src/main/java/restapi/kculturebackend/domain/actor/entity/FilmographyType.java:15-23 | no two filmography types share a display name |
| ActorEnums.FilmographyConstantNamesDistinct | src/main/java/restapi/kculturebackend/domain/actor/entity/FilmographyType.java:15-23 | no two filmography types share an identifier |
| ActorEnums.FilmographyFromDisplayName | src/main/java/restapi/kculturebackend/domain/actor/entity/FilmographyType.java:32-44 | the type whose display name equals the text wins; failing that, the type whose identifier equals the upper-cased text; failing both, OTHER |
| ActorEnums.FilmographyRoundTrip | src/main/java/restapi/kculturebackend/domain/actor/entity/FilmographyType.java:27-44 | reading back the display name the API writes gives the same type |
| ActorEnums.FilmographyByConstantName | src/main/java/restapi/kculturebackend/domain/actor/entity/FilmographyType.java:39-40 | a type's identifier, in upper or lower case, reads back as that type |
| ActorEnums.FilmographyUnknownIsOther | src/main/java/restapi/kculturebackend/domain/actor/entity/FilmographyType.java:41-43 | text that is neither a display name nor an identifier, the empty text included, reads as OTHER |
| ActorEnums.RoleDisplayNamesDistinct | src/main/java/restapi/kculturebackend/domain/actor/entity/RoleType.java:15-21 | no two role types share a display name |
| ActorEnums.RoleConstantNamesDistinct | src/main/java/restapi/kculturebackend/domain/actor/entity/RoleType.java:15-21 | no two role types share an identifier |
| ActorEnums.RoleFromDisplayName | src/main/java/restapi/kculturebackend/domain/actor/entity/RoleType.java:30-42 | display name first, then the identifier of the upper-cased text, else OTHER |
| ActorEnums.RoleRoundTrip | src/main/java/restapi/kculturebackend/domain/actor/entity/RoleType.java:25-42 | reading back the display name the API writes gives the same role type |
| ActorEnums.RoleByConstantName | src/main/java/restapi/kculturebackend/domain/actor/entity/RoleType.java:37-38 | a role type's identifier, in upper or lower case, reads back as that role type |
| ActorEnums.CategoryFromDisplayName | src/main/java/restapi/kculturebackend/domain/actor/entity/ActorCategory.java:20-27 | the category with exactly that display name, and null exactly when no category has it |
| ActorEnums.CategoryRoundTrip | src/main/java/restapi/kculturebackend/domain/actor/entity/ActorCategory.java:20-27 | every category is found by its display name |
| ActorEnums.GenderFromDisplayName | src/main/java/restapi/kculturebackend/domain/actor/entity/Gender.java:20-27 | the gender with exactly that display name, and null exactly when no gender has it |
| ActorEnums.GenderRoundTrip | src/main/java/restapi/kculturebackend/domain/actor/entity/Gender.java:20-27 | every gender is found by its display name |
| ActorEnums.IdentifiersRejected | src/main/java/restapi/kculturebackend/domain/actor/entity/Gender.java:20-27 | these two lookups compare display names only: an identifier such as MALE is not found |
| Agencies.UpdatedRow | src/main/java/restapi/kculturebackend/domain/agency/entity/AgencyProfile.java:68-81 | the row after an edit shows the eight details as given, null specialties as an empty list, and is complete |
| Agencies.UpdateWithOwnRow | src/main/java/restapi/kculturebackend/domain/agency/entity/AgencyProfile.java:68-81 | editing with the values a row already shows changes nothing but the completeness flag |
| Agencies.AgencyProfile.CreateDefault | src/main/java/restapi/kculturebackend/domain/agency/entity/AgencyProfile.java:83-87 | a default profile holds only its user: no details, no specialties (builder default, lines 57-65), not complete |
| Agencies.AgencyProfile.UpdateProfile | src/main/java/restapi/kculturebackend/domain/agency/entity/AgencyProfile.java:68-81 | the whole new row is the edited row |
| Agencies.ResponseOf | src/main/java/restapi/kculturebackend/domain/agency/dto/AgencyProfileResponse.java:38-57 | the response shows the account's id, email, name and image beside the profile's current row |
| Agencies.AgencyService.GetAgencyProfile | src/main/java/restapi/kculturebackend/domain/agency/service/AgencyService.java:32-38 | public; AGENCY_PROFILE_NOT_FOUND exactly when no profile has the id, otherwise that profile |
| Agencies.AgencyService.GetMyProfile | src/main/java/restapi/kculturebackend/domain/agency/service/AgencyService.java:43-51 | non-agencies are FORBIDDEN; an agency gets exactly the public lookup of its own id |
| Agencies.AgencyService.UpdateProfile | src/main/java/restapi/kculturebackend/domain/agency/service/AgencyService.java:56-79 | non-agencies are FORBIDDEN; a missing profile is AGENCY_PROFILE_NOT_FOUND; otherwise the profile's row becomes the edited row; a failure changes nothing |
| Agencies.UpdateThenGet | src/main/java/restapi/kculturebackend/domain/agency/service/AgencyService.java:43-79 | after an update the agency's own profile reads back with the request's details and complete |
| Favorites.CodeUpperCased | src/main/java/restapi/kculturebackend/domain/favorite/entity/FavoriteType.java:15-16 | each code upper-cased is its constant's identifier |
| Favorites.FromCode | src/main/java/restapi/kculturebackend/domain/favorite/entity/FavoriteType.java:26-34 | the type whose code equals the text ignoring case; an exception (here no result) for null and for text that matches no code |
| Favorites.FromCodeRoundTrip | src/main/java/restapi/kculturebackend/domain/favorite/entity/FavoriteType.java:21-34 | every type reads back from its code, and from its identifier too |
| Favorites.Convert | src/main/java/restapi/kculturebackend/config/StringToFavoriteTypeConverter.java:15-21 | null or empty text gives no filter; otherwise the type whose identifier is the upper-cased text, and an error for any other text |
| Favorites.ConverterAgreesWithFromCode | src/main/java/restapi/kculturebackend/config/StringToFavoriteTypeConverter.java:15-21 | on non-empty text the request-parameter converter and the JSON lookup accept the same inputs and read the same type |
| Favorites.FavoriteService.ResponseOf | src/main/java/restapi/kculturebackend/domain/favorite/service/FavoriteService.java:47-54 | a listed favorite carries the actor summary exactly when it is an actor favorite whose profile exists |
| Favorites.FavoriteService.GetFavorites | src/main/java/restapi/kculturebackend/domain/favorite/service/FavoriteService.java:37-55 | exactly the caller's favorites, and only those of the given type when a type is given |
| Favorites.FavoriteService.AddFavorite | src/main/java/restapi/kculturebackend/domain/favorite/service/FavoriteService.java:60-102 | a duplicate of (user, target, type) is FAVORITE_ALREADY_EXISTS; an actor target without a profile is RESOURCE_NOT_FOUND, while a project target is not checked; on success exactly one favorite is added and uniqueness is kept; a failure changes nothing |
| Favorites.FavoriteService.DeleteFavorite | src/main/java/restapi/kculturebackend/domain/favorite/service/FavoriteService.java:81-88 | exactly the caller's own favorite is removed; another user's favorite and a missing one are both FAVORITE_NOT_FOUND and change nothing |
| Favorites.AddedIsDuplicate | src/main/java/restapi/kculturebackend/domain/favorite/service/FavoriteService.java:62-65 | a favorite just added makes the same request a duplicate |
| Filmographies.Filmography.Create | src/main/java/restapi/kculturebackend/domain/actor/entity/Filmography.java:79-95 | the new work belongs to the given actor and holds the nine fields as given |
| Filmographies.Filmography.Update | src/main/java/restapi/kculturebackend/domain/actor/entity/Filmography.java:62-74 | the nine fields are overwritten; the id and the actor stay |
| Filmographies.FilmographyService.WorksOf | src/main/java/restapi/kculturebackend/domain/actor/service/FilmographyService.java:45 | exactly the works whose actor is the given one |
| Filmographies.FilmographyService.GetFilmographiesByActor | src/main/java/restapi/kculturebackend/domain/actor/service/FilmographyService.java:38-48 | ACTOR_PROFILE_NOT_FOUND exactly when the actor has no profile, otherwise all of the actor's works |
| Filmographies.FilmographyService.GetFilmography | src/main/java/restapi/kculturebackend/domain/actor/service/FilmographyService.java:53-59 | FILMOGRAPHY_NOT_FOUND exactly for an unknown id, otherwise that work's fields |
| Filmographies.FilmographyService.GetMyFilmographies | src/main/java/restapi/kculturebackend/domain/actor/service/FilmographyService.java:64-71 | FORBIDDEN exactly for non-actors; otherwise the caller's works, without a profile check |
| Filmographies.FilmographyService.OwnWork | src/main/java/restapi/kculturebackend/domain/actor/service/FilmographyService.java:107-115 | the work is found exactly when the caller is an actor and owns it; otherwise FILMOGRAPHY_NOT_FOUND for an actor and a missing id, FORBIDDEN in every other case |
| Filmographies.FilmographyService.CreateFilmography | src/main/java/restapi/kculturebackend/domain/actor/service/FilmographyService.java:76-100 | non-actors are FORBIDDEN; an actor without a profile is ACTOR_PROFILE_NOT_FOUND; on success exactly one new work of the caller's is added; a failure changes nothing |
| Filmographies.FilmographyService.UpdateFilmography | src/main/java/restapi/kculturebackend/domain/actor/service/FilmographyService.java:105-133 | succeeds exactly when the caller owns the work, which then holds the new fields; a failure carries the lookup's error and leaves the work unchanged |
| Filmographies.FilmographyService.DeleteFilmography | src/main/java/restapi/kculturebackend/domain/actor/service/FilmographyService.java:138-152 | succeeds exactly when the caller owns the work, which is then the only one removed; a failure changes nothing |
| Filmographies.OwnerSeesOwnWork | src/main/java/restapi/kculturebackend/domain/actor/service/FilmographyService.java:64-115 | a caller allowed to write a work is an actor whose own listing contains it |
| Jobs.StatusFromDisplayName | src/main/java/restapi/kculturebackend/domain/job/entity/JobStatus.java:25-33 | the status with exactly that display name; an exception (here no result) exactly when no status has it |
| Jobs.StatusRoundTrip | src/main/java/restapi/kculturebackend/domain/job/entity/JobStatus.java:20-33 | every status is found by the display name the API writes |
| Jobs.CategoryFromDisplayName | src/main/java/restapi/kculturebackend/domain/job/entity/JobCategory.java:29-37 | the category with exactly that display name; an exception (here no result) exactly when no category has it |
| Jobs.CategoryNamesDistinct | src/main/java/restapi/kculturebackend/domain/job/entity/JobCategory.java:15-20 | no two categories share a display name |
| Jobs.CategoryRoundTrip | src/main/java/restapi/kculturebackend/domain/job/entity/JobCategory.java:24-37 | every category is found by the display name the API writes |
| Jobs.EnglishNamesRejected | src/main/java/restapi/kculturebackend/domain/job/entity/JobCategory.java:29-37 | identifiers such as SHORT_FILM, OTHER and RECRUITING are not display names and are rejected |
| Jobs.Job.constructor | src/main/java/restapi/kculturebackend/domain/job/entity/Job.java:69-76 | a new posting holds the given content, status RECRUITING and no views |
| Jobs.Job.IncrementViews | src/main/java/restapi/kculturebackend/domain/job/entity/Job.java:85-87 | only the view count changes, by one with Java int wrap-around; below the int maximum it grows by exactly one |
| Jobs.Job.Update | src/main/java/restapi/kculturebackend/domain/job/entity/Job.java:90-107 | the thirteen content fields are overwritten; id, poster, status and views stay |
| Jobs.Job.Close | src/main/java/restapi/kculturebackend/domain/job/entity/Job.java:110-112 | the status becomes CLOSED and nothing else changes |
| Jobs.ViewsAddUp | src/main/java/restapi/kculturebackend/domain/job/entity/Job.java:85-87 | n views of a posting below the int maximum add exactly n |
| Jobs.StatusFilter | src/main/java/restapi/kculturebackend/domain/job/service/JobService.java:35-38 | no filter for a missing status or "all" in any case; RECRUITING exactly for "모집중"; CLOSED for any other text |
| Jobs.StatusFilterMatchesDisplayNames | src/main/java/restapi/kculturebackend/domain/job/service/JobService.java:35-38 | each status's own display name selects that status |
| Jobs.JobService.OwnJob | src/main/java/restapi/kculturebackend/domain/job/service/JobService.java:86-92 | the posting is found exactly when the caller posted it; otherwise FORBIDDEN when it exists and JOB_NOT_FOUND when it does not |
| Jobs.JobService.GetJob | src/main/java/restapi/kculturebackend/domain/job/service/JobService.java:45-55 | JOB_NOT_FOUND for an unknown id; otherwise only that posting's view count goes up by one and the answer shows the new count |
| Jobs.JobService.CreateJob | src/main/java/restapi/kculturebackend/domain/job/service/JobService.java:58-81 | exactly one new posting by the caller, with the request's content, a missing isPumasi read as false, status RECRUITING and no views |
| Jobs.JobService.UpdateJob | src/main/java/restapi/kculturebackend/domain/job/service/JobService.java:84-114 | only the caller's own posting has its content replaced; a failure carries the lookup's error and changes nothing |
| Jobs.JobService.DeleteJob | src/main/java/restapi/kculturebackend/domain/job/service/JobService.java:117-129 | succeeds exactly when the caller posted it, and then only that posting is removed; a failure changes nothing |
| Projects.TypeNamesDistinct | src/main/java/restapi/kculturebackend/domain/project/service/ProjectService.java:44 | no two project types share an identifier, so the type filter's string names one type |
| Projects.StatusNamesDistinct | src/main/java/restapi/kculturebackend/domain/project/service/ProjectService.java:45 | no two project statuses share an identifier, so the status filter's string names one status |
| Projects.Project.Create | src/main/java/restapi/kculturebackend/domain/project/entity/Project.java:100-118 | the new project belongs to the given agency, holds the content as given and has status PLANNING (builder default, line 50) |
| Projects.Project.Update | src/main/java/restapi/kculturebackend/domain/project/entity/Project.java:80-95 | the content fields and the status are overwritten; id and agency stay |
| Projects.StoredCharacter | src/main/java/restapi/kculturebackend/domain/project/entity/Character.java:96 | what is stored is the request, except that a null keyword list becomes empty |
| Projects.Character.Create | src/main/java/restapi/kculturebackend/domain/project/entity/Character.java:87-99 | the new character belongs to the given project, holds the request with null keywords as empty, and is not yet cast (line 61) |
| Projects.Character.Update | src/main/java/restapi/kculturebackend/domain/project/entity/Character.java:66-75 | the seven fields are overwritten, null keywords as empty; the project and the casting flag stay |
| Projects.Character.CompleteCasting | src/main/java/restapi/kculturebackend/domain/project/entity/Character.java:80-82 | the character is marked cast and its content does not change; doing it twice is doing it once |
| Projects.TypeFilter | src/main/java/restapi/kculturebackend/domain/project/service/ProjectService.java:44 | a type filter is passed exactly when a type is given, as that type's identifier |
| Projects.StatusFilter | src/main/java/restapi/kculturebackend/domain/project/service/ProjectService.java:45 | a status filter is passed exactly when a status is given, as that status's identifier |
| Projects.SearchByEnumsIsExact | src/main/java/restapi/kculturebackend/domain/project/repository/ProjectRepository.java:49-57 | searching by the converted names admits exactly the projects of the requested type and status |
| Projects.ProjectService.GetProjects | src/main/java/restapi/kculturebackend/domain/project/service/ProjectService.java:42-48 | exactly the projects the search admits: the name as a case-insensitive substring, the type and status by identifier, a missing filter admitting all |
| Projects.ProjectService.GetCastingProjects | src/main/java/restapi/kculturebackend/domain/project/repository/ProjectRepository.java:43-44 | exactly the projects whose status is CASTING |
| Projects.CastingListingIsStatusSearch | src/main/java/restapi/kculturebackend/domain/project/service/ProjectService.java:43-57 | the casting listing is the search with only the status filter set to CASTING |
| Projects.ProjectService.GetProject | src/main/java/restapi/kculturebackend/domain/project/service/ProjectService.java:62-68 | PROJECT_NOT_FOUND exactly for an unknown id, otherwise that project's content and status |
| Projects.ProjectService.ProjectsOf | src/main/java/restapi/kculturebackend/domain/project/repository/ProjectRepository.java:25-26 | exactly the projects whose agency is the given one |
| Projects.ProjectService.GetMyProjects | src/main/java/restapi/kculturebackend/domain/project/service/ProjectService.java:73-80 | FORBIDDEN exactly for non-agencies; otherwise the caller's projects |
| Projects.ProjectService.OwnProject | src/main/java/restapi/kculturebackend/domain/project/service/ProjectService.java:118-126 | the project is found exactly when the caller is an agency that owns it; otherwise PROJECT_NOT_FOUND for an agency and a missing id, FORBIDDEN in every other case |
| Projects.ProjectService.CreateProject | src/main/java/restapi/kculturebackend/domain/project/service/ProjectService.java:85-111 | non-agencies are FORBIDDEN; an agency without a profile is AGENCY_PROFILE_NOT_FOUND; on success exactly one new project of the caller's, in status PLANNING; a failure changes nothing |
| Projects.ProjectService.UpdateProject | src/main/java/restapi/kculturebackend/domain/project/service/ProjectService.java:116-147 | succeeds exactly when the caller owns the project, which then holds the new content and status; a failure carries the lookup's error and changes nothing |
| Projects.ProjectService.DeleteProject | src/main/java/restapi/kculturebackend/domain/project/service/ProjectService.java:152-166 | succeeds exactly when the caller owns the project, which is then removed with exactly its characters (the cascade at Project.java:73); a failure changes nothing |
| Projects.CharacterService.CharactersOf | src/main/java/restapi/kculturebackend/domain/project/repository/CharacterRepository.java:22-23 | exactly the characters of the given project |
| Projects.CharacterService.GetCharactersByProject | src/main/java/restapi/kculturebackend/domain/project/service/CharacterService.java:38-48 | PROJECT_NOT_FOUND exactly for an unknown project, otherwise all its characters |
| Projects.CharacterService.GetOpenCastings | src/main/java/restapi/kculturebackend/domain/project/service/CharacterService.java:53-62 | PROJECT_NOT_FOUND exactly for an unknown project, otherwise exactly its characters not yet cast |
| Projects.CharacterService.GetCharacter | src/main/java/restapi/kculturebackend/domain/project/service/CharacterService.java:67-73 | CHARACTER_NOT_FOUND exactly for an unknown id, otherwise that character's content |
| Projects.CharacterService.OwnCharacter | src/main/java/restapi/kculturebackend/domain/project/service/CharacterService.java:112-120 | the character is found exactly when the caller is an agency that owns its project; otherwise CHARACTER_NOT_FOUND for an agency and a missing id, FORBIDDEN in every other case |
| Projects.CharacterService.CreateCharacter | src/main/java/restapi/kculturebackend/domain/project/service/CharacterService.java:78-105 | non-agencies are FORBIDDEN; an unknown project is PROJECT_NOT_FOUND; another agency's project is FORBIDDEN; on success exactly one new, not yet cast character of that project; a failure changes nothing |
| Projects.CharacterService.UpdateCharacter | src/main/java/restapi/kculturebackend/domain/project/service/CharacterService.java:110-136 | succeeds exactly when the caller owns the character's project; then the content is replaced and the casting flag kept; a failure carries the lookup's error and changes nothing |
| Projects.CharacterService.DeleteCharacter | src/main/java/restapi/kculturebackend/domain/project/service/CharacterService.java:141-155 | succeeds exactly when the caller owns the character's project, and then only that character is removed; a failure changes nothing |
| Projects.ProjectOwnerOwnsCharacters | src/main/java/restapi/kculturebackend/domain/project/service/CharacterService.java:117-120 | the character ownership check agrees with the ownership check of the character's project |
| Showreels.TwoDigits | src/main/java/restapi/kculturebackend/domain/actor/dto/ShowreelResponse.java:65 | "%02d" of a number below 100 is two decimal digits whose value is that number |
| Showreels.FormatDuration | src/main/java/restapi/kculturebackend/domain/actor/dto/ShowreelResponse.java:59-66 | no text exactly for a missing or non-positive length; otherwise text of at least four characters with the colon before the last two |
| Showreels.ParseDuration | src/main/java/restapi/kculturebackend/domain/actor/dto/ShowreelResponse.java:59-66 | the reading side of the m:ss format: a parsed length is never negative |
| Showreels.FormatDurationRoundTrip | src/main/java/restapi/kculturebackend/domain/actor/dto/ShowreelResponse.java:59-66 | a formatted positive length reads back as exactly the seconds it was made from |
| Showreels.FormatDurationInjective | src/main/java/restapi/kculturebackend/domain/actor/dto/ShowreelResponse.java:59-66 | different positive lengths are never formatted alike |
| Showreels.FormatDurationExample | src/main/java/restapi/kculturebackend/domain/actor/dto/ShowreelResponse.java:59-66 | 125 seconds is "2:05", and 0 seconds has no text |
| Showreels.Stored | src/main/java/restapi/kculturebackend/domain/actor/entity/Showreel.java:99 | the content is stored as given, except that a null tag list becomes empty |
| Showreels.Showreel.Create | src/main/java/restapi/kculturebackend/domain/actor/entity/Showreel.java:87-101 | the new reel belongs to the given actor, holds the content with null tags as empty, and has no views (line 60) |
| Showreels.Showreel.Update | src/main/java/restapi/kculturebackend/domain/actor/entity/Showreel.java:65-75 | the content is overwritten, null tags as empty; the view count stays |
| Showreels.Showreel.IncrementViewCount | src/main/java/restapi/kculturebackend/domain/actor/entity/Showreel.java:80-82 | the view count goes up by one with Java long wrap-around, and by exactly one below the long maximum; the content stays |
| Showreels.ResponseOf | src/main/java/restapi/kculturebackend/domain/actor/dto/ShowreelResponse.java:37-57 | the response names the actor by stage name, else account name, shows the content and the view count, and the duration formatted as m:ss |
| Showreels.ShowreelService.ReelsOf | src/main/java/restapi/kculturebackend/domain/actor/service/ShowreelService.java:41-50 | exactly the reels of the given actor |
| Showreels.ShowreelService.GetShowreelsByActor | src/main/java/restapi/kculturebackend/domain/actor/service/ShowreelService.java:41-50 | ACTOR_PROFILE_NOT_FOUND exactly when the actor has no profile, otherwise all of the actor's reels |
| Showreels.ShowreelService.GetMyShowreels | src/main/java/restapi/kculturebackend/domain/actor/service/ShowreelService.java:70-77 | FORBIDDEN exactly for non-actors; otherwise the caller's reels, without a profile check |
| Showreels.ShowreelService.OwnReel | src/main/java/restapi/kculturebackend/domain/actor/service/ShowreelService.java:120-128 | the reel is found exactly when the caller is an actor who owns it; otherwise SHOWREEL_NOT_FOUND for an actor and a missing id, FORBIDDEN in every other case |
| Showreels.ShowreelService.GetShowreel | src/main/java/restapi/kculturebackend/domain/actor/service/ShowreelService.java:55-65 | SHOWREEL_NOT_FOUND for an unknown id; otherwise the view count goes up by one, the content stays, and the answer shows the new count |
| Showreels.ShowreelService.CreateShowreel | src/main/java/restapi/kculturebackend/domain/actor/service/ShowreelService.java:90-114 | non-actors are FORBIDDEN; an actor without a profile is ACTOR_PROFILE_NOT_FOUND; on success exactly one new reel of the caller's, with no views; a failure changes nothing |
| Showreels.ShowreelService.UpdateShowreel | src/main/java/restapi/kculturebackend/domain/actor/service/ShowreelService.java:118-146 | succeeds exactly when the caller owns the reel, which then holds the new content and keeps its views; a failure carries the lookup's error and changes nothing |
| Showreels.ShowreelService.DeleteShowreel | src/main/java/restapi/kculturebackend/domain/actor/service/ShowreelService.java:150-164 | succeeds exactly when the caller owns the reel, which is then the only one removed; a failure changes nothing |
| Notices.Notice.constructor | src/main/java/restapi/kculturebackend/domain/notice/entity/Notice.java:38-40 | a new notice holds the given type, title and content, and no views |
| Notices.Notice.IncrementViews | src/main/java/restapi/kculturebackend/domain/notice/entity/Notice.java:45-47 | the view count goes up by one with Java int wrap-around, and by exactly one below the int maximum |
| Notices.ViewsAddUp | src/main/java/restapi/kculturebackend/domain/notice/entity/Notice.java:45-47 | n readings below the int maximum add exactly n views |
| Notices.NoticeService.GetNotices | src/main/java/restapi/kculturebackend/domain/notice/service/NoticeService.java:38-49 | every notice, or exactly those of the given type |
| Notices.NoticeService.GetNotice | src/main/java/restapi/kculturebackend/domain/notice/service/NoticeService.java:52-62 | NOTICE_NOT_FOUND for an unknown id; otherwise the views go up by one and the answer shows the notice with the new count |
| Notices.NoticeService.MarkAsRead | src/main/java/restapi/kculturebackend/domain/notice/service/NoticeService.java:65-80 | NOTICE_NOT_FOUND first, then USER_NOT_FOUND, and a failure records nothing; success exactly when both exist, and the pair is then recorded once however often it is marked |
| Notices.NoticeService.GetReadNoticeIds | src/main/java/restapi/kculturebackend/domain/notice/service/NoticeService.java:83-86 | exactly the notices the user has a read record for |
| Notices.NoticeService.IsRead | src/main/java/restapi/kculturebackend/domain/notice/service/NoticeService.java:89-99 | false when the notice or the user is missing; otherwise true exactly when the notice is among the user's read notices |
| Notifications.Notification.Create | src/main/java/restapi/kculturebackend/domain/notification/entity/Notification.java:56-64 | the new notification holds the addressee and the arguments as given and is unread (line 45) |
| Notifications.Notification.MarkAsRead | src/main/java/restapi/kculturebackend/domain/notification/entity/Notification.java:51-53 | the notification is read afterwards |
| Notifications.NotificationService.UnreadOf | src/main/java/restapi/kculturebackend/domain/notification/repository/NotificationRepository.java:38 | exactly the user's notifications that are unread |
| Notifications.NotificationService.GetNotifications | src/main/java/restapi/kculturebackend/domain/notification/service/NotificationService.java:32-45 | the caller's notifications filtered by the read flag when one is given, else by the type when one is given, else all of them; the two filters never combine |
| Notifications.NotificationService.GetUnreadCount | src/main/java/restapi/kculturebackend/domain/notification/service/NotificationService.java:50-53 | the number of the caller's unread notifications, and 0 exactly when the unread listing is empty |
| Notifications.NotificationService.MarkAsRead | src/main/java/restapi/kculturebackend/domain/notification/service/NotificationService.java:58-67 | succeeds exactly for the caller's own notification, which is then read; another user's and a missing one are both NOTIFICATION_NOT_FOUND and change nothing |
| Notifications.NotificationService.MarkAllAsRead | src/main/java/restapi/kculturebackend/domain/notification/repository/NotificationRepository.java:49-51 | every unread notification of the caller becomes read, the count is how many there were, no read notification becomes unread, and other users' notifications are untouched |
| Notifications.NotificationService.CreateNotification | src/main/java/restapi/kculturebackend/domain/notification/service/NotificationService.java:82-86 | exactly one new, unread notification for the user, holding the arguments as given |
| Storage.IsAllowedMimeType | src/main/java/restapi/kculturebackend/infrastructure/storage/FileType.java:23-31 | a MIME type is allowed exactly when it is present and equals one of the type's listed MIME types ignoring case |
| Storage.PathsWellFormed | src/main/java/restapi/kculturebackend/infrastructure/storage/FileType.java:12-15 | every folder is a non-empty name ending in "/", and no two file types share a folder |
| Storage.ImageTypesAgree | src/main/java/restapi/kculturebackend/infrastructure/storage/FileType.java:12-13 | profile images and thumbnails accept exactly the same MIME types |
| Storage.VideoTypesAreNotImages | src/main/java/restapi/kculturebackend/infrastructure/storage/FileType.java:12-15 | no MIME type is accepted both as a showreel video and as a profile image or a portfolio file |
| Storage.ValidateFile | src/main/java/restapi/kculturebackend/infrastructure/storage/LocalFileStorageService.java:122-132 | FILE_UPLOAD_FAILED exactly for a missing or empty file; otherwise success exactly when the type allows the MIME type, and INVALID_FILE_TYPE when it does not |
| Storage.GetExtension | src/main/java/restapi/kculturebackend/infrastructure/storage/LocalFileStorageService.java:137-140 | empty exactly when no '.' appears after the first character; otherwise a proper suffix of the name that starts at its last '.' |
| Storage.GetExtensionExamples | src/main/java/restapi/kculturebackend/infrastructure/storage/LocalFileStorageService.java:137-140 | "a.tar.gz" gives ".gz"; a leading-dot name and a name without a dot give "" |
| Storage.KeyOf | src/main/java/restapi/kculturebackend/infrastructure/storage/LocalFileStorageService.java:71 | the key is the type's folder followed by the generated name and the original extension |
| Storage.UrlOf | src/main/java/restapi/kculturebackend/infrastructure/storage/LocalFileStorageService.java:70 | the URL is the base URL, a "/", and then exactly the key |
| Storage.Upload | src/main/java/restapi/kculturebackend/infrastructure/storage/LocalFileStorageService.java:45-85 | validation runs first and its error is passed on; success exactly when the file is valid and the write succeeds, and then the result carries the key, URL, original name, size and MIME type, and the key is added to the stored files; a failure stores nothing |
| Storage.ResolveAsWritten | src/main/java/restapi/kculturebackend/infrastructure/storage/LocalFileStorageService.java:89-94 | as written: null or a URL not starting with the base URL is ignored; the base URL itself throws; any other URL drops the base and one more character, whatever that character is |
| Storage.EscapingUrlsAccepted | src/main/java/restapi/kculturebackend/infrastructure/storage/LocalFileStorageService.java:89-94 | as written, a URL that continues the base URL without "/", one with "//" after it and one with "/.." after it all resolve, to an absolute path or a parent step; the base URL itself throws |
| Storage.Resolve | src/main/java/restapi/kculturebackend/infrastructure/storage/LocalFileStorageService.java:89-94 | corrected: a URL resolves exactly when it starts with the base URL and "/" and the rest is a safe key (not empty, not absolute, no ".."); the URL is then the URL of that key |
| Storage.EscapingUrlsRejected | src/main/java/restapi/kculturebackend/infrastructure/storage/LocalFileStorageService.java:89-95 | corrected: every URL the written check lets out of the upload root, and the base URL itself, is rejected |
| Storage.ResolveInverse | src/main/java/restapi/kculturebackend/infrastructure/storage/LocalFileStorageService.java:70-71 | a URL resolves to a key exactly when it is the URL upload gives that key and the key is safe |
| Storage.ResolveAgreesOnWellFormedUrls | src/main/java/restapi/kculturebackend/infrastructure/storage/LocalFileStorageService.java:89-94 | on every URL the corrected check accepts, the code as written resolves the same key |
| Storage.Exists | src/main/java/restapi/kculturebackend/infrastructure/storage/LocalFileStorageService.java:109-117 | true exactly when the URL is the URL of a stored safe key |
| Storage.Delete | src/main/java/restapi/kculturebackend/infrastructure/storage/LocalFileStorageService.java:88-106 | only the key the URL names is removed, an unknown URL changes nothing, and the URL no longer exists afterwards |
| Storage.GeneratedKeyIsSafe | src/main/java/restapi/kculturebackend/infrastructure/storage/LocalFileStorageService.java:52-71 | a key made of a type's folder, a UUID text and the original extension is safe |
| Storage.UploadedFileExists | src/main/java/restapi/kculturebackend/infrastructure/storage/LocalFileStorageService.java:70-71 | the URL a successful upload under a UUID name returns exists afterwards and resolves back to the returned key |
| Storage.MapImageType | src/main/java/restapi/kculturebackend/infrastructure/storage/UploadController.java:83-91 | the lower-cased keyword picks profile, thumbnail or portfolio; anything else is INVALID_FILE_TYPE; an image upload never picks the showreel folder |
| Storage.MapImageTypeRoundTrip | src/main/java/restapi/kculturebackend/infrastructure/storage/UploadController.java:83-91 | every image keyword, in lower or upper case, maps to its type |
| Storage.UploadImage | src/main/java/restapi/kculturebackend/infrastructure/storage/UploadController.java:33-51 | a bad keyword is INVALID_FILE_TYPE before the file is looked at; otherwise the upload's outcome and stored files, with the response showing its URL, name, size and MIME type |
| Storage.UploadVideo | src/main/java/restapi/kculturebackend/infrastructure/storage/UploadController.java:56-80 | any keyword but "showreel" in some case is INVALID_FILE_TYPE before the file is looked at; otherwise the upload into the showreel folder, with no thumbnail URL and no duration |
| JavaLang.IntIncrement | src/main/java/restapi/kculturebackend/domain/job/entity/Job.java:86-88 | `views++` on an Integer: the result is one more modulo 2^32 and stays an int, and exactly one more below the int maximum |
| JavaLang.LongIncrement | src/main/java/restapi/kculturebackend/domain/actor/entity/Showreel.java:80-82 | `viewCount++` on a Long: one more modulo 2^64, and exactly one more below the long maximum |
| JavaLang.IntIncrementTimesAdds | src/main/java/restapi/kculturebackend/domain/notice/entity/Notice.java:45-47 | below the wrap point, n increments of an int add exactly n |
| JavaLang.LongIncrementTimesAdds | src/main/java/restapi/kculturebackend/domain/actor/entity/Showreel.java:80-82 | below the wrap point, n increments of a long add exactly n |
| JavaLang.IntIncrementWraps | src/main/java/restapi/kculturebackend/domain/job/entity/Job.java:86-88 | one more view at the int maximum wraps to the int minimum |
| JavaLang.ToUpperCase | src/main/java/restapi/kculturebackend/config/StringToFavoriteTypeConverter.java:20 | upper-casing keeps the length |
| JavaLang.ToLowerCase | src/main/java/restapi/kculturebackend/infrastructure/storage/UploadController.java:84 | lower-casing keeps the length |
| JavaLang.LastIndexOf | src/main/java/restapi/kculturebackend/infrastructure/storage/LocalFileStorageService.java:138 | the last position holding the character, or -1 when none does |
| JavaLang.DecimalString | src/main/java/restapi/kculturebackend/domain/actor/dto/ShowreelResponse.java:65 | "%d" of a non-negative number is a non-empty digit string without a leading zero |
| JavaLang.DecimalRoundTrip | src/main/java/restapi/kculturebackend/domain/actor/dto/ShowreelResponse.java:65 | the digits "%d" prints read back as the number |
| JavaLang.FirstWithKey | src/main/java/restapi/kculturebackend/domain/job/entity/JobStatus.java:26-33 | the `values()` loop comparing with `equals`: a found value has the key, and nothing is found exactly when no value has it |
| JavaLang.FirstWithKeyIgnoringCase | src/main/java/restapi/kculturebackend/domain/favorite/entity/FavoriteType.java:27-34 | the same loop comparing with `equalsIgnoreCase` |
| JavaLang.FirstWithKeyFinds | src/main/java/restapi/kculturebackend/domain/job/entity/JobCategory.java:30-35 | a value whose key no earlier value shares is found by its own key |
| JavaLang.FirstWithKeyIgnoringCaseFinds | src/main/java/restapi/kculturebackend/domain/favorite/entity/FavoriteType.java:27-34 | the same for the case-insensitive loop, given no earlier key matches |
| RefreshTokens.HoldersMatchRecords | src/main/java/restapi/kculturebackend/domain/auth/entity/RefreshToken.java:22-26 | in a consistent store the secondary token index lists exactly the user ids whose record holds the token |
| Dashboard.WeightsTotal100 | src/main/java/restapi/kculturebackend/domain/dashboard/service/DashboardService.java:199-206 | the eight completeness weights add up to 100 |

## Left out

- JWT signing and validation and BCrypt are fixed functions of `Auth.AuthService` (`tokenValid`, `emailInToken`, `encode`, `matches`). Spring's `AuthenticationManager` is modelled as `Auth.AuthService.Authenticates`: the DAO provider's lookup by email in the user store, the `isEnabled` check and `matches` on the stored hash. The user-details service and Spring's other account checks (locked, expired) are not part of this model. Issued tokens and database-assigned ids are parameters. `JwtTokenProvider` is not part of this model.
- Redis TTL eviction is not modelled. The 604800-second TTL is stored in each record, and no clock removes it.
- The refresh-token store's atomicity and concurrent refresh calls are not modelled. `deleteByToken` followed by `save` is modelled as two sequential steps.
- RefreshTokens.Rotate: its ensures states only that the store stays consistent. What rotation does to lookups is stated by `RotationRejectsReplay`, `ReissuedTokenStaysValid` and `SavedRecordIsFound`.
- Auth.AuthService.Refresh: the token `createRefreshToken(email)` issues depends only on the email and the second. A same-second reissue can equal the presented token. `ReissuedTokenStaysValid` shows that the token then stays valid. Token freshness is a hypothesis of `RotationRejectsReplay`, not a property of the code.
- Auth.AuthService.Signup and Auth.AuthService.ResetPassword: the source throws `ValidationException` and `ConflictException` through constructors that the exception classes do not declare. They are modelled with the error codes their arguments name, INVALID_TOKEN and EMAIL_ALREADY_EXISTS, and with VALIDATION_ERROR where no code is given.
- Auth.AuthService.Refresh: should two records ever hold the presented token, Spring Data's `findByToken` throws for the non-unique result. The model answers an internal error. `UniqueTokensNeverAmbiguous` shows that this cannot happen while tokens are unique.
- Auth.AuthService.Signup: `email.split("@")[0]` throws for a non-empty email made only of '@'. It is modelled as an internal error.
- `NotFoundException("사용자")` and the other not-found exceptions without an error code are modelled as RESOURCE_NOT_FOUND.
- UserProfiles.UserService.ChangePassword: INVALID_PASSWORD and SAME_PASSWORD are used by the service but are not in `ErrorCode.java`. They are extra failure kinds with no HTTP status of their own.
- `ActorService.updateProfileImage` is not modelled. It calls `User.updateProfileImage`, which `User.java` does not declare.
- Actors.ActorService.CreateProfile reads birth year, height, weight and skills from the request, as the service does. `CreateActorProfileRequest` as shown does not declare those getters.
- Actors.ActorService.CreateProfile: a null age group makes the `switch` in `estimateBirthYear` throw. The age group is modelled as always present.
- The display-name parsers take a non-null string, so a null name is not modelled. In the source, `JobStatus` and `JobCategory` reject null like any unknown name, and `ActorCategory` and `Gender` answer null for it. `FilmographyType` and `RoleType` throw a NullPointerException in their `valueOf` fallback. `FavoriteType.fromCode` and the converter model null explicitly.
- Java `null` for Boolean flags and nullable columns is modelled with `Option`, or with the default the entity applies. A null list is treated as empty, as the entities' `updateProfile` does.
- Jobs.JobService.UpdateJob: a null `isPumasi` in an update request is stored by `Job.update` and then refused by the not-null column at flush. The model takes a non-null flag.
- Case mapping (`toUpperCase`, `toLowerCase`, `equalsIgnoreCase`) is modelled for ASCII letters only. Other characters are left unchanged.
- JPQL, Criteria and native queries become set filters over the repositories. Actor search, `getActors`, `getActorDetail`, `getMyProfile` on actors, `JobService.getJobs`' repository search (only its status mapping is modelled), the project search's keyword matching and the count queries are not modelled further. Projects.SearchMatches reads the name literally, while the query's `ILIKE '%' || name || '%'` treats '%', '_' and '\' in the name as pattern characters (so "_" admits every non-empty project name).
- Page order, page size and sorting are not modelled. This covers `recommendActors`' page of candidates, popular showreels, open castings, notices, notifications and favorites. Listings are sets of ids.
- `DashboardService.getActorStats` and `getAgencyStats` are not modelled. They only combine count queries whose meaning lives in the database.
- `LocalDate` and `LocalDateTime` values are whole numbers (a day or a second). `Year.now()` and `LocalDateTime.now()` are parameters.
- `ActorSummaryResponse` is reduced to the actor's id. Its source reads fields that `ActorProfile.java` does not have.
- Notices: `NoticeRead` rows are a set of (user id, notice id) pairs, because the unique constraint on the pair makes them a set.
- Storage: file-system I/O (`Files.copy`, `createDirectories`, `deleteIfExists`) is modelled as a set of stored paths. `StringUtils.cleanPath` and `Path.resolve` normalisation are not modelled: the path is the upload root joined with the key.
- Storage.Exists and Storage.Delete use the corrected URL check `Storage.Resolve`. The check as written is `Storage.ResolveAsWritten`, described under Findings.
- Storage: a null original filename and the `IOException` paths of the upload are not modelled. The generated file name (from `UUID.randomUUID`) is a parameter; `Storage.UploadedFileExists` takes it to be UUID text.
- Storage.UploadImage and Storage.UploadVideo: the authenticated user passed to the handlers is unused by the source and is not a parameter.
- The converter's exception is modelled as the value `Invalid`. The controller-level translation of that exception into an HTTP answer is not modelled.
- HTTP controllers, security configuration, `GlobalExceptionHandler`, the DTO mappers other than `ShowreelResponse`, bean validation on request DTOs, and logging are not modelled.

## Findings

| source | as written | input that shows it | evidently intended | confidence | as-written member | corrected member |
|---|---|---|---|---|---|---|
| src/main/java/restapi/kculturebackend/domain/user/service/UserService.java:107-131 | when the profile has no notification settings, `updateNotificationSettings` creates default settings and updates them, but neither saves them through any repository nor assigns them to the profile. The only save is of the profile, whose `notificationSettings` link is still null, so its cascade never reaches the new object and the settings are lost; the profile keeps reporting the defaults. | a user whose profile has null `notificationSettings` sends an update with casting alerts off; a later `getNotificationSettings` still reports casting alerts on | the new settings are attached to the profile, and the next read returns what was written | not executed | UserProfiles.UserService.UpdateNotificationSettings | UserProfiles.UserService.UpdateNotificationSettingsAttached |
| src/main/java/restapi/kculturebackend/infrastructure/storage/LocalFileStorageService.java:89-94 | `delete` and `exists` accept any URL that starts with `baseUrl` and drop `baseUrl.length()+1` characters. Nothing checks that a '/' follows `baseUrl` or that the remainder stays under the upload root before it is resolved. | with `baseUrl` = "/uploads", the URLs "/uploadsX/etc/passwd" and "/uploads//etc/passwd" give the key "/etc/passwd", which `Path.resolve` takes as an absolute path outside the upload root, and "/uploads/../x" gives "../x"; the URL "/uploads" itself makes `substring` throw | only URLs of the form `baseUrl + "/" + key` with a relative key free of ".." are mapped to a key, and every other URL is refused | not executed | Storage.EscapingUrlsAccepted | Storage.Resolve |
