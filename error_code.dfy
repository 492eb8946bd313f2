/**
 * The error-code table: every error the API reports carries a stable code
 * string, a user-facing message and the HTTP status it is answered with.
 */
module ErrorCodes {
  import opened Common

  datatype ErrorCode =
    // authentication (AUTH_xxx)
    | Unauthorized | InvalidCredentials | InvalidToken | ExpiredToken | InvalidRefreshToken
    // users (USER_xxx)
    | UserNotFound | EmailAlreadyExists | PasswordMismatch | TermsNotAgreed | UserProfileNotFound
    // actors (ACTOR_xxx)
    | ActorNotFound | ActorProfileNotFound | FilmographyNotFound | ShowreelNotFound
    // projects (PROJECT_xxx)
    | ProjectNotFound | CharacterNotFound
    // agencies (AGENCY_xxx)
    | AgencyNotFound | AgencyProfileNotFound
    // job postings (JOB_xxx)
    | JobNotFound
    // favorites (FAVORITE_xxx)
    | FavoriteNotFound | FavoriteAlreadyExists
    // notices (NOTICE_xxx)
    | NoticeNotFound
    // notifications (NOTIFICATION_xxx)
    | NotificationNotFound
    // files (FILE_xxx)
    | FileUploadFailed | InvalidFileType | FileSizeExceeded | FileNotFound
    // common (COMMON_xxx)
    | ValidationError | Forbidden | ResourceNotFound | Conflict | InternalServerError

  /** The enum constant's Java name. */
  function Name(e: ErrorCode): string
  {
    match e
    case Unauthorized => "UNAUTHORIZED"
    case InvalidCredentials => "INVALID_CREDENTIALS"
    case InvalidToken => "INVALID_TOKEN"
    case ExpiredToken => "EXPIRED_TOKEN"
    case InvalidRefreshToken => "INVALID_REFRESH_TOKEN"
    case UserNotFound => "USER_NOT_FOUND"
    case EmailAlreadyExists => "EMAIL_ALREADY_EXISTS"
    case PasswordMismatch => "PASSWORD_MISMATCH"
    case TermsNotAgreed => "TERMS_NOT_AGREED"
    case UserProfileNotFound => "USER_PROFILE_NOT_FOUND"
    case ActorNotFound => "ACTOR_NOT_FOUND"
    case ActorProfileNotFound => "ACTOR_PROFILE_NOT_FOUND"
    case FilmographyNotFound => "FILMOGRAPHY_NOT_FOUND"
    case ShowreelNotFound => "SHOWREEL_NOT_FOUND"
    case ProjectNotFound => "PROJECT_NOT_FOUND"
    case CharacterNotFound => "CHARACTER_NOT_FOUND"
    case AgencyNotFound => "AGENCY_NOT_FOUND"
    case AgencyProfileNotFound => "AGENCY_PROFILE_NOT_FOUND"
    case JobNotFound => "JOB_NOT_FOUND"
    case FavoriteNotFound => "FAVORITE_NOT_FOUND"
    case FavoriteAlreadyExists => "FAVORITE_ALREADY_EXISTS"
    case NoticeNotFound => "NOTICE_NOT_FOUND"
    case NotificationNotFound => "NOTIFICATION_NOT_FOUND"
    case FileUploadFailed => "FILE_UPLOAD_FAILED"
    case InvalidFileType => "INVALID_FILE_TYPE"
    case FileSizeExceeded => "FILE_SIZE_EXCEEDED"
    case FileNotFound => "FILE_NOT_FOUND"
    case ValidationError => "VALIDATION_ERROR"
    case Forbidden => "FORBIDDEN"
    case ResourceNotFound => "RESOURCE_NOT_FOUND"
    case Conflict => "CONFLICT"
    case InternalServerError => "INTERNAL_SERVER_ERROR"
  }

  /** The area a code belongs to, which is also the prefix of its code string. */
  function Area(e: ErrorCode): string
  {
    match e
    case Unauthorized | InvalidCredentials | InvalidToken | ExpiredToken | InvalidRefreshToken => "AUTH"
    case UserNotFound | EmailAlreadyExists | PasswordMismatch | TermsNotAgreed | UserProfileNotFound => "USER"
    case ActorNotFound | ActorProfileNotFound | FilmographyNotFound | ShowreelNotFound => "ACTOR"
    case ProjectNotFound | CharacterNotFound => "PROJECT"
    case AgencyNotFound | AgencyProfileNotFound => "AGENCY"
    case JobNotFound => "JOB"
    case FavoriteNotFound | FavoriteAlreadyExists => "FAVORITE"
    case NoticeNotFound => "NOTICE"
    case NotificationNotFound => "NOTIFICATION"
    case FileUploadFailed | InvalidFileType | FileSizeExceeded | FileNotFound => "FILE"
    case ValidationError | Forbidden | ResourceNotFound | Conflict | InternalServerError => "COMMON"
  }

  /** The code string, e.g. "AUTH_001". */
  function Code(e: ErrorCode): string
  {
    match e
    case Unauthorized => "AUTH_001"
    case InvalidCredentials => "AUTH_002"
    case InvalidToken => "AUTH_003"
    case ExpiredToken => "AUTH_004"
    case InvalidRefreshToken => "AUTH_005"
    case UserNotFound => "USER_001"
    case EmailAlreadyExists => "USER_002"
    case PasswordMismatch => "USER_003"
    case TermsNotAgreed => "USER_004"
    case UserProfileNotFound => "USER_005"
    case ActorNotFound => "ACTOR_001"
    case ActorProfileNotFound => "ACTOR_002"
    case FilmographyNotFound => "ACTOR_003"
    case ShowreelNotFound => "ACTOR_004"
    case ProjectNotFound => "PROJECT_001"
    case CharacterNotFound => "PROJECT_002"
    case AgencyNotFound => "AGENCY_001"
    case AgencyProfileNotFound => "AGENCY_002"
    case JobNotFound => "JOB_001"
    case FavoriteNotFound => "FAVORITE_001"
    case FavoriteAlreadyExists => "FAVORITE_002"
    case NoticeNotFound => "NOTICE_001"
    case NotificationNotFound => "NOTIFICATION_001"
    case FileUploadFailed => "FILE_001"
    case InvalidFileType => "FILE_002"
    case FileSizeExceeded => "FILE_003"
    case FileNotFound => "FILE_004"
    case ValidationError => "COMMON_001"
    case Forbidden => "COMMON_002"
    case ResourceNotFound => "COMMON_003"
    case Conflict => "COMMON_004"
    case InternalServerError => "COMMON_999"
  }

  /** The user-facing message. */
  function Message(e: ErrorCode): string
  {
    match e
    case Unauthorized => "인증이 필요합니다."
    case InvalidCredentials => "이메일 또는 비밀번호가 올바르지 않습니다."
    case InvalidToken => "유효하지 않거나 만료된 토큰입니다."
    case ExpiredToken => "토큰이 만료되었습니다."
    case InvalidRefreshToken => "유효하지 않은 Refresh Token입니다."
    case UserNotFound => "사용자를 찾을 수 없습니다."
    case EmailAlreadyExists => "이미 사용 중인 이메일입니다."
    case PasswordMismatch => "비밀번호가 일치하지 않습니다."
    case TermsNotAgreed => "필수 약관에 동의해야 합니다."
    case UserProfileNotFound => "사용자 프로필을 찾을 수 없습니다."
    case ActorNotFound => "배우를 찾을 수 없습니다."
    case ActorProfileNotFound => "배우 프로필을 찾을 수 없습니다."
    case FilmographyNotFound => "필모그래피를 찾을 수 없습니다."
    case ShowreelNotFound => "쇼릴을 찾을 수 없습니다."
    case ProjectNotFound => "프로젝트를 찾을 수 없습니다."
    case CharacterNotFound => "캐릭터를 찾을 수 없습니다."
    case AgencyNotFound => "에이전시를 찾을 수 없습니다."
    case AgencyProfileNotFound => "에이전시 프로필을 찾을 수 없습니다."
    case JobNotFound => "작품구인을 찾을 수 없습니다."
    case FavoriteNotFound => "찜 항목을 찾을 수 없습니다."
    case FavoriteAlreadyExists => "이미 찜한 항목입니다."
    case NoticeNotFound => "공지사항을 찾을 수 없습니다."
    case NotificationNotFound => "알림을 찾을 수 없습니다."
    case FileUploadFailed => "파일 업로드에 실패했습니다."
    case InvalidFileType => "지원하지 않는 파일 형식입니다."
    case FileSizeExceeded => "파일 크기가 제한을 초과했습니다."
    case FileNotFound => "파일을 찾을 수 없습니다."
    case ValidationError => "입력값이 올바르지 않습니다."
    case Forbidden => "접근 권한이 없습니다."
    case ResourceNotFound => "요청한 리소스를 찾을 수 없습니다."
    case Conflict => "리소스 충돌이 발생했습니다."
    case InternalServerError => "서버 내부 오류가 발생했습니다."
  }

  /** The HTTP status the error is answered with. */
  function Status(e: ErrorCode): (s: int)
    ensures s in {400, 401, 403, 404, 409, 500}
  {
    match e
    case Unauthorized | InvalidCredentials | InvalidToken | ExpiredToken | InvalidRefreshToken => 401
    case UserNotFound => 404
    case EmailAlreadyExists => 409
    case PasswordMismatch | TermsNotAgreed => 400
    case UserProfileNotFound | ActorNotFound | ActorProfileNotFound | FilmographyNotFound
      | ShowreelNotFound | ProjectNotFound | CharacterNotFound | AgencyNotFound
      | AgencyProfileNotFound | JobNotFound | FavoriteNotFound => 404
    case FavoriteAlreadyExists => 409
    case NoticeNotFound | NotificationNotFound => 404
    case FileUploadFailed => 500
    case InvalidFileType | FileSizeExceeded => 400
    case FileNotFound => 404
    case ValidationError => 400
    case Forbidden => 403
    case ResourceNotFound => 404
    case Conflict => 409
    case InternalServerError => 500
  }

  predicate EndsWith(s: string, suffix: string)
  {
    |suffix| <= |s| && s[|s| - |suffix|..] == suffix
  }

  /**
   * Reads a code string back to its constant from three of its features: its
   * length, its first letter and its last digit. No two constants share all three.
   */
  function Identify(code: string): (r: Option<ErrorCode>)
  {
    if |code| == 0 then None
    else
      match (|code|, code[0], code[|code| - 1])
      case (8, 'A', '1') => Some(Unauthorized)
      case (8, 'A', '2') => Some(InvalidCredentials)
      case (8, 'A', '3') => Some(InvalidToken)
      case (8, 'A', '4') => Some(ExpiredToken)
      case (8, 'A', '5') => Some(InvalidRefreshToken)
      case (8, 'U', '1') => Some(UserNotFound)
      case (8, 'U', '2') => Some(EmailAlreadyExists)
      case (8, 'U', '3') => Some(PasswordMismatch)
      case (8, 'U', '4') => Some(TermsNotAgreed)
      case (8, 'U', '5') => Some(UserProfileNotFound)
      case (9, 'A', '1') => Some(ActorNotFound)
      case (9, 'A', '2') => Some(ActorProfileNotFound)
      case (9, 'A', '3') => Some(FilmographyNotFound)
      case (9, 'A', '4') => Some(ShowreelNotFound)
      case (11, 'P', '1') => Some(ProjectNotFound)
      case (11, 'P', '2') => Some(CharacterNotFound)
      case (10, 'A', '1') => Some(AgencyNotFound)
      case (10, 'A', '2') => Some(AgencyProfileNotFound)
      case (7, 'J', '1') => Some(JobNotFound)
      case (12, 'F', '1') => Some(FavoriteNotFound)
      case (12, 'F', '2') => Some(FavoriteAlreadyExists)
      case (10, 'N', '1') => Some(NoticeNotFound)
      case (16, 'N', '1') => Some(NotificationNotFound)
      case (8, 'F', '1') => Some(FileUploadFailed)
      case (8, 'F', '2') => Some(InvalidFileType)
      case (8, 'F', '3') => Some(FileSizeExceeded)
      case (8, 'F', '4') => Some(FileNotFound)
      case (10, 'C', '1') => Some(ValidationError)
      case (10, 'C', '2') => Some(Forbidden)
      case (10, 'C', '3') => Some(ResourceNotFound)
      case (10, 'C', '4') => Some(Conflict)
      case (10, 'C', '9') => Some(InternalServerError)
      case _ => None
  }

  /** Reading a constant's code string back finds that constant. */
  lemma CodeRoundTrip(e: ErrorCode)
    ensures Identify(Code(e)) == Some(e)
  {
  }

  /** The code strings are pairwise distinct. */
  lemma CodesDistinct(a: ErrorCode, b: ErrorCode)
    ensures Code(a) == Code(b) ==> a == b
  {
    CodeRoundTrip(a);
    CodeRoundTrip(b);
  }

  /** Every code string is the constant's area, an underscore and a three-digit number. */
  lemma CodeShape(e: ErrorCode)
    ensures |Code(e)| == |Area(e)| + 4
    ensures Code(e)[..|Area(e)|] == Area(e)
    ensures Code(e)[|Area(e)|] == '_'
  {
  }

  /** Every AUTH_xxx code is answered with 401. */
  lemma AuthCodesAreUnauthorized(e: ErrorCode)
    requires Area(e) == "AUTH"
    ensures Status(e) == 401
  {
  }

  /** Every *_NOT_FOUND constant is answered with 404. */
  lemma NotFoundCodesAre404(e: ErrorCode)
    requires EndsWith(Name(e), "_NOT_FOUND")
    ensures Status(e) == 404
  {
  }

  /** The three conflict constants, and only they, are answered with 409. */
  lemma ConflictCodesAre409(e: ErrorCode)
    ensures Status(e) == 409 <==> e in {EmailAlreadyExists, FavoriteAlreadyExists, Conflict}
  {
  }
}
