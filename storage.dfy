/**
 * File storage: the upload types with their folders and accepted MIME
 * types, the local storage service's validation, file naming and URL/key
 * composition, and the upload controller's type gates. The file system is
 * a set of stored keys; writing a file either succeeds or fails, and which
 * one is a parameter, as is the random file name.
 */
module Storage {
  import opened Common
  import opened ErrorCodes
  import opened JavaLang

  // ---------------------------------------------------------------------
  // FileType
  // ---------------------------------------------------------------------

  datatype FileType = ProfileImage | Thumbnail | ShowreelVideo | Portfolio

  /** The folder, relative to the upload root, that files of a type go to. */
  function Path(t: FileType): string
  {
    match t
    case ProfileImage => "profiles/"
    case Thumbnail => "thumbnails/"
    case ShowreelVideo => "showreels/"
    case Portfolio => "portfolios/"
  }

  function AllowedMimeTypes(t: FileType): seq<string>
  {
    match t
    case ProfileImage => ["image/jpeg", "image/png", "image/webp"]
    case Thumbnail => ["image/jpeg", "image/png", "image/webp"]
    case ShowreelVideo => ["video/mp4", "video/webm", "video/quicktime"]
    case Portfolio => ["application/pdf", "image/jpeg", "image/png"]
  }

  /** A type accepts a MIME type when one of its allowed types equals it ignoring case. */
  predicate Allows(t: FileType, mimeType: string)
  {
    exists m :: m in AllowedMimeTypes(t) && EqualsIgnoreCase(m, mimeType)
  }

  /**
   * `isAllowedMimeType`: null is never allowed; otherwise the allowed list
   * is searched in order for a case-insensitive match.
   */
  method IsAllowedMimeType(t: FileType, mimeType: Option<string>) returns (allowed: bool)
    ensures allowed <==> mimeType.Some? && Allows(t, mimeType.value)
  {
    if mimeType.None? {
      return false;
    }
    var list := AllowedMimeTypes(t);
    for i := 0 to |list|
      invariant forall j :: 0 <= j < i ==> !EqualsIgnoreCase(list[j], mimeType.value)
    {
      if EqualsIgnoreCase(list[i], mimeType.value) {
        return true;
      }
    }
    return false;
  }

  /** Every folder is a non-empty relative directory name ending in "/", and no two types share one. */
  lemma PathsWellFormed(t: FileType, u: FileType)
    ensures |Path(t)| > 0 && Path(t)[|Path(t)| - 1] == '/'
    ensures t != u ==> Path(t) != Path(u)
  {
    if t != u {
      assert Path(t)[0] != Path(u)[0] || Path(t)[1] != Path(u)[1];
    }
  }

  /** The two image types accept exactly the same MIME types. */
  lemma ImageTypesAgree(m: string)
    ensures Allows(ProfileImage, m) <==> Allows(Thumbnail, m)
  {
  }

  /** No MIME type is accepted both as a showreel video and as a profile image or a portfolio file. */
  lemma VideoTypesAreNotImages(m: string)
    ensures !(Allows(ShowreelVideo, m) && Allows(ProfileImage, m))
    ensures !(Allows(ShowreelVideo, m) && Allows(Portfolio, m))
  {
    forall a, b | a in AllowedMimeTypes(ShowreelVideo) && b in AllowedMimeTypes(Portfolio) + AllowedMimeTypes(ProfileImage)
      ensures ToUpperCase(a) != ToUpperCase(b)
    {
      assert ToUpperCase(a)[0] == UpperChar(a[0]) == 'V';
      assert ToUpperCase(b)[0] == UpperChar(b[0]) != 'V';
    }
  }

  // ---------------------------------------------------------------------
  // LocalFileStorageService: validation and naming
  // ---------------------------------------------------------------------

  /** A multipart upload: its cleaned original name, its size in bytes and its declared content type. */
  datatype UploadFile = UploadFile(originalFilename: string, size: nat, contentType: Option<string>)

  /**
   * `validateFile`: a missing or empty file is FILE_UPLOAD_FAILED; a content
   * type the folder does not accept is INVALID_FILE_TYPE.
   */
  function ValidateFile(file: Option<UploadFile>, t: FileType): (r: Result<(), ErrorCode>)
    ensures r.Failure? ==> r.error == FileUploadFailed || r.error == InvalidFileType
    ensures r == Failure(FileUploadFailed) <==> file.None? || file.value.size == 0
    ensures r.Success? <==> file.Some? && file.value.size > 0 && file.value.contentType.Some? &&
                            Allows(t, file.value.contentType.value)
  {
    if file.None? || file.value.size == 0 then Failure(FileUploadFailed)
    else if !(file.value.contentType.Some? && Allows(t, file.value.contentType.value)) then Failure(InvalidFileType)
    else Success(())
  }

  /**
   * `getExtension`: the suffix from the last '.', unless that dot is the
   * first character or there is none, in which case there is no extension.
   */
  function GetExtension(filename: string): (r: string)
    ensures r == "" <==> forall i :: 0 < i < |filename| ==> filename[i] != '.'
    ensures r != "" ==> |r| < |filename| && filename[|filename| - |r|..] == r
    ensures r != "" ==> r[0] == '.' && forall i :: 0 < i < |r| ==> r[i] != '.'
  {
    var dot := LastIndexOf(filename, '.');
    if dot > 0 then filename[dot..] else ""
  }

  /** Only the last dot counts, and a leading dot marks a hidden file, not an extension. */
  lemma GetExtensionExamples()
    ensures GetExtension("a.tar.gz") == ".gz"
    ensures GetExtension(".bashrc") == ""
    ensures GetExtension("photo") == ""
  {
    assert LastIndexOf("a.tar.gz", '.') == 5 by {
      assert "a.tar.gz"[5] == '.';
    }
    var e := GetExtension(".bashrc");
    assert forall i :: 0 < i < |".bashrc"| ==> ".bashrc"[i] != '.';
    var p := GetExtension("photo");
    assert forall i :: 0 < i < |"photo"| ==> "photo"[i] != '.';
  }

  /** `UploadResult`. */
  datatype UploadResult = UploadResult(url: string, key: string, filename: string, size: nat, mimeType: Option<string>)

  /** The key a stored file gets: the type's folder, then the generated name with the original extension. */
  function KeyOf(t: FileType, generatedName: string, originalFilename: string): (r: string)
    ensures StartsWith(r, Path(t))
    ensures r[|Path(t)|..] == generatedName + GetExtension(originalFilename)
  {
    var folder, name := Path(t), generatedName + GetExtension(originalFilename);
    var r := folder + name;
    assert r[..|folder|] == folder && r[|folder|..] == name;
    r
  }

  /** The public URL of a key: the base URL, a "/", then the key. */
  function UrlOf(baseUrl: string, key: string): (r: string)
    ensures StartsWith(r, baseUrl + "/") && r[|baseUrl| + 1..] == key
  {
    var r := baseUrl + "/" + key;
    assert r[..|baseUrl| + 1] == baseUrl + "/";
    r
  }

  /**
   * `upload`: validation first; then the file is written under its type's
   * folder with the generated name plus the original extension, and the
   * result carries its URL and key. A failed write is FILE_UPLOAD_FAILED.
   * Returns the result and the stored keys afterwards.
   */
  function Upload(files: set<string>, baseUrl: string, file: Option<UploadFile>, t: FileType,
                  generatedName: string, writeSucceeds: bool): (r: (Result<UploadResult, ErrorCode>, set<string>))
    ensures ValidateFile(file, t).Failure? ==> r.0 == Failure(ValidateFile(file, t).error)
    ensures r.0.Success? <==> ValidateFile(file, t).Success? && writeSucceeds
    ensures r.0.Failure? ==> r.1 == files && (r.0.error == FileUploadFailed || r.0.error == InvalidFileType)
    ensures r.0.Success? ==>
      var u := r.0.value;
      u.key == KeyOf(t, generatedName, file.value.originalFilename) &&
      u.url == UrlOf(baseUrl, u.key) &&
      u.filename == file.value.originalFilename && u.size == file.value.size &&
      u.mimeType == file.value.contentType &&
      r.1 == files + {u.key}
  {
    match ValidateFile(file, t)
    case Failure(e) => (Failure(e), files)
    case Success(_) =>
      if !writeSucceeds then (Failure(FileUploadFailed), files)
      else
        var name := file.value.originalFilename;
        var key := KeyOf(t, generatedName, name);
        (Success(UploadResult(UrlOf(baseUrl, key), key, name, file.value.size, file.value.contentType)),
         files + {key})
  }

  // ---------------------------------------------------------------------
  // LocalFileStorageService: from a URL back to a stored file
  // ---------------------------------------------------------------------

  /** What `delete` and `exists` make of a URL before touching the file system. */
  datatype Resolution = Rejected | Resolved(relativePath: string) | OutOfBounds

  /**
   * The guard and prefix stripping as written: a null URL or one not
   * starting with the base URL is rejected, and otherwise the first
   * `|baseUrl| + 1` characters are cut off. The cut is not checked against
   * a "/" separator, and a URL equal to the base URL makes the substring
   * call throw (OutOfBounds).
   */
  function ResolveAsWritten(baseUrl: string, url: Option<string>): (r: Resolution)
    ensures r == Rejected <==> url.None? || !StartsWith(url.value, baseUrl)
    ensures r == OutOfBounds <==> url == Some(baseUrl)
    ensures r.Resolved? ==> |url.value| > |baseUrl| && url.value == baseUrl + [url.value[|baseUrl|]] + r.relativePath
  {
    if url.None? || !StartsWith(url.value, baseUrl) then Rejected
    else if |url.value| == |baseUrl| then
      assert url.value == url.value[..|baseUrl|];
      OutOfBounds
    else
      var r := Resolved(url.value[|baseUrl| + 1..]);
      assert url.value == url.value[..|baseUrl|] + [url.value[|baseUrl|]] + url.value[|baseUrl| + 1..];
      r
  }

  /**
   * As written, whatever follows the base URL reaches `uploadPath.resolve`:
   * the character after the prefix is dropped whatever it is, so
   * "<base>X/etc/passwd" resolves to the absolute "/etc/passwd", so does
   * "<base>//etc/passwd", "<base>/../x" steps out of the upload root, and
   * the base URL itself throws instead of being rejected.
   */
  lemma EscapingUrlsAccepted(baseUrl: string)
    ensures ResolveAsWritten(baseUrl, Some(baseUrl + "X/etc/passwd")) == Resolved("/etc/passwd")
    ensures !StartsWith(baseUrl + "X/etc/passwd", baseUrl + "/")
    ensures ResolveAsWritten(baseUrl, Some(baseUrl + "//etc/passwd")) == Resolved("/etc/passwd")
    ensures ResolveAsWritten(baseUrl, Some(baseUrl + "/../x")) == Resolved("../x")
    ensures ResolveAsWritten(baseUrl, Some(baseUrl)) == OutOfBounds
  {
    var u := baseUrl + "X/etc/passwd";
    assert u[..|baseUrl|] == baseUrl;
    assert u[|baseUrl| + 1..] == "/etc/passwd";
    assert u[|baseUrl|] == 'X';
    var v := baseUrl + "//etc/passwd";
    assert v[..|baseUrl|] == baseUrl;
    assert v[|baseUrl| + 1..] == "/etc/passwd";
    var w := baseUrl + "/../x";
    assert w[..|baseUrl|] == baseUrl;
    assert w[|baseUrl| + 1..] == "../x";
    assert baseUrl[..|baseUrl|] == baseUrl;
  }

  /**
   * A key that `uploadPath.resolve` keeps under the upload root: not empty
   * (the root itself), not absolute, and with no ".." anywhere, so no step
   * to a parent directory.
   */
  predicate SafeKey(k: string)
  {
    |k| > 0 && k[0] != '/' && forall i :: 0 <= i < |k| - 1 ==> !(k[i] == '.' && k[i + 1] == '.')
  }

  /**
   * The guard as intended: only URLs under the base URL and its "/"
   * separator whose remainder is a safe key are resolved, to that key.
   */
  function Resolve(baseUrl: string, url: Option<string>): (r: Resolution)
    ensures !r.OutOfBounds?
    ensures r.Resolved? <==> url.Some? && StartsWith(url.value, baseUrl + "/") && SafeKey(url.value[|baseUrl| + 1..])
    ensures r.Resolved? ==> url.value == UrlOf(baseUrl, r.relativePath) && SafeKey(r.relativePath)
  {
    if url.Some? && StartsWith(url.value, baseUrl + "/") && SafeKey(url.value[|baseUrl| + 1..]) then
      var r := Resolved(url.value[|baseUrl| + 1..]);
      assert url.value == url.value[..|baseUrl| + 1] + url.value[|baseUrl| + 1..];
      r
    else Rejected
  }

  /** Every URL the written guard lets out of the upload root, the intended one rejects. */
  lemma EscapingUrlsRejected(baseUrl: string)
    ensures Resolve(baseUrl, Some(baseUrl + "X/etc/passwd")) == Rejected
    ensures Resolve(baseUrl, Some(baseUrl + "//etc/passwd")) == Rejected
    ensures Resolve(baseUrl, Some(baseUrl + "/../x")) == Rejected
    ensures Resolve(baseUrl, Some(baseUrl)) == Rejected
  {
    var v := baseUrl + "//etc/passwd";
    assert v[|baseUrl| + 1..] == "/etc/passwd";
    var w := baseUrl + "/../x";
    assert w[|baseUrl| + 1..] == "../x";
    assert !SafeKey("../x") by {
      assert "../x"[0] == '.' && "../x"[1] == '.';
    }
  }

  /**
   * Resolving is the inverse of composing a URL: a URL resolves to a key
   * exactly when it is that key's URL and the key is safe.
   */
  lemma ResolveInverse(baseUrl: string, url: string, key: string)
    ensures Resolve(baseUrl, Some(url)) == Resolved(key) <==> url == UrlOf(baseUrl, key) && SafeKey(key)
  {
    if url == UrlOf(baseUrl, key) {
      assert StartsWith(url, baseUrl + "/");
    }
  }

  /** On every URL the intended guard accepts, the written one agrees with it. */
  lemma ResolveAgreesOnWellFormedUrls(baseUrl: string, url: Option<string>)
    requires Resolve(baseUrl, url).Resolved?
    ensures ResolveAsWritten(baseUrl, url) == Resolve(baseUrl, url)
  {
    assert url.value[..|baseUrl|] == (baseUrl + "/")[..|baseUrl|];
  }

  /** `exists`: a rejected URL does not exist; otherwise whether its key is stored. */
  function Exists(files: set<string>, baseUrl: string, url: Option<string>): (r: bool)
    ensures r <==> exists key :: key in files && SafeKey(key) && url == Some(UrlOf(baseUrl, key))
  {
    var res := Resolve(baseUrl, url);
    if res.Resolved? then
      ResolveInverse(baseUrl, url.value, res.relativePath);
      assert forall key :: url == Some(UrlOf(baseUrl, key)) ==> key == res.relativePath by {
        forall key | url == Some(UrlOf(baseUrl, key)) ensures key == res.relativePath {
          ResolveInverse(baseUrl, url.value, key);
        }
      }
      res.relativePath in files
    else
      assert forall key :: SafeKey(key) ==> url != Some(UrlOf(baseUrl, key));
      false
  }

  /**
   * `delete`: a rejected URL changes nothing; otherwise the file of its key
   * is removed if present (a missing file is only logged).
   */
  function Delete(files: set<string>, baseUrl: string, url: Option<string>): (r: set<string>)
    ensures r <= files
    ensures !Exists(files, baseUrl, url) ==> r == files
    ensures Exists(files, baseUrl, url) ==> r == files - {url.value[|baseUrl| + 1..]}
    ensures !Exists(r, baseUrl, url)
  {
    var res := Resolve(baseUrl, url);
    if res.Resolved? then files - {res.relativePath} else files
  }

  /** The characters of `UUID.toString()`: lower-case hex digits and '-'. */
  predicate UuidText(s: string)
  {
    forall i :: 0 <= i < |s| ==> s[i] in "0123456789abcdef-"
  }

  /** A key made from a type's folder, a UUID text and an extension is safe. */
  lemma GeneratedKeyIsSafe(t: FileType, generatedName: string, originalFilename: string)
    requires UuidText(generatedName)
    ensures SafeKey(KeyOf(t, generatedName, originalFilename))
  {
    var p, e := Path(t), GetExtension(originalFilename);
    var k := KeyOf(t, generatedName, originalFilename);
    assert k == p + generatedName + e;
    assert forall i :: 0 <= i < |p| ==> k[i] == p[i] && p[i] != '.';
    assert forall i :: |p| <= i < |p| + |generatedName| ==>
      k[i] == generatedName[i - |p|] && generatedName[i - |p|] in "0123456789abcdef-";
    forall i | 0 <= i < |k| - 1 && k[i] == '.'
      ensures k[i + 1] != '.'
    {
      assert k[i + 1] == e[i + 1 - |p| - |generatedName|];
    }
    assert k[0] == p[0];
  }

  /**
   * A file just uploaded under a UUID name exists at the URL the upload
   * returned, and that URL resolves back to its key.
   */
  lemma UploadedFileExists(files: set<string>, baseUrl: string, file: Option<UploadFile>, t: FileType,
                           generatedName: string, writeSucceeds: bool)
    requires UuidText(generatedName)
    requires Upload(files, baseUrl, file, t, generatedName, writeSucceeds).0.Success?
    ensures var (r, after) := Upload(files, baseUrl, file, t, generatedName, writeSucceeds);
      Exists(after, baseUrl, Some(r.value.url)) &&
      Resolve(baseUrl, Some(r.value.url)) == Resolved(r.value.key)
  {
    var (r, after) := Upload(files, baseUrl, file, t, generatedName, writeSucceeds);
    GeneratedKeyIsSafe(t, generatedName, file.value.originalFilename);
    ResolveInverse(baseUrl, r.value.url, r.value.key);
  }

  // ---------------------------------------------------------------------
  // UploadController
  // ---------------------------------------------------------------------

  /** The request keyword an image type is uploaded under; showreel videos have none. */
  function ImageKeyword(t: FileType): Option<string>
  {
    match t
    case ProfileImage => Some("profile")
    case Thumbnail => Some("thumbnail")
    case Portfolio => Some("portfolio")
    case ShowreelVideo => None
  }

  /**
   * `mapImageType`: the lower-cased keyword picks the image type; anything
   * else is INVALID_FILE_TYPE. An image upload never lands in the showreel
   * folder.
   */
  function MapImageType(typeName: string): (r: Result<FileType, ErrorCode>)
    ensures r.Success? ==> r.value != ShowreelVideo && ImageKeyword(r.value) == Some(ToLowerCase(typeName))
    ensures r.Failure? ==> r.error == InvalidFileType &&
                           forall t :: ImageKeyword(t) != Some(ToLowerCase(typeName))
  {
    match ToLowerCase(typeName)
    case "profile" => Success(ProfileImage)
    case "thumbnail" => Success(Thumbnail)
    case "portfolio" => Success(Portfolio)
    case _ => Failure(InvalidFileType)
  }

  /** Lower-casing a lower-case word changes nothing, and neither does lower-casing its upper-case spelling. */
  lemma LowerCaseOfKeyword(k: string)
    requires forall i :: 0 <= i < |k| ==> 'a' <= k[i] <= 'z'
    ensures ToLowerCase(k) == k
    ensures ToLowerCase(ToUpperCase(k)) == k
  {
    var u := ToLowerCase(ToUpperCase(k));
    assert forall i :: 0 <= i < |k| ==> u[i] == k[i];
  }

  /** Every image keyword maps back to its type, in lower or upper case. */
  lemma MapImageTypeRoundTrip(t: FileType)
    requires t != ShowreelVideo
    ensures MapImageType(ImageKeyword(t).value) == Success(t)
    ensures MapImageType(ToUpperCase(ImageKeyword(t).value)) == Success(t)
  {
    LowerCaseOfKeyword(ImageKeyword(t).value);
  }

  /** `UploadImageResponse`. */
  datatype ImageResponse = ImageResponse(url: string, filename: string, size: nat, mimeType: Option<string>)

  /** `UploadVideoResponse`: the thumbnail URL and the duration are never filled in. */
  datatype VideoResponse = VideoResponse(url: string, thumbnailUrl: Option<string>, filename: string, size: nat,
                                         duration: Option<int>, mimeType: Option<string>)

  /** `uploadImage`: the type keyword is checked before the file, then the file is stored under that type. */
  function UploadImage(files: set<string>, baseUrl: string, file: Option<UploadFile>, typeName: string,
                       generatedName: string, writeSucceeds: bool): (r: (Result<ImageResponse, ErrorCode>, set<string>))
    ensures MapImageType(typeName).Failure? ==> r == (Failure(InvalidFileType), files)
    ensures MapImageType(typeName).Success? ==>
      var (u, after) := Upload(files, baseUrl, file, MapImageType(typeName).value, generatedName, writeSucceeds);
      r.1 == after && r.0.Success? == u.Success? &&
      (u.Failure? ==> r.0.error == u.error) &&
      (u.Success? ==> r.0.value == ImageResponse(u.value.url, u.value.filename, u.value.size, u.value.mimeType))
  {
    match MapImageType(typeName)
    case Failure(e) => (Failure(e), files)
    case Success(t) =>
      var (u, after) := Upload(files, baseUrl, file, t, generatedName, writeSucceeds);
      match u
      case Failure(e) => (Failure(e), after)
      case Success(v) => (Success(ImageResponse(v.url, v.filename, v.size, v.mimeType)), after)
  }

  /**
   * `uploadVideo`: only the keyword "showreel", in any case, is accepted,
   * and before the file is looked at; the file then always goes to the
   * showreel folder.
   */
  function UploadVideo(files: set<string>, baseUrl: string, file: Option<UploadFile>, typeName: string,
                       generatedName: string, writeSucceeds: bool): (r: (Result<VideoResponse, ErrorCode>, set<string>))
    ensures !EqualsIgnoreCase("showreel", typeName) ==> r == (Failure(InvalidFileType), files)
    ensures EqualsIgnoreCase("showreel", typeName) ==>
      var (u, after) := Upload(files, baseUrl, file, ShowreelVideo, generatedName, writeSucceeds);
      r.1 == after && r.0.Success? == u.Success? &&
      (u.Failure? ==> r.0.error == u.error) &&
      (u.Success? ==> r.0.value.thumbnailUrl.None? && r.0.value.duration.None? &&
                      r.0.value.url == u.value.url && StartsWith(u.value.key, Path(ShowreelVideo)))
  {
    if !EqualsIgnoreCase("showreel", typeName) then (Failure(InvalidFileType), files)
    else
      var (u, after) := Upload(files, baseUrl, file, ShowreelVideo, generatedName, writeSucceeds);
      match u
      case Failure(e) => (Failure(e), after)
      case Success(v) => (Success(VideoResponse(v.url, None, v.filename, v.size, None, v.mimeType)), after)
  }
}
