/** Upload checks for receipt images: the ordered validation of an uploaded file, the
    collision-free file name and the pattern scan for disguised content. The sanitiser, the
    MIME sniffer, the image decoder and the file system are outside the model: their answers
    arrive as parameters. Bytes are characters below 256. */
module FileValidators {
  import opened Wrappers
  import opened Strings
  import Config

  const MB: nat := 1024 * 1024

  /** The size limit in MB when none is given: the configured byte limit, floored to MB. */
  const DEFAULT_MAX_MB: int := Config.MAX_CONTENT_LENGTH / MB

  /** The MIME types the sniffer must report. */
  const ALLOWED_MIME_TYPES: set<string> := {"image/jpeg", "image/png", "image/gif", "image/webp"}

  /** The text after the last '.', when there is a '.' (`name.rsplit('.', 1)[1]`). */
  function ExtensionOf(name: string): (ext: Option<string>)
    ensures ext.None? <==> '.' !in name
    ensures ext.Some? ==> '.' !in ext.value && |ext.value| < |name|
    ensures ext.Some? ==> name[|name| - |ext.value| - 1] == '.' && name[|name| - |ext.value|..] == ext.value
  {
    match LastIndexOf(name, '.')
    case None => None
    case Some(i) => Some(name[i + 1..])
  }

  /** The name carries a '.' and its lowered last suffix is one of `allowed`. */
  predicate HasAllowedExtension(name: string, allowed: set<string>) {
    var ext := ExtensionOf(name);
    ext.Some? && LowerAll(ext.value) in allowed
  }

  /** The last '.' of `prefix + "." + ext`, for dot-free `ext`, is the one before `ext`. */
  lemma {:induction false} LastDotBeforeSuffix(prefix: string, ext: string)
    requires '.' !in ext
    ensures LastIndexOf(prefix + "." + ext, '.') == Some(|prefix|)
    decreases |ext|
  {
    var s := prefix + "." + ext;
    if ext != [] {
      var shorter := ext[..|ext| - 1];
      assert s[|s| - 1] == ext[|ext| - 1];
      assert s[..|s| - 1] == prefix + "." + shorter;
      LastDotBeforeSuffix(prefix, shorter);
    }
  }

  /** A name ending in '.' followed by dot-free text has that text as its extension. */
  lemma ExtensionOfSuffix(prefix: string, ext: string)
    requires '.' !in ext
    ensures ExtensionOf(prefix + "." + ext) == Some(ext)
  {
    LastDotBeforeSuffix(prefix, ext);
    assert (prefix + "." + ext)[|prefix| + 1..] == ext;
  }

  /** A dot-free name has no extension. */
  lemma NoDotNoExtension(s: string)
    requires '.' !in s
    ensures ExtensionOf(s).None?
  {
  }

  datatype Dimensions = Dimensions(width: nat, height: nat)

  /** An uploaded file: the client's file name, the name the sanitiser made of it, its size in
      bytes, what the MIME sniffer said of its first kilobyte (or why it raised), and what the
      image decoder made of it (or why it raised). */
  datatype Upload = Upload(
    filename: string,
    secured: string,
    size: nat,
    sniffed: Result<string, string>,
    decoded: Result<Dimensions, string>)

  /** The description `validate_file_upload` returns for an accepted file. */
  datatype Validated = Validated(filename: string, mimeType: string, size: nat, width: nat, height: nat)

  /** The `FileValidationError` messages, by cause. */
  datatype UploadError =
    | NoFile
    | ExtensionNotAllowed(allowed: set<string>)
    | TooLarge(maxMb: int)
    | NotAnImage(detected: string)
    | Undecodable(reason: string)
    | ProbeFailed(reason: string)

  /** The size check: strictly more than the limit fails, the limit itself passes. */
  predicate WithinSize(size: nat, maxMb: int) {
    size <= maxMb * MB
  }

  /** `validate_file_upload`: presence, extension of the sanitised name, size, sniffed MIME
      type, image decoding, in that order; the first failing check decides the error. */
  function ValidateFileUpload(file: Option<Upload>, allowedExtensions: Option<set<string>>, maxSizeMb: Option<int>)
    : (r: Result<Validated, UploadError>)
    ensures r == Failure(NoFile) <==> file.None? || file.value.filename == ""
    ensures file.Some? && file.value.filename != "" ==>
      var f := file.value;
      var allowed := if allowedExtensions.Some? then allowedExtensions.value else Config.ALLOWED_EXTENSIONS;
      var maxMb := if maxSizeMb.Some? then maxSizeMb.value else DEFAULT_MAX_MB;
      && (r.Failure? && r.error.ExtensionNotAllowed? <==> !HasAllowedExtension(f.secured, allowed))
      && (r.Failure? && r.error.TooLarge? <==> HasAllowedExtension(f.secured, allowed) && !WithinSize(f.size, maxMb))
      && (r.Failure? && r.error.ProbeFailed? <==>
            HasAllowedExtension(f.secured, allowed) && WithinSize(f.size, maxMb) && f.sniffed.Failure?)
      && (r.Failure? && r.error.NotAnImage? <==>
            (HasAllowedExtension(f.secured, allowed) && WithinSize(f.size, maxMb)
             && f.sniffed.Success? && f.sniffed.value !in ALLOWED_MIME_TYPES))
      && (r.Failure? && r.error.Undecodable? <==>
            (HasAllowedExtension(f.secured, allowed) && WithinSize(f.size, maxMb)
             && f.sniffed.Success? && f.sniffed.value in ALLOWED_MIME_TYPES && f.decoded.Failure?))
    ensures file.Some? && r.Failure? ==>
      var f := file.value;
      && (r.error.ExtensionNotAllowed? ==>
            r.error.allowed == if allowedExtensions.Some? then allowedExtensions.value else Config.ALLOWED_EXTENSIONS)
      && (r.error.TooLarge? ==> r.error.maxMb == if maxSizeMb.Some? then maxSizeMb.value else DEFAULT_MAX_MB)
      && (r.error.ProbeFailed? ==> f.sniffed == Failure(r.error.reason))
      && (r.error.NotAnImage? ==> f.sniffed == Success(r.error.detected))
      && (r.error.Undecodable? ==> f.decoded == Failure(r.error.reason))
    ensures r.Success? ==>
      && file.Some?
      && r.value.filename == file.value.secured
      && r.value.size == file.value.size
      && file.value.sniffed == Success(r.value.mimeType)
      && r.value.mimeType in ALLOWED_MIME_TYPES
      && file.value.decoded == Success(Dimensions(r.value.width, r.value.height))
  {
    if file.None? || file.value.filename == "" then Failure(NoFile)
    else
      var f := file.value;
      var allowed := if allowedExtensions.Some? then allowedExtensions.value else Config.ALLOWED_EXTENSIONS;
      var maxMb := if maxSizeMb.Some? then maxSizeMb.value else DEFAULT_MAX_MB;
      if !HasAllowedExtension(f.secured, allowed) then Failure(ExtensionNotAllowed(allowed))
      else if f.size > maxMb * MB then Failure(TooLarge(maxMb))
      else match f.sniffed
        case Failure(why) => Failure(ProbeFailed(why))
        case Success(mime) =>
          if mime !in ALLOWED_MIME_TYPES then Failure(NotAnImage(mime))
          else match f.decoded
            case Failure(why) => Failure(Undecodable(why))
            case Success(d) => Success(Validated(f.secured, mime, f.size, d.width, d.height))
  }

  /** Allowing more extensions never turns an accepted upload into a refused one, and the
      description is the same. */
  lemma MoreExtensionsStillAccept(file: Option<Upload>, allowed: set<string>, wider: set<string>, maxSizeMb: Option<int>)
    requires allowed <= wider
    requires ValidateFileUpload(file, Some(allowed), maxSizeMb).Success?
    ensures ValidateFileUpload(file, Some(wider), maxSizeMb) == ValidateFileUpload(file, Some(allowed), maxSizeMb)
  {
  }

  /** Without an explicit limit a file of exactly 10 MB is accepted by the size check and one
      byte more is refused. */
  lemma DefaultLimitIsTenMegabytes(f: Upload)
    requires f.filename != "" && HasAllowedExtension(f.secured, Config.ALLOWED_EXTENSIONS)
    ensures DEFAULT_MAX_MB == 10
    ensures f.size == 10 * MB ==> ValidateFileUpload(Some(f), None, None) != Failure(TooLarge(10))
    ensures f.size == 10 * MB + 1 ==> ValidateFileUpload(Some(f), None, None) == Failure(TooLarge(10))
  {
  }

  /** The user id a name is tagged with: a truthy id itself, 0 for `None` and 0 alike. */
  function UserTag(userId: Option<nat>): nat {
    if userId.Some? then userId.value else 0
  }

  /** `f"_{user_id}" if user_id else ""`: empty exactly for a falsy id, otherwise '_' and the
      decimal digits that read back as the id. */
  function UserSuffix(userId: Option<nat>): (suffix: string)
    ensures suffix == "" <==> UserTag(userId) == 0
    ensures suffix != "" ==> suffix[0] == '_' && AllDigits(suffix[1..]) && DecimalValue(suffix[1..]) == UserTag(userId)
  {
    if userId.Some? && userId.value != 0 then
      var digits := NatToString(userId.value);
      DecimalRoundTrip(userId.value);
      assert ("_" + digits)[1..] == digits;
      "_" + digits
    else ""
  }

  /** The part of a sanitised name before its last '.', the whole name when it has none. */
  function BaseName(secured: string): (name: string)
    ensures '.' !in secured ==> name == secured
    ensures '.' in secured ==> name + "." + ExtensionOf(secured).value == secured
  {
    if '.' in secured then
      var ext := ExtensionOf(secured).value;
      assert secured[..|secured| - |ext| - 1] + "." + ext == secured;
      secured[..|secured| - |ext| - 1]
    else secured
  }

  /** `generate_unique_filename` on the sanitised name, the formatted clock reading and the
      optional user id: `name_stamp[_uid].ext`, split at the last '.', with no '.' at all
      when the extension is empty. */
  function GenerateUniqueFilename(secured: string, stamp: string, userId: Option<nat>): (unique: string)
    ensures StartsWith(unique, BaseName(secured) + "_" + stamp)
    ensures var ending := if '.' in secured && ExtensionOf(secured).value != "" then "." + ExtensionOf(secured).value else "";
      unique == BaseName(secured) + "_" + stamp + UserSuffix(userId) + ending
  {
    var name := BaseName(secured);
    var ext := if '.' in secured then ExtensionOf(secured).value else "";
    var suffix := UserSuffix(userId);
    assert (name + "_" + stamp + suffix + "." + ext)[..|name + "_" + stamp|] == name + "_" + stamp;
    assert (name + "_" + stamp + suffix)[..|name + "_" + stamp|] == name + "_" + stamp;
    if ext != "" then name + "_" + stamp + suffix + "." + ext
    else name + "_" + stamp + suffix
  }

  /** For the same file and clock reading, two calls give the same name exactly when they
      carry the same user tag: different users never collide, and an anonymous call never
      takes a user's name. */
  lemma {:induction false} UniqueNameSeparatesUsers(secured: string, stamp: string, a: Option<nat>, b: Option<nat>)
    ensures GenerateUniqueFilename(secured, stamp, a) == GenerateUniqueFilename(secured, stamp, b) <==> UserTag(a) == UserTag(b)
  {
    var head := BaseName(secured) + "_" + stamp;
    var ending := if '.' in secured && ExtensionOf(secured).value != "" then "." + ExtensionOf(secured).value else "";
    var sa, sb := UserSuffix(a), UserSuffix(b);
    if GenerateUniqueFilename(secured, stamp, a) == GenerateUniqueFilename(secured, stamp, b) {
      assert head + sa + ending == head + sb + ending;
      assert |sa| == |sb|;
      assert sa == (head + sa + ending)[|head|..|head| + |sa|];
      assert sb == (head + sb + ending)[|head|..|head| + |sb|];
    }
    if UserTag(a) == UserTag(b) {
      assert sa == sb;
    }
  }

  /** A non-empty extension survives renaming, so an accepted upload keeps an accepted name,
      as long as the clock reading has no '.'. */
  lemma UniqueNameKeepsExtension(secured: string, stamp: string, userId: Option<nat>)
    requires '.' !in stamp
    requires ExtensionOf(secured).Some? && ExtensionOf(secured).value != ""
    ensures ExtensionOf(GenerateUniqueFilename(secured, stamp, userId)) == ExtensionOf(secured)
  {
    var ext := ExtensionOf(secured).value;
    ExtensionOfSuffix(BaseName(secured) + "_" + stamp + UserSuffix(userId), ext);
  }

  /** A dot-free name stays dot-free: the renamed file has no extension either. */
  lemma UniqueNameWithoutDot(secured: string, stamp: string, userId: Option<nat>)
    requires '.' !in secured && '.' !in stamp
    ensures ExtensionOf(GenerateUniqueFilename(secured, stamp, userId)).None?
  {
    var suffix := UserSuffix(userId);
    assert '.' !in suffix by {
      if suffix != "" {
        assert suffix == "_" + suffix[1..];
        assert '.' !in suffix[1..] by {
          forall i | 0 <= i < |suffix[1..]| ensures suffix[1..][i] != '.' {
            assert IsDigit(suffix[1..][i]);
          }
        }
      }
    }
    assert GenerateUniqueFilename(secured, stamp, userId) == secured + "_" + stamp + suffix;
  }

  /** A name that ends in '.' loses that '.' and with it any extension: 'photo.' with user 7
      becomes 'photo_<stamp>_7'. */
  lemma TrailingDotDropped(name: string, stamp: string, userId: Option<nat>)
    requires '.' !in name
    ensures GenerateUniqueFilename(name + ".", stamp, userId) ==
      name + "_" + stamp + (if userId.Some? && userId.value != 0 then "_" + NatToString(userId.value) else "")
  {
    assert ExtensionOf(name + ".") == Some("") by {
      assert name + "." + "" == name + ".";
      ExtensionOfSuffix(name, "");
    }
    assert (name + ".")[..|name|] == name;
  }

  /** The content patterns the scanner looks for, in the order it tries them. */
  const SUSPICIOUS_PATTERNS: seq<string> := ["<?php", "<script", "javascript:", "data:text/html", "vbscript:", "%PDF-"]

  /** Executable suffixes refused on Windows. */
  const EXECUTABLE_SUFFIXES: seq<string> := [".exe", ".bat", ".cmd", ".scr"]

  /** The scanner's verdict: clean or not, and the message. */
  datatype ScanVerdict = ScanVerdict(clean: bool, info: string)

  /** The index of the first pattern from `k` on that occurs in `lowered`. */
  function FirstPattern(lowered: string, k: nat): (r: Option<nat>)
    requires k <= |SUSPICIOUS_PATTERNS|
    ensures r.Some? ==> k <= r.value < |SUSPICIOUS_PATTERNS| && Contains(lowered, SUSPICIOUS_PATTERNS[r.value])
    ensures r.Some? ==> forall j :: k <= j < r.value ==> !Contains(lowered, SUSPICIOUS_PATTERNS[j])
    ensures r.None? ==> forall j :: k <= j < |SUSPICIOUS_PATTERNS| ==> !Contains(lowered, SUSPICIOUS_PATTERNS[j])
    decreases |SUSPICIOUS_PATTERNS| - k
  {
    if k == |SUSPICIOUS_PATTERNS| then None
    else if Contains(lowered, SUSPICIOUS_PATTERNS[k]) then Some(k)
    else FirstPattern(lowered, k + 1)
  }

  /** No suspicious pattern occurs in the (lowered) content. */
  predicate PatternFree(lowered: string) {
    forall j :: 0 <= j < |SUSPICIOUS_PATTERNS| ==> !Contains(lowered, SUSPICIOUS_PATTERNS[j])
  }

  /** The path ends, ignoring case, in one of the executable suffixes. */
  predicate ExecutableName(path: string) {
    exists j :: 0 <= j < |EXECUTABLE_SUFFIXES| && EndsWith(LowerAll(path), EXECUTABLE_SUFFIXES[j])
  }

  /** The first kilobyte of the file (`f.read(1024)`). */
  function Head(data: string): (h: string)
    ensures |h| <= 1024 && |h| <= |data| && h == data[..|h|]
    ensures |data| <= 1024 ==> h == data
  {
    if |data| <= 1024 then data else data[..1024]
  }

  /** `scan_file_for_malware` on the file's bytes (or the reason reading failed), the platform,
      the file path and whether the file is executable by the process. */
  function ScanFileForMalware(data: Result<string, string>, onWindows: bool, path: string, executable: bool)
    : (v: ScanVerdict)
    ensures data.Failure? ==> v == ScanVerdict(false, "Error escaneando archivo: " + data.error)
    ensures data.Success? ==>
      var lowered := LowerAsciiAll(Head(data.value));
      && (v.clean <==> PatternFree(lowered) && (if onWindows then !ExecutableName(path) else !executable))
      && (forall k :: 0 <= k < |SUSPICIOUS_PATTERNS| && Contains(lowered, SUSPICIOUS_PATTERNS[k]) &&
                      (forall j :: 0 <= j < k ==> !Contains(lowered, SUSPICIOUS_PATTERNS[j])) ==>
            v == ScanVerdict(false, "Patrón sospechoso detectado: " + SUSPICIOUS_PATTERNS[k]))
      && (PatternFree(lowered) && onWindows && ExecutableName(path) ==>
            v == ScanVerdict(false, "Tipo de archivo ejecutable no permitido"))
      && (PatternFree(lowered) && !onWindows && executable ==>
            v == ScanVerdict(false, "Archivo con permisos de ejecución"))
    ensures v.clean ==> v.info == "Archivo limpio"
  {
    match data
    case Failure(why) => ScanVerdict(false, "Error escaneando archivo: " + why)
    case Success(bytes) =>
      var lowered := LowerAsciiAll(Head(bytes));
      match FirstPattern(lowered, 0)
      case Some(k) => ScanVerdict(false, "Patrón sospechoso detectado: " + SUSPICIOUS_PATTERNS[k])
      case None =>
        if onWindows then
          if ExecutableName(path) then ScanVerdict(false, "Tipo de archivo ejecutable no permitido")
          else ScanVerdict(true, "Archivo limpio")
        else if executable then ScanVerdict(false, "Archivo con permisos de ejecución")
        else ScanVerdict(true, "Archivo limpio")
  }

  /** Lowering removes every capital letter, so a pattern holding one can never occur. */
  lemma {:induction false} CapitalNeverFound(content: string, pattern: string, p: nat)
    requires p < |pattern| && 'A' <= pattern[p] <= 'Z'
    ensures !Contains(LowerAsciiAll(content), pattern)
  {
    var lowered := LowerAsciiAll(content);
    ContainsIffOccurs(lowered, pattern);
    forall i | 0 <= i && i + |pattern| <= |lowered| ensures !OccursAt(lowered, pattern, i) {
      assert lowered[i..i + |pattern|][p] == lowered[i + p];
    }
  }

  /** The '%PDF-' pattern is checked against lowered content, so it never matches. */
  lemma PdfPatternNeverMatches(content: string)
    ensures SUSPICIOUS_PATTERNS[5] == "%PDF-"
    ensures !Contains(LowerAsciiAll(content), SUSPICIOUS_PATTERNS[5])
  {
    CapitalNeverFound(content, "%PDF-", 1);
  }
}
