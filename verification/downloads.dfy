/** `FileDownloadService`: the guards `downloadFile` applies before opening a
    connection, the extension taken from a download URL, and the check of a
    response's content type. */
module Downloads {
  import opened Wrappers
  import opened Text

  /** The extensions the URL may name; anything else falls back to ".mp3". */
  const AudioExtensions: set<string> := {".mp3", ".wav", ".ogg", ".flac", ".m4a", ".aac", ".wma"}
  const DefaultExtension := ".mp3"

  /** The words whose presence in a content type marks it as audio. */
  const AudioWords: set<string> := {"audio", "mp3", "wav", "ogg", "flac", "m4a"}

  /** `url.split("\\?")[0]`: everything before the first '?'. A URL made of
      '?' only makes `split` return an empty array and index 0 throw; the
      exception is caught and gives the default, as the empty prefix does. */
  function BeforeQuery(s: string): (r: string)
    ensures StartsWith(s, r)
    ensures forall i :: 0 <= i < |r| ==> r[i] != '?'
    ensures |r| == |s| || s[|r|] == '?'
  {
    var q := IndexOf(s, '?');
    if q == -1 then s else s[..q]
  }

  function Max(a: int, b: int): int {
    if a >= b then a else b
  }

  /** `getFileExtensionFromUrl`. */
  function ExtensionFromUrl(url: Option<string>): (r: string)
    ensures r in AudioExtensions
    ensures url.None? || url.value == "" ==> r == DefaultExtension
  {
    if url.None? || url.value == "" then DefaultExtension
    else ExtensionOfPath(BeforeQuery(url.value))
  }

  /** The extension `getFileExtensionFromUrl` reads from the part of the URL
      before the query: the lower-cased text from the last '.', when that
      '.' follows every separator, is not the last character and the text
      is an accepted extension. */
  function ExtensionOfPath(path: string): (r: string)
    ensures r in AudioExtensions
  {
    var lastDot := LastIndexOf(path, '.');
    var lastSlash := Max(LastIndexOf(path, '/'), LastIndexOf(path, '\\'));
    if lastDot > lastSlash && lastDot < |path| - 1 then
      var extension := Lower(path[lastDot..]);
      if extension in AudioExtensions then extension else DefaultExtension
    else DefaultExtension
  }

  /** `isAudioFile`. */
  function IsAudioFile(contentType: Option<string>): (b: bool)
    ensures contentType.None? ==> !b
    ensures contentType.Some? ==>
              (b <==> exists w :: w in AudioWords && Contains(Lower(contentType.value), w))
  {
    if contentType.None? then false
    else
      var lower := Lower(contentType.value);
      StartsWithImpliesContains(lower, "audio/", "audio");
      StartsWith(lower, "audio/") || Contains(lower, "audio") || Contains(lower, "mp3")
      || Contains(lower, "wav") || Contains(lower, "ogg") || Contains(lower, "flac")
      || Contains(lower, "m4a")
  }

  /** A string starting with `prefix` contains every prefix of `prefix`. */
  lemma StartsWithImpliesContains(s: string, prefix: string, word: string)
    requires StartsWith(prefix, word)
    ensures StartsWith(s, prefix) ==> Contains(s, word)
  {
    if StartsWith(s, prefix) {
      assert OccursAt(s, word, 0);
    }
  }

  /** Why `downloadFile` refuses a URL before connecting. */
  datatype UrlError = BlankUrl | NotHttp

  /** The two guards at the top of `downloadFile`, in their order. */
  function ValidateDownloadUrl(url: Option<string>): (r: Result<string, UrlError>)
    ensures r.Ok? <==> url.Some? && IsHttpUrl(url.value)
    ensures r.Ok? ==> r.value == url.value
    ensures r == Err(BlankUrl) <==> url.None? || IsJavaBlank(url.value)
  {
    if url.None? then Err(BlankUrl)
    else
      HttpIsNotBlank(url.value);
      if IsJavaBlank(url.value) then Err(BlankUrl)
      else if !IsHttpUrl(url.value) then Err(NotHttp)
      else Ok(url.value)
  }

  /** An http(s) URL starts with 'h', which `trim` keeps. */
  lemma HttpIsNotBlank(s: string)
    ensures IsHttpUrl(s) ==> !IsJavaBlank(s)
  {
    if IsHttpUrl(s) {
      assert s[0] == 'h';
    }
  }

  // ---------------------------------------------------------------------------
  // The extension, characterised

  /** `Lower` commutes with taking a suffix. */
  lemma LowerSuffix(s: string, i: int)
    requires 0 <= i <= |s|
    ensures Lower(s[i..]) == Lower(s)[i..]
  {
  }

  /** Lower-casing never makes or removes a '.', '/' or '\'. */
  lemma LowerKeepsPunctuation(c: char)
    ensures LowerChar(c) == '.' <==> c == '.'
    ensures LowerChar(c) == '/' <==> c == '/'
    ensures LowerChar(c) == '\\' <==> c == '\\'
  {
  }

  /** Every accepted extension is a dot followed by at least two characters
      none of which is a dot or a path separator. */
  lemma ExtensionShape(ext: string)
    requires ext in AudioExtensions
    ensures |ext| >= 3 && ext[0] == '.'
    ensures forall j :: 0 < j < |ext| ==> ext[j] != '.' && ext[j] != '/' && ext[j] != '\\'
  {
  }

  /** The URL names an accepted extension other than the default exactly when
      the part before the query ends with it, in any letter case: the last
      '.' then comes after the last separator and is not the last character. */
  lemma ExtensionIsSuffix(url: string, ext: string)
    requires ext in AudioExtensions && ext != DefaultExtension
    ensures ExtensionFromUrl(Some(url)) == ext <==> EndsWith(Lower(BeforeQuery(url)), ext)
  {
    if EndsWith(Lower(BeforeQuery(url)), ext) {
      SuffixGivesExtension(url, ext);
    }
    if ExtensionFromUrl(Some(url)) == ext {
      ExtensionIsLowerSuffix(url, ext);
    }
  }

  /** A path ending with an accepted extension has its last '.' where the
      extension starts, after every separator. */
  lemma SuffixGivesExtension(url: string, ext: string)
    requires ext in AudioExtensions && ext != DefaultExtension
    requires EndsWith(Lower(BeforeQuery(url)), ext)
    ensures ExtensionFromUrl(Some(url)) == ext
  {
    PathSuffixGivesExtension(BeforeQuery(url), ext);
    assert url != "";
  }

  lemma PathSuffixGivesExtension(path: string, ext: string)
    requires ext in AudioExtensions
    requires EndsWith(Lower(path), ext)
    ensures ExtensionOfPath(path) == ext
  {
    ExtensionShape(ext);
    var d := |path| - |ext|;
    SuffixPositions(path, ext, d);
    LowerSuffix(path, d);
    ExtensionFromParts(path, ext, d);
  }

  /** Where the last '.' and the last separators of such a path are. */
  lemma SuffixPositions(path: string, ext: string, d: int)
    requires EndsWith(Lower(path), ext) && d == |path| - |ext|
    requires |ext| >= 3 && ext[0] == '.'
    requires forall j :: 0 < j < |ext| ==> ext[j] != '.' && ext[j] != '/' && ext[j] != '\\'
    ensures LastIndexOf(path, '.') == d < |path| - 1
    ensures LastIndexOf(path, '/') < d && LastIndexOf(path, '\\') < d
  {
    SuffixCharacters(path, Lower(path), ext, d);
    LastAt(path, '.', d);
    LastBefore(path, '/', d);
    LastBefore(path, '\\', d);
  }

  /** The extension of a path once its last '.' and separators are known. */
  lemma ExtensionFromParts(path: string, ext: string, d: int)
    requires ext in AudioExtensions
    requires LastIndexOf(path, '.') == d < |path| - 1
    requires LastIndexOf(path, '/') < d && LastIndexOf(path, '\\') < d
    requires Lower(path[d..]) == ext
    ensures ExtensionOfPath(path) == ext
  {
  }

  /** The last `c` is at `d` when `s[d]` is one and none comes later. */
  lemma LastAt(s: string, c: char, d: int)
    requires 0 <= d < |s| && s[d] == c
    requires forall j :: d < j < |s| ==> s[j] != c
    ensures LastIndexOf(s, c) == d
  {
  }

  /** The last `c` is before `d` when none comes at or after it. */
  lemma LastBefore(s: string, c: char, d: int)
    requires 0 <= d <= |s|
    requires forall j :: d <= j < |s| ==> s[j] != c
    ensures LastIndexOf(s, c) < d
  {
  }

  /** The characters of a path whose lower-cased form ends with an accepted
      extension: a '.' where the extension starts, and no '.' or separator
      at or after it but that one. */
  lemma SuffixCharacters(path: string, lower: string, ext: string, d: int)
    requires |lower| == |path| && forall i :: 0 <= i < |path| ==> lower[i] == LowerChar(path[i])
    requires EndsWith(lower, ext) && d == |path| - |ext|
    requires |ext| >= 3 && ext[0] == '.'
    requires forall j :: 0 < j < |ext| ==> ext[j] != '.' && ext[j] != '/' && ext[j] != '\\'
    ensures 0 <= d < |path| - 1 && path[d] == '.'
    ensures forall j :: d < j < |path| ==> path[j] != '.'
    ensures forall j :: d <= j < |path| ==> path[j] != '/' && path[j] != '\\'
  {
    forall j | d <= j < |path|
      ensures (path[j] == '.' <==> j == d) && path[j] != '/' && path[j] != '\\'
    {
      SuffixAt(lower, ext, j);
      LowerKeepsPunctuation(path[j]);
    }
  }

  /** One character of a suffix. */
  lemma SuffixAt(s: string, t: string, j: int)
    requires EndsWith(s, t) && |s| - |t| <= j < |s|
    ensures s[j] == t[j - (|s| - |t|)]
  {
    assert s[|s| - |t|..][j - (|s| - |t|)] == s[j];
  }

  /** A chosen extension other than the default is the lower-cased suffix
      from the last '.'. */
  lemma ExtensionIsLowerSuffix(url: string, ext: string)
    requires ext in AudioExtensions && ext != DefaultExtension
    requires ExtensionFromUrl(Some(url)) == ext
    ensures EndsWith(Lower(BeforeQuery(url)), ext)
  {
    var path := BeforeQuery(url);
    assert ExtensionOfPath(path) == ext;
    var lastDot := LastIndexOf(path, '.');
    assert 0 <= lastDot && Lower(path[lastDot..]) == ext;
    LowerSuffix(path, lastDot);
  }

  /** Everything from the first '?' on is ignored. */
  lemma QueryIgnored(path: string, query: string)
    requires forall i :: 0 <= i < |path| ==> path[i] != '?'
    requires path != ""
    ensures ExtensionFromUrl(Some(path + "?" + query)) == ExtensionFromUrl(Some(path))
  {
    var url := path + "?" + query;
    var r := BeforeQuery(url);
    assert url[|path|] == '?';
    assert url[..|path|] == path;
    assert r == path;
    assert BeforeQuery(path) == path;
  }
}
