/** The album page's `downloadTrack`: the file name it saves a download
    under, taken from the Content-Disposition header by the regular
    expression `filename[^;=\n]*=((['"]).*?\2|[^;\n]*)`, quotes removed,
    with `${title}.mp3` when the header or the match is missing or empty. */
module ClientDownload {
  import opened Wrappers
  import opened Text
  import opened FileRoutes

  /** The characters `.` does not match in a JavaScript regular expression
      without the `s` flag. */
  const Terminators: set<char> := {'\n', '\r', '\U{2028}', '\U{2029}'}

  const Quotes: set<char> := {'\'', '"'}

  /** The first index at or after `from` whose character is in `stops`, or
      `|s|` when there is none. */
  function FirstOf(s: string, from: nat, stops: set<char>): (k: nat)
    requires from <= |s|
    ensures from <= k <= |s|
    ensures k < |s| ==> s[k] in stops
    ensures forall j :: from <= j < k ==> s[j] !in stops
    decreases |s| - from
  {
    if from == |s| || s[from] in stops then from else FirstOf(s, from + 1, stops)
  }

  /** The text up to the first ';' or line feed: the `[^;\n]*` alternative,
      which is greedy and always matches. */
  function Unquoted(h: string, v: nat): (g: string)
    requires v <= |h|
    ensures forall j :: 0 <= j < |g| ==> g[j] != ';' && g[j] != '\n'
    ensures v + |g| <= |h| && (v + |g| == |h| || h[v + |g|] == ';' || h[v + |g|] == '\n')
  {
    h[v..FirstOf(h, v, {';', '\n'})]
  }

  /** Capture group 1 of a match that starts at `i`, if one does.
      `[^;=\n]*` runs to the first ';', '=' or line feed, and only a '='
      there lets the match go on: a shorter run would stop before a
      character that is not '='. After the '=', a quote opens the first
      alternative, which ends at the first equal quote unless a line
      terminator comes first; otherwise the second alternative applies. */
  function MatchAt(h: string, i: nat): (g: Option<string>)
    requires i <= |h|
    ensures g.Some? ==> OccursAt(h, "filename", i)
  {
    if !OccursAt(h, "filename", i) then None
    else
      var k := FirstOf(h, i + 8, {';', '=', '\n'});
      if k == |h| || h[k] != '=' then None
      else
        var v := k + 1;
        if v < |h| && h[v] in Quotes then
          var m := FirstOf(h, v + 1, {h[v]} + Terminators);
          if m < |h| && h[m] == h[v] then Some(h[v..m + 1]) else Some(Unquoted(h, v))
        else Some(Unquoted(h, v))
  }

  /** `RegExp.prototype.exec` from index `i`: the group of the leftmost
      position at which a match starts (see `ExecFindsLeftmost`). */
  function Exec(h: string, i: nat): (g: Option<string>)
    requires i <= |h|
    ensures g.Some? ==> exists j :: i <= j <= |h| && MatchAt(h, j) == g
    decreases |h| - i
  {
    if MatchAt(h, i).Some? then MatchAt(h, i)
    else if i == |h| then None
    else Exec(h, i + 1)
  }

  /** `exec` answers with the group of the leftmost starting position. */
  lemma {:induction false} ExecFindsLeftmost(h: string, i: nat, j: nat)
    requires i <= j <= |h| && MatchAt(h, j).Some?
    requires forall t :: i <= t < j ==> MatchAt(h, t).None?
    ensures Exec(h, i) == MatchAt(h, j)
    decreases j - i
  {
    if i < j {
      assert MatchAt(h, i).None?;
      ExecFindsLeftmost(h, i + 1, j);
      assert Exec(h, i) == Exec(h, i + 1);
    } else {
      assert Exec(h, i) == MatchAt(h, j);
    }
  }

  /** With no starting position, `exec` answers null. */
  lemma {:induction false} ExecFailsWithoutMatch(h: string, i: nat)
    requires i <= |h|
    requires forall t :: i <= t <= |h| ==> MatchAt(h, t).None?
    ensures Exec(h, i).None?
    decreases |h| - i
  {
    if i < |h| {
      ExecFailsWithoutMatch(h, i + 1);
    }
  }

  /** The name the browser saves the download under. */
  function SavedName(header: Option<string>, title: Option<string>): (name: string)
    ensures header.None? || header.value == "" ==> name == Shown(title) + ".mp3"
    ensures name != Shown(title) + ".mp3" ==> forall j :: 0 <= j < |name| ==> name[j] !in Quotes
  {
    var fallback := Shown(title) + ".mp3";
    if header.None? || header.value == "" then fallback
    else
      var g := Exec(header.value, 0);
      if g.Some? && g.value != "" then RemoveChars(g.value, Quotes) else fallback
  }

  // ---------------------------------------------------------------------------
  // The header the server sends is read back as the name it offers

  lemma {:induction false} RemoveCharsAppend(a: string, b: string, drop: set<char>)
    ensures RemoveChars(a + b, drop) == RemoveChars(a, drop) + RemoveChars(b, drop)
    decreases |a|
  {
    if |a| > 0 {
      assert (a + b)[1..] == a[1..] + b;
      RemoveCharsAppend(a[1..], b, drop);
    } else {
      assert a + b == b;
    }
  }

  /** The layout of an attachment header. */
  lemma AttachmentLayout(name: string)
    ensures |Attachment(name)| == |name| + 23
    ensures Attachment(name)[..12] == "attachment; " && Attachment(name)[12..20] == "filename"
    ensures Attachment(name)[20] == '=' && Attachment(name)[21] == '"'
    ensures Attachment(name)[22 + |name|] == '"'
    ensures Attachment(name)[22..22 + |name|] == name
    ensures forall j :: 0 <= j < |name| ==> Attachment(name)[22 + j] == name[j]
  {
  }

  lemma OccursAtStarts(s: string, sub: string, i: int)
    requires OccursAt(s, sub, i) && |sub| > 0
    ensures s[i] == sub[0]
  {
    assert s[i..i + |sub|][0] == sub[0];
  }

  /** No match starts inside "attachment; ": none of its characters is 'f'. */
  lemma NoMatchBeforeFilename(name: string)
    ensures forall t :: 0 <= t < 12 ==> MatchAt(Attachment(name), t).None?
  {
    var h := Attachment(name);
    AttachmentLayout(name);
    forall t | 0 <= t < 12
      ensures MatchAt(h, t).None?
    {
      assert h[t] == h[..12][t];
      assert h[t] != 'f';
      if OccursAt(h, "filename", t) {
        OccursAtStarts(h, "filename", t);
      }
    }
  }

  /** The match at the word "filename" captures the quoted name. */
  lemma MatchAtFilename(name: string)
    requires forall j :: 0 <= j < |name| ==> SafeChar(name[j]) || name[j] == '_'
    ensures MatchAt(Attachment(name), 12) == Some("\"" + name + "\"")
  {
    var h := Attachment(name);
    AttachmentLayout(name);
    assert OccursAt(h, "filename", 12);
    assert FirstOf(h, 20, {';', '=', '\n'}) == 20;
    var m := FirstOf(h, 22, {'"'} + Terminators);
    assert m == 22 + |name|;
    assert h[21..m + 1] == "\"" + name + "\"";
  }

  /** In an attachment header the only match starts at the word "filename"
      and captures the quoted name. */
  lemma AttachmentGroup(name: string)
    requires forall j :: 0 <= j < |name| ==> SafeChar(name[j]) || name[j] == '_'
    ensures Exec(Attachment(name), 0) == Some("\"" + name + "\"")
  {
    NoMatchBeforeFilename(name);
    MatchAtFilename(name);
    AttachmentLayout(name);
    ExecFindsLeftmost(Attachment(name), 0, 12);
  }

  /** A header built by the server's attachment format from a name of safe
      characters is read back as exactly that name. */
  lemma AttachmentRoundTrip(name: string, title: Option<string>)
    requires forall j :: 0 <= j < |name| ==> SafeChar(name[j]) || name[j] == '_'
    ensures SavedName(Some(Attachment(name)), title) == name
  {
    AttachmentGroup(name);
    UnquoteName(name);
    AttachmentLayout(name);
    assert Attachment(name) != "";
  }

  /** Removing the quotes around a name without quotes gives the name. */
  lemma UnquoteName(name: string)
    requires forall j :: 0 <= j < |name| ==> SafeChar(name[j]) || name[j] == '_'
    ensures RemoveChars("\"" + name + "\"", Quotes) == name
  {
    var q := "\"" + name + "\"";
    assert q[0] in Quotes && q[1..] == name + "\"";
    assert RemoveChars(q, Quotes) == RemoveChars(name + "\"", Quotes);
    RemoveCharsAppend(name, "\"", Quotes);
    NoQuotes(name);
    assert RemoveChars("\"", Quotes) == "";
  }

  /** A name of safe characters has no quotes, so removing them keeps it. */
  lemma NoQuotes(name: string)
    requires forall j :: 0 <= j < |name| ==> SafeChar(name[j]) || name[j] == '_'
    ensures RemoveChars(name, Quotes) == name
  {
    assert forall j :: 0 <= j < |name| ==> name[j] !in Quotes;
  }

  /** The browser saves a download under the name the download route
      offers for that track. */
  lemma SavedAsOffered(title: Option<string>)
    ensures SavedName(Some(Attachment(DownloadName(title))), title) == DownloadName(title)
  {
    AttachmentRoundTrip(DownloadName(title), title);
  }
}
