/** The shared-access-signature link builder of the video API
    (backend/server.js, buildSasUrl). A link grants a permission string on one
    blob of the "videos" container of one storage account until an expiry
    instant. The signature in the query string is opaque and is not modelled:
    a link keeps what the builder fixes, and the file name as it is written
    into the URL path, which decides whether the store serves the request on
    the blob the signature is for. Times are milliseconds. */
module Sas {
  import opened Wrappers

  /** The blob container every link points into. */
  const ContainerName: string := "videos"

  /** Permission string of the upload link: create and write. */
  const WritePermissions: string := "cw"

  /** Permission string of the download link: read. */
  const ReadPermissions: string := "r"

  /** Validity window, in minutes, of both kinds of link. */
  const LinkMinutes: nat := 10

  const MillisPerMinute: nat := 60 * 1000

  /** A link: the blob it is signed for, that name as written into the URL
      path, the permission string and the expiry instant. */
  datatype SasLink = SasLink(account: string, blobName: string, urlName: string, permissions: string, expiresOn: int)

  /** The single-letter permissions of a blob SAS that the model distinguishes. */
  datatype Permission = Read | Create | Write

  function Letter(p: Permission): char {
    match p
    case Read => 'r'
    case Create => 'c'
    case Write => 'w'
  }

  /** Whether the link's permission string carries permission `p`. */
  predicate Grants(l: SasLink, p: Permission) {
    Letter(p) in l.permissions
  }

  /** A link is accepted by the store strictly before its expiry instant. */
  predicate Live(l: SasLink, now: int) {
    now < l.expiresOn
  }

  function Host(account: string): string {
    "https://" + account + ".blob.core.windows.net"
  }

  /** The link's URL up to (not including) the '?' that starts the signature. */
  function Path(l: SasLink): string {
    Host(l.account) + "/" + ContainerName + "/" + l.urlName
  }

  predicate EndsWith(s: string, suffix: string) {
    |suffix| <= |s| && s[|s| - |suffix|..] == suffix
  }

  /** Characters the browser's URL parser removes from a URL before sending it. */
  predicate Dropped(c: char) {
    c == '\t' || c == '\n' || c == '\r'
  }

  /** Characters that end a path segment in an https URL. */
  predicate Separator(c: char) {
    c == '/' || c == '\\'
  }

  /** Characters a URL parser does not carry through a path segment
      literally: '?' starts the query, '#' the fragment, '%' an escape, a
      separator ends the segment and tab, LF and CR are removed. */
  predicate Reserved(c: char) {
    c == '?' || c == '#' || c == '%' || Separator(c) || Dropped(c)
  }

  predicate IsHex(c: char) {
    ('0' <= c <= '9') || ('A' <= c <= 'F') || ('a' <= c <= 'f')
  }

  function HexValue(c: char): (v: nat)
    requires IsHex(c)
    ensures v < 16
  {
    if '0' <= c <= '9' then c as nat - '0' as nat
    else if 'A' <= c <= 'F' then c as nat - 'A' as nat + 10
    else c as nat - 'a' as nat + 10
  }

  /** The path text with tab, LF and CR removed, as the URL parser sends it. */
  function Strip(p: string): (q: string)
    ensures |q| <= |p|
    ensures forall i :: 0 <= i < |q| ==> !Dropped(q[i])
  {
    if p == [] then []
    else if Dropped(p[0]) then Strip(p[1..])
    else [p[0]] + Strip(p[1..])
  }

  /** The path segments of `p`, split at each separator. */
  function Segments(p: string): (r: seq<string>)
    ensures |r| >= 1
  {
    if p == [] then [[]]
    else
      var rest := Segments(p[1..]);
      if Separator(p[0]) then [[]] + rest
      else [[p[0]] + rest[0]] + rest[1..]
  }

  function Succ(d: Option<nat>): Option<nat> {
    if d.Some? then Some(d.value + 1) else None
  }

  /** How many dots a segment spells, each written '.' or "%2e" in either
      case; None when it holds anything else. */
  function Dots(seg: string): Option<nat> {
    if seg == [] then Some(0)
    else if seg[0] == '.' then Succ(Dots(seg[1..]))
    else if |seg| >= 3 && seg[0] == '%' && seg[1] == '2' && (seg[2] == 'e' || seg[2] == 'E') then Succ(Dots(seg[3..]))
    else None
  }

  /** A "." or ".." segment, which the URL parser collapses. */
  predicate DotSegment(seg: string) {
    Dots(seg) == Some(1) || Dots(seg) == Some(2)
  }

  predicate HasDotSegment(p: string) {
    exists i :: 0 <= i < |Segments(p)| && DotSegment(Segments(p)[i])
  }

  /** The name the storage service reads from the path text after
      "/videos/": a '\' is read as '/', and each %XX escape of an ASCII
      character is decoded. */
  function Unescape(p: string): string {
    if p == [] then []
    else if |p| >= 3 && p[0] == '%' && IsHex(p[1]) && IsHex(p[2]) && HexValue(p[1]) < 8 then
      [(HexValue(p[1]) * 16 + HexValue(p[2])) as char] + Unescape(p[3..])
    else [if p[0] == '\\' then '/' else p[0]] + Unescape(p[1..])
  }

  /** The blob a request through the path text `written` reaches with its
      signature query intact. The URL parser first removes tab, LF and CR.
      There is none when a '?' or '#' then ends the path early and moves the
      signature out of the query, or when a "." or ".." segment makes the
      parser rewrite the path. */
  function Served(written: string): Option<string> {
    var p := Strip(written);
    if '?' in p || '#' in p || HasDotSegment(p) then None else Some(Unescape(p))
  }

  /** The store honours a link's signature only on the blob it was signed for. */
  predicate Reaches(l: SasLink) {
    Served(l.urlName) == Some(l.blobName)
  }

  /** A name holding no reserved character. */
  predicate Plain(name: string) {
    forall i :: 0 <= i < |name| ==> !Reserved(name[i])
  }

  /** The two names that are a dot segment however they are escaped. */
  predicate DotName(name: string) {
    name == "." || name == ".."
  }

  /** A character as it is written into the path: the reserved ones escaped. */
  function EscapeChar(c: char): string {
    if c == '%' then "%25"
    else if c == '#' then "%23"
    else if c == '?' then "%3F"
    else if c == '\\' then "%5C"
    else if c == '/' then "%2F"
    else if c == '\t' then "%09"
    else if c == '\n' then "%0A"
    else if c == '\r' then "%0D"
    else [c]
  }

  function Escaped(name: string): string {
    if name == [] then [] else EscapeChar(name[0]) + Escaped(name[1..])
  }

  /** buildSasUrl(fileName, permissionsString, minutesValid) at clock reading
      `now`, exactly as written: the file name goes into the URL unescaped. */
  function BuildSasUrlAsWritten(account: string, fileName: string, permissions: string, minutesValid: nat, now: int): (l: SasLink)
    ensures l.account == account && l.blobName == fileName && l.permissions == permissions
    ensures l.expiresOn == now + minutesValid * MillisPerMinute
    ensures l.urlName == fileName
    ensures Plain(fileName) ==> l == BuildSasUrl(account, fileName, permissions, minutesValid, now)
    ensures Plain(fileName) ==> (Reaches(l) <==> !DotName(fileName))
  {
    PlainNameUnchanged(fileName);
    SasLink(account, fileName, fileName, permissions, now + minutesValid * 60 * 1000)
  }

  /** buildSasUrl with the file name escaped in the URL path; the handlers use
      this one. Only the names "." and ".." stay out of reach. */
  function BuildSasUrl(account: string, fileName: string, permissions: string, minutesValid: nat, now: int): (l: SasLink)
    ensures l.account == account && l.blobName == fileName && l.permissions == permissions
    ensures l.expiresOn == now + minutesValid * MillisPerMinute
    ensures Reaches(l) <==> !DotName(fileName)
  {
    EscapedIsServed(fileName);
    SasLink(account, fileName, Escaped(fileName), permissions, now + minutesValid * 60 * 1000)
  }

  /** Escaping leaves no character behind that ends the path or a segment,
      or that the URL parser removes. */
  lemma {:induction false} EscapedIsSafe(name: string)
    ensures '?' !in Escaped(name) && '#' !in Escaped(name)
    ensures '/' !in Escaped(name) && '\\' !in Escaped(name)
    ensures '\t' !in Escaped(name) && '\n' !in Escaped(name) && '\r' !in Escaped(name)
  {
    if name != [] {
      EscapedIsSafe(name[1..]);
      var e := EscapeChar(name[0]);
      assert Escaped(name) == e + Escaped(name[1..]);
      assert forall c :: c in e ==> c == name[0] || c == '%' || '0' <= c <= '9' || 'A' <= c <= 'F';
    }
  }

  /** The service decodes an escaped name back to the name. */
  lemma {:induction false} UnescapeEscaped(name: string)
    ensures Unescape(Escaped(name)) == name
  {
    if name != [] {
      var c, rest := name[0], name[1..];
      var t := Escaped(rest);
      UnescapeEscaped(rest);
      var p := EscapeChar(c) + t;
      assert Escaped(name) == p;
      if Reserved(c) {
        assert p[3..] == t;
        assert p[0] == '%' && IsHex(p[1]) && IsHex(p[2]) && HexValue(p[1]) < 8;
        assert Unescape(p) == [(HexValue(p[1]) * 16 + HexValue(p[2])) as char] + Unescape(t);
      } else {
        assert p == [c] + t && p[1..] == t;
      }
    }
  }

  /** Text holding none of tab, LF and CR goes out unchanged. */
  lemma {:induction false} StripKeeps(p: string)
    requires '\t' !in p && '\n' !in p && '\r' !in p
    ensures Strip(p) == p
  {
    if p != [] {
      assert p[0] in p;
      assert forall c :: c in p[1..] ==> c in p;
      StripKeeps(p[1..]);
      assert p == [p[0]] + p[1..];
    }
  }

  /** Removing characters leaves text unchanged only when there were none. */
  lemma {:induction false} StripShrinks(p: string)
    ensures |Strip(p)| == |p| ==> Strip(p) == p
  {
    if p != [] {
      StripShrinks(p[1..]);
      if !Dropped(p[0]) && |Strip(p)| == |p| {
        assert p == [p[0]] + p[1..];
      }
    }
  }

  /** Text without a separator is a single segment. */
  lemma {:induction false} SegmentsWhole(p: string)
    requires '/' !in p && '\\' !in p
    ensures Segments(p) == [p]
  {
    if p != [] {
      assert forall c :: c in p[1..] ==> c in p;
      SegmentsWhole(p[1..]);
      assert p == [p[0]] + p[1..];
    }
  }

  /** An escaped name spells dots exactly when it is all dots, one per '.'. */
  lemma {:induction false} DotsOfEscaped(name: string)
    ensures Dots(Escaped(name)) == if forall i :: 0 <= i < |name| ==> name[i] == '.' then Some(|name|) else None
  {
    if name != [] {
      var c, rest := name[0], name[1..];
      DotsOfEscaped(rest);
      var e := EscapeChar(c);
      var p := e + Escaped(rest);
      assert Escaped(name) == p;
      if c == '.' {
        assert p[1..] == Escaped(rest);
        assert (forall i :: 0 <= i < |name| ==> name[i] == '.') <==> (forall i :: 0 <= i < |rest| ==> rest[i] == '.') by {
          assert forall i :: 0 <= i < |rest| ==> rest[i] == name[i + 1];
        }
      } else {
        assert name[0] != '.';
        assert p[..|e|] == e;
        if Reserved(c) {
          assert p[2] == e[2];
        }
      }
    }
  }

  /** Every file name, escaped, is served as the blob of that name, except
      "." and "..", which the URL parser collapses. */
  lemma EscapedIsServed(name: string)
    ensures Served(Escaped(name)) == if DotName(name) then None else Some(name)
  {
    var e := Escaped(name);
    EscapedIsSafe(name);
    UnescapeEscaped(name);
    StripKeeps(e);
    SegmentsWhole(e);
    DotsOfEscaped(name);
    assert Segments(e)[0] == e;
    if DotName(name) {
      assert DotSegment(Segments(e)[0]);
    }
  }

  /** A name without reserved characters is written the same either way, and
      so is served as itself unless it is "." or "..". */
  lemma {:induction false} PlainNameUnchanged(name: string)
    ensures Plain(name) ==> Escaped(name) == name
    ensures Plain(name) ==> Served(name) == if DotName(name) then None else Some(name)
  {
    if name != [] && Plain(name) {
      PlainNameUnchanged(name[1..]);
      assert name == [name[0]] + name[1..];
    }
    EscapedIsServed(name);
  }

  /** The decoded name is never longer than its text, and text that decodes
      to itself holds no '\'. */
  lemma {:induction false} UnescapeFixedPoint(p: string)
    ensures |Unescape(p)| <= |p|
    ensures Unescape(p) == p ==> '\\' !in p
  {
    if p != [] {
      if |p| >= 3 && p[0] == '%' && IsHex(p[1]) && IsHex(p[2]) && HexValue(p[1]) < 8 {
        UnescapeFixedPoint(p[3..]);
      } else {
        UnescapeFixedPoint(p[1..]);
        if Unescape(p) == p {
          assert Unescape(p)[1..] == Unescape(p[1..]);
          assert p == [p[0]] + p[1..];
        }
      }
    }
  }

  /** A link built as written misses its blob whenever the file name holds
      a '?', a '#', a '\', a tab, a LF or a CR. The escaped link reaches it. */
  lemma AsWrittenLinkMisses(account: string, fileName: string, permissions: string, minutesValid: nat, now: int)
    requires '?' in fileName || '#' in fileName || '\\' in fileName
      || '\t' in fileName || '\n' in fileName || '\r' in fileName
    ensures !Reaches(BuildSasUrlAsWritten(account, fileName, permissions, minutesValid, now))
    ensures Reaches(BuildSasUrl(account, fileName, permissions, minutesValid, now))
  {
    var p := Strip(fileName);
    UnescapeFixedPoint(p);
    StripShrinks(fileName);
  }

  /** A built link names exactly the requested account, blob and permissions,
      reaches that blob unless its name is "." or "..", and is live at a
      later clock reading exactly while fewer than `minutesValid` minutes
      have passed. */
  lemma BuildSasUrlScope(account: string, fileName: string, permissions: string, minutesValid: nat, now: int, later: int)
    ensures var l := BuildSasUrl(account, fileName, permissions, minutesValid, now);
      && l.blobName == fileName && l.permissions == permissions && l.account == account
      && (Reaches(l) <==> !DotName(fileName))
      && (Live(l, later) <==> later - now < minutesValid * MillisPerMinute)
  {
    EscapedIsServed(fileName);
  }

  /** The URL path of every link ends in "/videos/" and the name as written. */
  lemma PathEndsWithBlob(l: SasLink)
    ensures EndsWith(Path(l), "/" + ContainerName + "/" + l.urlName)
  {
    var head := Host(l.account);
    var tail := "/" + ContainerName + "/" + l.urlName;
    assert Path(l) == head + tail;
    assert Path(l)[|Path(l)| - |tail|..] == tail;
  }

  /** Two links of one account that reach their blobs and have the same URL
      path are signed for the same blob: a link gives access to no other object. */
  lemma {:induction false} PathIdentifiesBlob(l1: SasLink, l2: SasLink)
    requires l1.account == l2.account
    requires Reaches(l1) && Reaches(l2)
    requires Path(l1) == Path(l2)
    ensures l1.blobName == l2.blobName
  {
    var prefix := Host(l1.account) + "/" + ContainerName + "/";
    assert Path(l1) == prefix + l1.urlName;
    assert Path(l2) == prefix + l2.urlName;
    assert l1.urlName == Path(l1)[|prefix|..];
    assert l2.urlName == Path(l2)[|prefix|..];
  }

  /** The upload link may create and write its blob but not read it; the
      download link may read it but neither create nor write it. */
  lemma LinkPermissions(account: string, fileName: string, now: int)
    ensures var up := BuildSasUrl(account, fileName, WritePermissions, LinkMinutes, now);
      Grants(up, Create) && Grants(up, Write) && !Grants(up, Read)
    ensures var down := BuildSasUrl(account, fileName, ReadPermissions, LinkMinutes, now);
      Grants(down, Read) && !Grants(down, Create) && !Grants(down, Write)
  {
    assert WritePermissions == ['c', 'w'];
    assert ReadPermissions == ['r'];
  }
}
