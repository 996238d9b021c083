/**
 * The media detector: does a chat request concern image or video content?
 * A string is a media reference when it is an inline image/video data URI or
 * names a file with a media extension; a dict or list holds media when some
 * dict reachable from it carries a media `type` or MIME entry, or some string
 * reachable from it is a media reference. Dicts and lists are visited by
 * identity, each at most once per top-level scan.
 */
module MediaDetector {
  import opened JsonValue

  /** File endings that mark a media reference (compared in lower case). */
  const MediaExtensions: seq<string> := [
    ".png", ".jpg", ".jpeg", ".gif", ".bmp", ".tiff", ".svg", ".webp", ".avif", ".heic", ".heif",
    ".mp4", ".mov", ".avi", ".mkv", ".webm", ".mpg", ".mpeg", ".m4v"
  ]

  /** MIME type prefixes that mark media. */
  const MediaMimePrefixes: seq<string> := ["image/", "video/"]

  /** Words that, inside a dict's `type` entry, mark media. */
  const MediaTypeKeywords: seq<string> := ["image", "video"]

  /** Dict entries that may carry a MIME type. */
  const MimeKeys: seq<string> := ["media_type", "mime_type", "content_type"]

  /** Request body fields scanned for media when the message list holds none. */
  const MediaFields: seq<string> := ["messages", "files", "attachments", "inputs", "input", "media", "assets"]

  // ---------------------------------------------------------------------------
  // Strings

  /** ASCII lower case of one character; every other character is unchanged. */
  function LowerChar(ch: char): char
  {
    if 'A' <= ch <= 'Z' then (ch as int - 'A' as int + 'a' as int) as char else ch
  }

  /** `str.lower()` on ASCII letters. */
  function Lower(s: string): string
  {
    seq(|s|, i requires 0 <= i < |s| => LowerChar(s[i]))
  }

  predicate StartsWith(s: string, prefix: string)
  {
    |prefix| <= |s| && s[..|prefix|] == prefix
  }

  predicate EndsWith(s: string, suffix: string)
  {
    |suffix| <= |s| && s[|s| - |suffix|..] == suffix
  }

  /** Python's `part in s` on strings. */
  predicate Contains(s: string, part: string)
  {
    exists i :: 0 <= i <= |s| && StartsWith(s[i..], part)
  }

  /** `s.split(sep, 1)[0]`: the part of `s` before the first `sep`, or all of `s` when it has none. */
  function CutAt(s: string, sep: char): (r: string)
    ensures |r| <= |s| && r == s[..|r|]
    ensures sep !in r
    ensures |r| < |s| ==> s[|r|] == sep
  {
    if s == [] then []
    else if s[0] == sep then []
    else [s[0]] + CutAt(s[1..], sep)
  }

  /** A lower-cased string with its query (from the first `?`) and then its fragment (from the first `#`) cut off. */
  function Trimmed(lowered: string): string
  {
    CutAt(CutAt(lowered, '?'), '#')
  }

  /** An inline image or video encoding. */
  predicate IsDataMediaUri(lowered: string)
  {
    StartsWith(lowered, "data:image/") || StartsWith(lowered, "data:video/")
  }

  predicate HasMediaExtension(path: string)
  {
    exists i :: 0 <= i < |MediaExtensions| && EndsWith(path, MediaExtensions[i])
  }

  /**
   * A string that is an image/video data URI, or that ends in a media extension once
   * lower-cased and cut before its query and fragment. Anything that is not a string is not.
   */
  function LooksLikeMediaReference(value: Value): (r: bool)
    ensures !value.Str? ==> !r
    ensures value.Str? && IsDataMediaUri(Lower(value.s)) ==> r
  {
    match value
    case Str(s) =>
      var lowered := Lower(s);
      IsDataMediaUri(lowered) || HasMediaExtension(Trimmed(lowered))
    case _ => false
  }

  lemma {:induction false} LowerAppend(a: string, b: string)
    ensures Lower(a + b) == Lower(a) + Lower(b)
  {
    assert forall i :: 0 <= i < |a + b| ==> Lower(a + b)[i] == (Lower(a) + Lower(b))[i];
  }

  lemma {:induction false} CutAtAppend(a: string, b: string, sep: char)
    requires sep !in a
    ensures CutAt(a + b, sep) == a + CutAt(b, sep)
  {
    if a != [] {
      assert (a + b)[0] == a[0] != sep;
      assert (a + b)[1..] == a[1..] + b;
      assert CutAt(a + b, sep) == [a[0]] + CutAt(a[1..] + b, sep);
      CutAtAppend(a[1..], b, sep);
      assert [a[0]] + (a[1..] + CutAt(b, sep)) == ([a[0]] + a[1..]) + CutAt(b, sep);
      assert [a[0]] + a[1..] == a;
    } else {
      assert a + b == b;
    }
  }

  lemma CutAtAbsent(s: string, sep: char)
    requires sep !in s
    ensures CutAt(s, sep) == s
  {
  }

  /** Only the letters A-Z change under LowerChar, so `?`, `#` and every non-letter keep their place. */
  lemma LowerKeeps(s: string, ch: char)
    requires !('A' <= ch <= 'Z') && !('a' <= ch <= 'z')
    ensures ch in Lower(s) <==> ch in s
  {
    if ch in Lower(s) {
      var i :| 0 <= i < |s| && Lower(s)[i] == ch;
      assert s[i] == ch;
    }
    if ch in s {
      var i :| 0 <= i < |s| && s[i] == ch;
      assert Lower(s)[i] == ch;
    }
  }

  /** Cutting at `?` and then at `#` removes a query or fragment that follows a plain path. */
  lemma TrimmedDropsTail(lp: string, lt: string)
    requires '?' !in lp && '#' !in lp
    requires lt != [] && (lt[0] == '?' || lt[0] == '#')
    ensures Trimmed(lp + lt) == lp
  {
    CutAtAppend(lp, lt, '?');
    var u := CutAt(lt, '?');
    if lt[0] == '?' {
      assert u == [];
      assert lp + u == lp;
    } else {
      assert u[0] == '#';
      CutAtAppend(lp, u, '#');
      assert CutAt(u, '#') == [];
      assert lp + [] == lp;
    }
  }

  /** A `?` or `#` before the eleventh character rules out a data URI. */
  lemma DataUriNeedsPlainPrefix(lp: string, lt: string)
    requires lt != [] && (lt[0] == '?' || lt[0] == '#')
    ensures IsDataMediaUri(lp + lt) == IsDataMediaUri(lp)
  {
    if |lp| < 11 {
      assert (lp + lt)[|lp|] == lt[0];
    } else {
      assert (lp + lt)[..11] == lp[..11];
    }
  }

  /** A query or fragment appended to a path changes nothing: `photo.png?size=2` is judged as `photo.png`. */
  lemma QueryAndFragmentIgnored(path: string, tail: string)
    requires '?' !in path && '#' !in path
    requires tail != [] && (tail[0] == '?' || tail[0] == '#')
    ensures LooksLikeMediaReference(Str(path + tail)) == LooksLikeMediaReference(Str(path))
  {
    var lp, lt := Lower(path), Lower(tail);
    LowerAppend(path, tail);
    LowerKeeps(path, '?');
    LowerKeeps(path, '#');
    assert lt[0] == LowerChar(tail[0]) == tail[0];
    TrimmedDropsTail(lp, lt);
    CutAtAbsent(lp, '?');
    CutAtAbsent(lp, '#');
    DataUriNeedsPlainPrefix(lp, lt);
  }

  /**
   * Any path whose lower-case form ends in one of the listed extensions is a media reference,
   * with or without a query or fragment after it: `photo.PNG`, `clip.Mp4#t=3`.
   */
  lemma ExtensionDetected(path: string, tail: string, i: nat)
    requires i < |MediaExtensions| && EndsWith(Lower(path), MediaExtensions[i])
    requires '?' !in path && '#' !in path
    requires tail == [] || tail[0] == '?' || tail[0] == '#'
    ensures LooksLikeMediaReference(Str(path + tail))
  {
    LowerKeeps(path, '?');
    LowerKeeps(path, '#');
    CutAtAbsent(Lower(path), '?');
    CutAtAbsent(Lower(path), '#');
    assert HasMediaExtension(Trimmed(Lower(path)));
    if tail == [] {
      assert path + tail == path;
    } else {
      QueryAndFragmentIgnored(path, tail);
    }
  }

  /** A string without capitals is its own lower case. */
  lemma LowerOfLowercase(s: string)
    requires forall i :: 0 <= i < |s| ==> !('A' <= s[i] <= 'Z')
    ensures Lower(s) == s
  {
  }

  /** The verdict on a string ignores the case of its ASCII letters. */
  lemma CaseInsensitive(s: string, t: string)
    requires |s| == |t| && forall i :: 0 <= i < |s| ==> LowerChar(s[i]) == LowerChar(t[i])
    ensures LooksLikeMediaReference(Str(s)) == LooksLikeMediaReference(Str(t))
  {
    assert Lower(s) == Lower(t);
  }

  /** `photo.PNG?x=1` is a media reference. */
  lemma UpperCaseExtensionWithQuery()
    ensures LooksLikeMediaReference(Str("photo.PNG?x=1"))
  {
    assert Lower("photo.PNG")[5..] == Lower(".PNG") by {
      LowerAppend("photo", ".PNG");
      assert "photo" + ".PNG" == "photo.PNG";
    }
    assert Lower(".PNG") == ".png";
    assert EndsWith(Lower("photo.PNG"), MediaExtensions[0]);
    ExtensionDetected("photo.PNG", "?x=1", 0);
    assert "photo.PNG" + "?x=1" == "photo.PNG?x=1";
  }

  /** Free text that ends in a file name is a media reference: `look at photo.png`. */
  lemma TextEndingInFileName()
    ensures LooksLikeMediaReference(Str("look at photo.png"))
  {
    LowerOfLowercase("look at photo.png");
    assert EndsWith(Lower("look at photo.png"), MediaExtensions[0]);
    ExtensionDetected("look at photo.png", [], 0);
    assert "look at photo.png" + [] == "look at photo.png";
  }

  /** A data URI is recognised in any case. */
  lemma DataUriAnyCase()
    ensures LooksLikeMediaReference(Str("DATA:Video/mp4;base64,AAAA"))
  {
    LowerAppend("DATA:Video/", "mp4;base64,AAAA");
    assert "DATA:Video/" + "mp4;base64,AAAA" == "DATA:Video/mp4;base64,AAAA";
    assert Lower("DATA:Video/") == "data:video/";
  }

  /** For a lower-case string without query or fragment, the verdict is: data URI or media extension. */
  lemma PlainLowercaseVerdict(s: string)
    requires forall i :: 0 <= i < |s| ==> !('A' <= s[i] <= 'Z')
    requires '?' !in s && '#' !in s
    ensures LooksLikeMediaReference(Str(s)) == (IsDataMediaUri(s) || HasMediaExtension(s))
  {
    LowerOfLowercase(s);
    CutAtAbsent(s, '?');
    CutAtAbsent(s, '#');
  }

  /** The last two characters of each media extension. */
  const ExtensionTails: set<string> :=
    {"ng", "pg", "eg", "if", "mp", "ff", "vg", "bp", "ic", "p4", "ov", "vi", "kv", "bm", "4v"}

  /**
   * A string of lower-case letters, spaces and dots whose last two characters end no
   * media extension is not a media reference: it has no `:` for a data URI, and no
   * media extension.
   */
  lemma PlainWordIsNotMedia(s: string)
    requires forall i :: 0 <= i < |s| ==> 'a' <= s[i] <= 'z' || s[i] == ' ' || s[i] == '.'
    requires |s| >= 2 && s[|s| - 2..] !in ExtensionTails
    ensures !LooksLikeMediaReference(Str(s))
  {
    assert !HasMediaExtension(s) by {
      forall i | 0 <= i < |MediaExtensions| ensures !EndsWith(s, MediaExtensions[i]) {
        var e := MediaExtensions[i];
        assert |e| >= 2 && e[|e| - 2..] in ExtensionTails;
        if |e| <= |s| {
          assert s[|s| - |e|..][|e| - 2..] == s[|s| - 2..];
        }
      }
    }
    assert !IsDataMediaUri(s) by {
      if |s| > 4 {
        assert s[4] != ':';
      }
    }
    PlainLowercaseVerdict(s);
  }

  /** `doc.pdf` is not a media reference. */
  lemma PdfIsNotMedia()
    ensures !LooksLikeMediaReference(Str("doc.pdf"))
  {
    PlainWordIsNotMedia("doc.pdf");
  }

  /** `hello there` is not a media reference. */
  lemma PlainTextIsNotMedia()
    ensures !LooksLikeMediaReference(Str("hello there"))
  {
    PlainWordIsNotMedia("hello there");
  }

  // ---------------------------------------------------------------------------
  // Dicts

  /** The dict's `type` entry is a string naming image or video, in any case (`image_url`, `input_video`). */
  predicate TypeNamesMedia(entries: seq<(string, Value)>)
  {
    var t := Get(entries, "type");
    t.Some? && t.value.Str? &&
    exists k :: 0 <= k < |MediaTypeKeywords| && Contains(Lower(t.value.s), MediaTypeKeywords[k])
  }

  /** A looked-up entry is a string whose lower-case form starts with `image/` or `video/`. */
  predicate IsMediaMime(entry: Option<Value>)
  {
    entry.Some? && entry.value.Str? &&
    exists k :: 0 <= k < |MediaMimePrefixes| && StartsWith(Lower(entry.value.s), MediaMimePrefixes[k])
  }

  /** One of `media_type`, `mime_type`, `content_type` holds an image or video MIME type. */
  predicate MimeNamesMedia(entries: seq<(string, Value)>)
  {
    exists k :: 0 <= k < |MimeKeys| && IsMediaMime(Get(entries, MimeKeys[k]))
  }

  /** The dict itself says it describes media. */
  predicate HasMediaMarker(entries: seq<(string, Value)>)
  {
    TypeNamesMedia(entries) || MimeNamesMedia(entries)
  }

  /** A media node: a dict that carries a media marker, or a dict or list with a media-reference string among its values. */
  ghost predicate IsMediaNode(c: Container)
    reads c
  {
    || (c.shape.Dict? && HasMediaMarker(c.shape.entries))
    || exists i :: 0 <= i < |Children(c.shape)| && LooksLikeMediaReference(Children(c.shape)[i])
  }

  /** A dict's keys are never taken for media references: without the marker keys, only its values decide. */
  lemma KeysNotInspected(c: Container)
    requires c.shape.Dict?
    requires forall j :: 0 <= j < |c.shape.entries| ==> c.shape.entries[j].0 !in ["type"] + MimeKeys
    ensures IsMediaNode(c) <==>
      exists j :: 0 <= j < |c.shape.entries| && LooksLikeMediaReference(c.shape.entries[j].1)
  {
    var e := c.shape.entries;
    assert "type" in ["type"] + MimeKeys;
    assert Get(e, "type").None?;
    forall k | 0 <= k < |MimeKeys| ensures Get(e, MimeKeys[k]).None? {
      assert MimeKeys[k] in ["type"] + MimeKeys;
    }
    assert !HasMediaMarker(e);
    var ch := Children(c.shape);
    assert forall j :: 0 <= j < |e| ==> ch[j] == e[j].1;
  }

  // ---------------------------------------------------------------------------
  // Object graphs

  /** Every container a value of `c` refers to is in `s`. */
  ghost predicate ChildrenIn(c: Container, s: set<Container>)
    reads c
  {
    forall i :: 0 <= i < |Children(c.shape)| && Children(c.shape)[i].Ref? ==> Children(c.shape)[i].c in s
  }

  /** A set of containers closed under "refers to". */
  ghost predicate Closed(s: set<Container>)
    reads s
  {
    forall c :: c in s ==> ChildrenIn(c, s)
  }

  ghost predicate HasMediaNode(s: set<Container>)
    reads s
  {
    exists c :: c in s && IsMediaNode(c)
  }

  ghost predicate Within(v: Value, universe: set<Container>)
  {
    v.Ref? ==> v.c in universe
  }

  ghost predicate BodyWithin(body: map<string, Value>, universe: set<Container>)
  {
    forall k :: k in body ==> Within(body[k], universe)
  }

  /**
   * `v` reaches media: it is a media-reference string, or it is a container from which
   * a media node can be reached. Reachability is stated without paths: every set of
   * containers that holds the root and is closed under "refers to" holds a media node.
   * The closed set `universe` only bounds where those sets are sought; by
   * MediaReachableIndependent its choice does not matter. The predicate means this
   * only when `Within(v, universe)` holds: for a container outside `universe` no set
   * qualifies, and it holds vacuously.
   */
  ghost predicate MediaReachable(v: Value, universe: set<Container>)
    reads universe
  {
    match v
    case Str(_) => LooksLikeMediaReference(v)
    case Ref(c) => forall s :: s <= universe && Closed(s) && c in s ==> HasMediaNode(s)
    case _ => false
  }

  /** A media node reaches media. */
  lemma MediaNodeReaches(c: Container, universe: set<Container>)
    requires IsMediaNode(c)
    ensures MediaReachable(Ref(c), universe)
  {
  }

  /** A container reaches media when one of its values does. */
  lemma ParentReachesMedia(c: Container, i: nat, universe: set<Container>)
    requires i < |Children(c.shape)| && MediaReachable(Children(c.shape)[i], universe)
    ensures MediaReachable(Ref(c), universe)
  {
    var child := Children(c.shape)[i];
    forall s | s <= universe && Closed(s) && c in s
      ensures HasMediaNode(s)
    {
      if child.Ref? {
        assert ChildrenIn(c, s);
        assert child.c in s;
      } else {
        assert IsMediaNode(c);
      }
    }
  }

  /**
   * The recursion of the scan, without its visited set: a container reaches media exactly
   * when it is a dict with a media marker or one of its values or items reaches media.
   */
  lemma MediaReachableUnfold(c: Container, universe: set<Container>)
    requires Closed(universe) && c in universe
    ensures MediaReachable(Ref(c), universe) <==>
      || (c.shape.Dict? && HasMediaMarker(c.shape.entries))
      || exists i :: 0 <= i < |Children(c.shape)| && MediaReachable(Children(c.shape)[i], universe)
  {
    var marked := c.shape.Dict? && HasMediaMarker(c.shape.entries);
    var viaChild := exists i :: 0 <= i < |Children(c.shape)| && MediaReachable(Children(c.shape)[i], universe);
    if marked {
      MediaNodeReaches(c, universe);
    }
    if viaChild {
      var i :| 0 <= i < |Children(c.shape)| && MediaReachable(Children(c.shape)[i], universe);
      ParentReachesMedia(c, i, universe);
    }
    if !marked && !viaChild {
      // the containers of the universe that do not reach media, together with c, form
      // a closed set without media nodes
      var clean := (set d | d in universe && !MediaReachable(Ref(d), universe)) + {c};
      forall d | d in clean
        ensures ChildrenIn(d, clean) && !IsMediaNode(d)
      {
        assert ChildrenIn(d, universe);
        forall i | 0 <= i < |Children(d.shape)| && Children(d.shape)[i].Ref?
          ensures Children(d.shape)[i].c in clean
        {
          if MediaReachable(Children(d.shape)[i], universe) {
            ParentReachesMedia(d, i, universe);
          }
        }
        if IsMediaNode(d) {
          MediaNodeReaches(d, universe);
        }
      }
      assert !HasMediaNode(clean);
    }
  }

  lemma ChildWithin(c: Container, i: nat, universe: set<Container>)
    requires Closed(universe) && c in universe && i < |Children(c.shape)|
    ensures Within(Children(c.shape)[i], universe)
  {
    assert ChildrenIn(c, universe);
  }

  /** Closed sets meet in a closed set. */
  lemma ClosedIntersection(a: set<Container>, b: set<Container>)
    requires Closed(a) && Closed(b)
    ensures Closed(a * b)
  {
    forall c | c in a * b ensures ChildrenIn(c, a * b) {
      assert ChildrenIn(c, a) && ChildrenIn(c, b);
    }
  }

  lemma MediaReachableTransfer(v: Value, u1: set<Container>, u2: set<Container>)
    requires Closed(u1) && Within(v, u1)
    requires MediaReachable(v, u1)
    ensures MediaReachable(v, u2)
  {
    if v.Ref? {
      forall s | s <= u2 && Closed(s) && v.c in s
        ensures HasMediaNode(s)
      {
        ClosedIntersection(s, u1);
        assert HasMediaNode(s * u1);
      }
    }
  }

  /** The verdict does not depend on which closed universe holds the value. */
  lemma MediaReachableIndependent(v: Value, u1: set<Container>, u2: set<Container>)
    requires Closed(u1) && Within(v, u1)
    requires Closed(u2) && Within(v, u2)
    ensures MediaReachable(v, u1) == MediaReachable(v, u2)
  {
    if MediaReachable(v, u1) {
      MediaReachableTransfer(v, u1, u2);
    }
    if MediaReachable(v, u2) {
      MediaReachableTransfer(v, u2, u1);
    }
  }

  /**
   * A falsy value never holds media, so the truthiness guards in front of the
   * `asset_pointer` scan and the body-field scans never change a verdict.
   */
  lemma FalsyHasNoMedia(v: Value, universe: set<Container>)
    requires Within(v, universe) && !Truthy(v)
    ensures !MediaReachable(v, universe)
  {
    match v
    case Ref(c) =>
      assert Closed({c}) by {
        assert ChildrenIn(c, {c});
      }
      assert !IsMediaNode(c) by {
        if c.shape.Dict? {
          assert c.shape.entries == [];
          assert Get(c.shape.entries, "type").None?;
        }
      }
      assert !HasMediaNode({c});
    case Str(s) =>
      assert s == [];
      assert !HasMediaExtension("");
    case _ =>
  }

  // ---------------------------------------------------------------------------
  // The scan

  /** The containers in `done` are settled against `seen`: none is a media node and all they refer to has been seen. */
  ghost predicate Exhausted(done: set<Container>, seen: set<Container>)
    reads done
  {
    forall c :: c in done ==> !IsMediaNode(c) && ChildrenIn(c, seen)
  }

  /** A value checked without success: not a media-reference string, and, if a container, seen. */
  ghost predicate Cleared(v: Value, seen: set<Container>)
  {
    !LooksLikeMediaReference(v) && (v.Ref? ==> v.c in seen)
  }

  lemma ExhaustedGrows(done: set<Container>, seen: set<Container>, seen': set<Container>)
    requires Exhausted(done, seen) && seen <= seen'
    ensures Exhausted(done, seen')
  {
    forall c | c in done ensures ChildrenIn(c, seen') {
      assert ChildrenIn(c, seen);
    }
  }

  /**
   * One recursive step of the scan, threading the set of dicts and lists already visited.
   * A container already visited gives false at once. On success the payload reaches media;
   * on failure everything newly visited is settled, so a top-level scan that fails has
   * visited a closed set free of media nodes.
   */
  method Scan(payload: Value, visited: set<Container>, ghost universe: set<Container>)
    returns (found: bool, seen: set<Container>)
    requires Closed(universe) && Within(payload, universe)
    ensures visited <= seen <= visited + universe
    ensures payload.Ref? && payload.c in visited ==> !found && seen == visited
    ensures found ==> MediaReachable(payload, universe)
    ensures !found ==> Cleared(payload, seen) && Exhausted(seen - visited, seen)
    decreases universe - visited
  {
    if !payload.Ref? {
      return LooksLikeMediaReference(payload), visited;
    }
    var c := payload.c;
    if c in visited {
      return false, visited;
    }
    seen := visited + {c};
    assert c in universe - visited && c !in universe - seen;
    var children := Children(c.shape);
    if c.shape.Dict? {
      var entries := c.shape.entries;
      if HasMediaMarker(entries) {
        MediaNodeReaches(c, universe);
        return true, seen;
      }
      var pointer := Find(entries, "asset_pointer");
      if pointer.Some? && Truthy(entries[pointer.value].1) {
        ChildWithin(c, pointer.value, universe);
        found, seen := Scan(entries[pointer.value].1, seen, universe);
        if found {
          ParentReachesMedia(c, pointer.value, universe);
          return;
        }
        assert seen - (visited + {c}) == seen - visited - {c};
      }
    }
    var i := 0;
    while i < |children|
      invariant 0 <= i <= |children|
      invariant visited + {c} <= seen <= visited + universe
      invariant Exhausted(seen - visited - {c}, seen)
      invariant forall k :: 0 <= k < i ==> Cleared(children[k], seen)
      invariant c.shape.Dict? ==> !HasMediaMarker(c.shape.entries)
    {
      ChildWithin(c, i, universe);
      var f, s := Scan(children[i], seen, universe);
      if f {
        ParentReachesMedia(c, i, universe);
        return true, s;
      }
      ExhaustedGrows(seen - visited - {c}, seen, s);
      assert s - visited - {c} == (seen - visited - {c}) + (s - seen);
      seen := s;
      i := i + 1;
    }
    assert !IsMediaNode(c);
    assert ChildrenIn(c, seen);
    assert seen - visited == (seen - visited - {c}) + {c};
    found := false;
  }

  /**
   * `_contains_media_payload` from the top: a fresh visited set. True exactly when the
   * payload reaches media; it terminates on self-referential dicts and lists as well.
   */
  method ContainsMediaPayload(payload: Value, ghost universe: set<Container>) returns (found: bool)
    requires Closed(universe) && Within(payload, universe)
    ensures found <==> MediaReachable(payload, universe)
  {
    var seen;
    found, seen := Scan(payload, {}, universe);
    if !found && payload.Ref? {
      assert seen - {} == seen;
      assert Closed(seen);
      assert !HasMediaNode(seen);
    }
  }

  // ---------------------------------------------------------------------------
  // The request

  /**
   * A media-analysis request: the message list reaches media, or one of the listed body
   * fields does, or the raw user text is itself a media reference. Like MediaReachable,
   * it means this only when the message list and the body lie within `universe`.
   */
  ghost predicate MediaAnalysisRequest(userMessage: string, messages: Value, body: map<string, Value>,
                                       universe: set<Container>)
    reads universe
  {
    || MediaReachable(messages, universe)
    || (exists i :: 0 <= i < |MediaFields| && MediaFields[i] in body && MediaReachable(body[MediaFields[i]], universe))
    || LooksLikeMediaReference(Str(userMessage))
  }

  /** `_is_media_analysis_request`: each scan starts with a fresh visited set. */
  method IsMediaAnalysisRequest(userMessage: string, messages: Value, body: map<string, Value>,
                                ghost universe: set<Container>)
    returns (verdict: bool)
    requires Closed(universe) && Within(messages, universe) && BodyWithin(body, universe)
    ensures verdict == MediaAnalysisRequest(userMessage, messages, body, universe)
  {
    verdict := ContainsMediaPayload(messages, universe);
    if verdict {
      return;
    }
    for i := 0 to |MediaFields|
      invariant forall k :: 0 <= k < i && MediaFields[k] in body ==> !MediaReachable(body[MediaFields[k]], universe)
    {
      var key := MediaFields[i];
      if key in body && Truthy(body[key]) {
        var hit := ContainsMediaPayload(body[key], universe);
        if hit {
          return true;
        }
      } else if key in body {
        FalsyHasNoMedia(body[key], universe);
      }
    }
    verdict := LooksLikeMediaReference(Str(userMessage));
  }

  // ---------------------------------------------------------------------------
  // Concrete scans

  /** `{"type": "image_url"}` is a media payload. */
  method ImageUrlPartIsMedia() returns (found: bool)
    ensures found
  {
    var part := new Container(Dict([("type", Str("image_url"))]));
    found := ContainsMediaPayload(Ref(part), {part});
    assert Get(part.shape.entries, "type") == Some(Str("image_url"));
    assert Contains(Lower("image_url"), MediaTypeKeywords[0]) by {
      assert Lower("image_url")[0..][..5] == "image";
    }
    assert IsMediaNode(part);
    MediaNodeReaches(part, {part});
  }

  /** `{"type": "text", "text": "hello"}` is not. */
  method TextPartIsNotMedia() returns (found: bool)
    ensures !found
  {
    var part := new Container(Dict([("type", Str("text")), ("text", Str("hello"))]));
    found := ContainsMediaPayload(Ref(part), {part});
    HelloIsNotMedia();
    TextTypedDictIsNotMedia(part, "text", Str("hello"));
    assert Closed({part}) by {
      assert ChildrenIn(part, {part});
    }
  }

  /** A dict that contains itself: the scan terminates, and finds nothing. */
  method SelfReferentialDict() returns (found: bool)
    ensures !found
  {
    var d := new Container(Dict([]));
    d.shape := Dict([("type", Str("text")), ("self", Ref(d))]);
    found := ContainsMediaPayload(Ref(d), {d});
    TextTypedDictIsNotMedia(d, "self", Ref(d));
    assert Closed({d}) by {
      assert ChildrenIn(d, {d});
    }
  }

  /** A `text`-typed dict with one more entry, not a marker key and not a media reference, is not a media node. */
  lemma TextTypedDictIsNotMedia(c: Container, key: string, value: Value)
    requires c.shape == Dict([("type", Str("text")), (key, value)])
    requires key !in ["type"] + MimeKeys && !LooksLikeMediaReference(value)
    ensures !IsMediaNode(c)
  {
    var e := c.shape.entries;
    assert !HasMediaMarker(e) by {
      TextTypeNamesNoMedia(e);
      forall k | 0 <= k < |MimeKeys| ensures Get(e, MimeKeys[k]).None? {
        assert MimeKeys[k] in ["type"] + MimeKeys;
      }
    }
    TextIsNotMedia();
    var ch := Children(c.shape);
    assert ch == [Str("text"), value];
  }

  lemma TextTypeNamesNoMedia(e: seq<(string, Value)>)
    requires |e| > 0 && e[0] == ("type", Str("text"))
    ensures !TypeNamesMedia(e)
  {
    assert Get(e, "type") == Some(Str("text"));
    LowerOfLowercase("text");
    assert !Contains("text", "image") && !Contains("text", "video");
  }

  lemma TextIsNotMedia()
    ensures !LooksLikeMediaReference(Str("text"))
  {
    PlainWordIsNotMedia("text");
  }

  lemma HelloIsNotMedia()
    ensures !LooksLikeMediaReference(Str("hello"))
  {
    PlainWordIsNotMedia("hello");
  }
}
