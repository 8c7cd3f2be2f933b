/** The layout of object keys. Uploads, the transcoder and playback build keys with
    path.Join; the sweeper parses them back. The results here say when the two agree. */
module KeyLayout {
  import opened Text
  import opened Paths

  /** What an owner id (a UUID) and a media id ("media_" and hex digits) look like:
      one path component that trimming leaves alone. */
  predicate Component(c: string) { Plain(c) && Trimmed(c) }

  function MediaDir(owner: string, id: string): seq<string> { ["users", owner, "media", id] }

  /** The prefix DeleteMedia removes. */
  function MediaPrefix(owner: string, id: string): string { PathJoin(MediaDir(owner, id)) + "/" }

  function SpacesToUnderscores(s: string): (r: string)
    ensures |r| == |s|
    ensures forall i :: 0 <= i < |s| ==> r[i] == if s[i] == ' ' then '_' else s[i]
  {
    if s == "" then "" else [if s[0] == ' ' then '_' else s[0]] + SpacesToUnderscores(s[1..])
  }

  function SanitizeFilename(name: string): string {
    var safe := Base(TrimSpace(name));
    if safe == "" || safe == "." || safe == "/" then "file" else SpacesToUnderscores(safe)
  }

  function OriginalKey(owner: string, id: string, fileName: string): string {
    PathJoin(["users", owner, "media", id, "original", SanitizeFilename(fileName)])
  }

  function HlsDir(owner: string, id: string): string { PathJoin(["users", owner, "media", id, "hls"]) }

  /** The key uploadHLSOutput writes a transcoder output file under. */
  function HlsKey(owner: string, id: string, fileName: string): string {
    PathJoin([HlsDir(owner, id), fileName])
  }

  function PreviewKey(owner: string, id: string): string {
    PathJoin(["users", owner, "media", id, "preview", "preview.jpg"])
  }

  /** The key buildPlayback reads the manifest from. */
  function ManifestKey(owner: string, id: string): string {
    PathJoin(["users", owner, "media", id, "hls", "index.m3u8"])
  }

  datatype MediaRef = MediaRef(id: string, prefix: string)

  function ExtractMediaPrefix(key: string): Option<MediaRef> {
    var parts := Split(TrimSlashes(TrimSpace(key)), '/');
    if |parts| < 4 then None
    else if parts[0] != "users" || parts[2] != "media" then None
    else if TrimSpace(parts[1]) == "" || TrimSpace(parts[3]) == "" then None
    else Some(MediaRef(parts[3], PathJoin(parts[..4]) + "/"))
  }

  // ---- building and parsing agree ------------------------------------------------

  lemma DirPlain(owner: string, id: string)
    requires Component(owner) && Component(id)
    ensures AllPlain(MediaDir(owner, id))
    ensures MediaPrefix(owner, id) == Join(MediaDir(owner, id), '/') + "/"
    ensures Split(Join(MediaDir(owner, id), '/'), '/') == MediaDir(owner, id)
    ensures TrimSpace(owner) != "" && TrimSpace(id) != ""
  {
    PathJoinPlain(MediaDir(owner, id));
    SplitJoined(MediaDir(owner, id));
    TrimSpaceFixed(owner);
    TrimSpaceFixed(id);
  }

  lemma DirEnds(owner: string, id: string)
    requires Component(owner) && Component(id)
    ensures var d := Join(MediaDir(owner, id), '/');
            d != "" && d[0] == 'u' && d[|d| - 1] == id[|id| - 1] && !IsSlash(id[|id| - 1])
  {
    JoinCut(["users", owner, "media"], [id], '/');
    assert ["users", owner, "media"] + [id] == MediaDir(owner, id);
    JoinHead(MediaDir(owner, id), '/');
    assert id[|id| - 1] in id;
  }

  lemma TrimSlashesBelow(d: string, rest: string)
    requires d != "" && !IsSlash(d[0]) && !IsSlash(d[|d| - 1])
    ensures TrimSlashes(d + rest) == d + TrimRight(rest, IsSlash)
  {
    assert (d + rest)[0] == d[0];
    TrimRightKeeps(d, rest, IsSlash);
  }

  /** What the two trims leave of a key below a media directory. */
  lemma TrimmedBelowDir(owner: string, id: string, rest: string) returns (tail: string)
    requires Component(owner) && Component(id)
    ensures tail == "" || tail[0] == '/'
    ensures TrimSlashes(TrimSpace(MediaPrefix(owner, id) + rest)) == Join(MediaDir(owner, id), '/') + tail
    ensures MediaPrefix(owner, id) <= TrimSpace(MediaPrefix(owner, id) + rest)
  {
    DirPlain(owner, id);
    DirEnds(owner, id);
    tail := TrimsBelow(Join(MediaDir(owner, id), '/'), MediaPrefix(owner, id), rest);
  }

  lemma TrimsBelow(d: string, p: string, rest: string) returns (tail: string)
    requires d != "" && p == d + "/" && d[0] == 'u' && !IsSlash(d[|d| - 1])
    ensures tail == "" || tail[0] == '/'
    ensures TrimSlashes(TrimSpace(p + rest)) == d + tail && p <= TrimSpace(p + rest)
  {
    TrimSpaceBelow(p, rest);
    var r := "/" + TrimRight(rest, IsSpace);
    assert p + TrimRight(rest, IsSpace) == d + r;
    TrimSlashesBelow(d, r);
    tail := TrimRight(r, IsSlash);
  }

  lemma ExtractFrom(owner: string, id: string, key: string, tail: string)
    requires Component(owner) && Component(id)
    requires TrimSlashes(TrimSpace(key)) == Join(MediaDir(owner, id), '/') + tail
    requires tail == "" || tail[0] == '/'
    ensures ExtractMediaPrefix(key) == Some(MediaRef(id, MediaPrefix(owner, id)))
  {
    DirPlain(owner, id);
    FirstPieces(Join(MediaDir(owner, id), '/'), tail, MediaDir(owner, id));
    var parts := Split(Join(MediaDir(owner, id), '/') + tail, '/');
    assert parts[..4] == MediaDir(owner, id);
    assert parts[0] == parts[..4][0] && parts[1] == parts[..4][1]
        && parts[2] == parts[..4][2] && parts[3] == parts[..4][3];
  }

  lemma FirstPieces(d: string, tail: string, dir: seq<string>)
    requires Split(d, '/') == dir && (tail == "" || tail[0] == '/')
    ensures |dir| <= |Split(d + tail, '/')| && Split(d + tail, '/')[..|dir|] == dir
  {
    if tail == "" {
      assert d + tail == d;
    } else {
      SplitCut(d, tail[1..], '/');
      assert d + ['/'] + tail[1..] == d + tail;
    }
  }

  /** Whatever follows a media prefix, the parser recovers that very prefix and id. */
  lemma ExtractBelowPrefix(owner: string, id: string, key: string)
    requires Component(owner) && Component(id)
    requires MediaPrefix(owner, id) <= key
    ensures ExtractMediaPrefix(key) == Some(MediaRef(id, MediaPrefix(owner, id)))
  {
    var rest := key[|MediaPrefix(owner, id)|..];
    assert key == MediaPrefix(owner, id) + rest;
    var tail := TrimmedBelowDir(owner, id, rest);
    ExtractFrom(owner, id, key, tail);
  }

  /** Trimming a key never takes it out of its media prefix. */
  lemma TrimStaysBelowPrefix(owner: string, id: string, key: string)
    requires Component(owner) && Component(id)
    requires MediaPrefix(owner, id) <= key
    ensures MediaPrefix(owner, id) <= TrimSpace(key)
  {
    var rest := key[|MediaPrefix(owner, id)|..];
    assert key == MediaPrefix(owner, id) + rest;
    var _ := TrimmedBelowDir(owner, id, rest);
  }

  /** Prefixes of different media claim disjoint sets of keys. */
  lemma PrefixesDisjoint(o1: string, i1: string, o2: string, i2: string, key: string)
    requires Component(o1) && Component(i1) && Component(o2) && Component(i2)
    requires MediaPrefix(o1, i1) <= key && MediaPrefix(o2, i2) <= key
    ensures o1 == o2 && i1 == i2
  {
    ExtractBelowPrefix(o1, i1, key);
    ExtractBelowPrefix(o2, i2, key);
    PrefixInjective(o1, i1, o2, i2);
  }

  lemma PrefixInjective(o1: string, i1: string, o2: string, i2: string)
    requires Component(o1) && Component(i1) && Component(o2) && Component(i2)
    requires MediaPrefix(o1, i1) == MediaPrefix(o2, i2)
    ensures o1 == o2 && i1 == i2
  {
    DirPlain(o1, i1);
    DirPlain(o2, i2);
    var d1, d2 := Join(MediaDir(o1, i1), '/'), Join(MediaDir(o2, i2), '/');
    assert d1 == (d1 + "/")[..|d1|] == d2;
    assert MediaDir(o1, i1)[1] == MediaDir(o2, i2)[1];
    assert MediaDir(o1, i1)[3] == MediaDir(o2, i2)[3];
  }

  // ---- the keys the service writes -------------------------------------------------

  lemma KeyUnderDir(owner: string, id: string, below: seq<string>)
    requires Component(owner) && Component(id) && |below| > 0 && AllPlain(below)
    ensures PathJoin(MediaDir(owner, id) + below) == MediaPrefix(owner, id) + Join(below, '/')
  {
    DirPlain(owner, id);
    PathJoinPlain(MediaDir(owner, id) + below);
    JoinCut(MediaDir(owner, id), below, '/');
  }

  /** A file name the transcoder's output directory can list. */
  predicate FileName(f: string) { Plain(f) }

  lemma HlsKeyIs(owner: string, id: string, f: string)
    requires Component(owner) && Component(id) && FileName(f)
    ensures HlsKey(owner, id, f) == MediaPrefix(owner, id) + Join(["hls", f], '/')
    ensures HlsKey(owner, id, f) == Join(MediaDir(owner, id) + ["hls", f], '/')
  {
    var dir := MediaDir(owner, id) + ["hls"];
    assert ["users", owner, "media", id, "hls"] == dir;
    DirPlain(owner, id);
    PathJoinPlain(dir);
    PathJoinOnto(dir, f);
    assert dir + [f] == MediaDir(owner, id) + ["hls", f];
    JoinCut(MediaDir(owner, id), ["hls", f], '/');
  }

  lemma PreviewKeyIs(owner: string, id: string)
    requires Component(owner) && Component(id)
    ensures PreviewKey(owner, id) == MediaPrefix(owner, id) + Join(["preview", "preview.jpg"], '/')
  {
    assert ["users", owner, "media", id, "preview", "preview.jpg"] == MediaDir(owner, id) + ["preview", "preview.jpg"];
    KeyUnderDir(owner, id, ["preview", "preview.jpg"]);
  }

  /** Playback looks for the manifest where the transcoder put index.m3u8. */
  lemma ManifestKeyIsUploaded(owner: string, id: string)
    requires Component(owner) && Component(id)
    ensures ManifestKey(owner, id) == HlsKey(owner, id, "index.m3u8")
  {
    HlsKeyIs(owner, id, "index.m3u8");
    DirPlain(owner, id);
    assert ["users", owner, "media", id, "hls", "index.m3u8"] == MediaDir(owner, id) + ["hls", "index.m3u8"];
    PathJoinPlain(MediaDir(owner, id) + ["hls", "index.m3u8"]);
  }

  /** Every transcoder output and the preview lie under the prefix DeleteMedia removes
      and the sweeper parses out of them. */
  lemma OutputKeysRoundTrip(owner: string, id: string, f: string)
    requires Component(owner) && Component(id) && FileName(f)
    ensures MediaPrefix(owner, id) <= HlsKey(owner, id, f)
    ensures MediaPrefix(owner, id) <= PreviewKey(owner, id)
    ensures ExtractMediaPrefix(HlsKey(owner, id, f)) == Some(MediaRef(id, MediaPrefix(owner, id)))
    ensures ExtractMediaPrefix(PreviewKey(owner, id)) == Some(MediaRef(id, MediaPrefix(owner, id)))
  {
    HlsKeyIs(owner, id, f);
    PreviewKeyIs(owner, id);
    ExtractBelowPrefix(owner, id, HlsKey(owner, id, f));
    ExtractBelowPrefix(owner, id, PreviewKey(owner, id));
  }

  /** A sanitised name is a plain component, or it is "..". */
  lemma SanitizedShape(name: string)
    ensures Plain(SanitizeFilename(name)) || SanitizeFilename(name) == ".."
    ensures SanitizeFilename(name) == ".." <==> Base(TrimSpace(name)) == ".."
  {
    var b := Base(TrimSpace(name));
    BaseShape(TrimSpace(name));
    var s := SanitizeFilename(name);
    assert b != "" && b != "." && b != "/" ==> s == SpacesToUnderscores(b);
  }

  lemma OriginalKeyPlain(owner: string, id: string, name: string)
    requires Component(owner) && Component(id) && Plain(SanitizeFilename(name))
    ensures OriginalKey(owner, id, name)
         == MediaPrefix(owner, id) + Join(["original", SanitizeFilename(name)], '/')
  {
    var below := ["original", SanitizeFilename(name)];
    assert ["users", owner, "media", id, "original", SanitizeFilename(name)] == MediaDir(owner, id) + below;
    KeyUnderDir(owner, id, below);
  }

  lemma OriginalKeyDotDot(owner: string, id: string, name: string)
    requires Component(owner) && Component(id) && SanitizeFilename(name) == ".."
    ensures OriginalKey(owner, id, name) == Join(MediaDir(owner, id), '/')
  {
    assert ["users", owner, "media", id, "original", ".."] == MediaDir(owner, id) + ["original", ".."];
    DirPlain(owner, id);
    DotDotCollapses(MediaDir(owner, id), "original");
  }

  lemma MediaDirItselfParses(owner: string, id: string)
    requires Component(owner) && Component(id)
    ensures ExtractMediaPrefix(Join(MediaDir(owner, id), '/')) == Some(MediaRef(id, MediaPrefix(owner, id)))
  {
    var d := Join(MediaDir(owner, id), '/');
    DirEnds(owner, id);
    TrimSpaceFixed(d);
    assert d + "" == d;
    ExtractFrom(owner, id, d, "");
  }

  /** Every upload key parses to its media, but it lies under the prefix that deletion
      and the sweeper remove exactly when the base name is not "..": for "..", path.Join
      collapses the key to the media directory itself. */
  lemma OriginalKeyRoundTrip(owner: string, id: string, name: string)
    requires Component(owner) && Component(id)
    ensures ExtractMediaPrefix(OriginalKey(owner, id, name)) == Some(MediaRef(id, MediaPrefix(owner, id)))
    ensures MediaPrefix(owner, id) <= OriginalKey(owner, id, name) <==> Base(TrimSpace(name)) != ".."
    ensures Base(TrimSpace(name)) == ".." ==> OriginalKey(owner, id, name) + "/" == MediaPrefix(owner, id)
  {
    SanitizedShape(name);
    DirPlain(owner, id);
    if SanitizeFilename(name) == ".." {
      OriginalKeyDotDot(owner, id, name);
      MediaDirItselfParses(owner, id);
    } else {
      OriginalKeyPlain(owner, id, name);
      ExtractBelowPrefix(owner, id, OriginalKey(owner, id, name));
    }
  }

  /** An uploaded original never lands on a transcoder output key. */
  lemma OriginalIsNotOutput(owner: string, id: string, name: string, f: string)
    requires Component(owner) && Component(id) && FileName(f)
    ensures OriginalKey(owner, id, name) != HlsKey(owner, id, f)
    ensures OriginalKey(owner, id, name) != PreviewKey(owner, id)
  {
    SanitizedShape(name);
    DirPlain(owner, id);
    HlsKeyIs(owner, id, f);
    PreviewKeyIs(owner, id);
    var n := |MediaPrefix(owner, id)|;
    assert HlsKey(owner, id, f)[n] == 'h';
    assert PreviewKey(owner, id)[n] == 'p';
    if SanitizeFilename(name) == ".." {
      OriginalKeyDotDot(owner, id, name);
    } else {
      OriginalKeyPlain(owner, id, name);
      assert OriginalKey(owner, id, name)[n] == 'o';
    }
  }

  // ---- what keys look like ---------------------------------------------------------

  lemma FourJoined(a: string, b: string, c: string, d: string)
    ensures Join([a, b, c, d], '/') == a + "/" + b + "/" + c + "/" + d
  {
    TwoJoined(a, b);
    TwoJoined(c, d);
    JoinCut([a, b], [c, d], '/');
    assert [a, b] + [c, d] == [a, b, c, d];
  }

  lemma TwoJoined(a: string, b: string)
    ensures Join([a, b], '/') == a + "/" + b
  {
    JoinCut([a], [b], '/');
    assert [a] + [b] == [a, b];
  }

  lemma DirSpelled(owner: string, id: string)
    ensures Join(["users", owner, "media", id], '/') == "users/" + owner + "/media/" + id
  {
    FourJoined("users", owner, "media", id);
    assert "users" + "/" == "users/" && "/" + "media" + "/" == "/media/";
    Regrouped6("users", "/", owner, "/", "media", "/", id);
  }

  lemma Regrouped6(a: string, b: string, c: string, d: string, e: string, f: string, g: string)
    ensures a + b + c + d + e + f + g == (a + b) + c + (d + e + f) + g
  {
  }

  lemma BelowSpelled(p: string, a: string, b: string)
    ensures p + Join([a, b], '/') == p + (a + "/" + b)
  {
    TwoJoined(a, b);
  }

  /** Every key, spelled out. */
  lemma KeysAre(owner: string, id: string, f: string, name: string)
    requires Component(owner) && Component(id) && FileName(f)
    ensures var dir := "users/" + owner + "/media/" + id + "/";
      && MediaPrefix(owner, id) == dir && HlsKey(owner, id, f) == dir + ("hls" + "/" + f)
      && ManifestKey(owner, id) == dir + ("hls" + "/" + "index.m3u8")
      && PreviewKey(owner, id) == dir + ("preview" + "/" + "preview.jpg")
      && (Plain(SanitizeFilename(name)) ==>
        OriginalKey(owner, id, name) == dir + ("original" + "/" + SanitizeFilename(name)))
  {
    PrefixSpelled(owner, id);
    var dir := MediaPrefix(owner, id);
    HlsKeyIs(owner, id, f);
    BelowSpelled(dir, "hls", f);
    ManifestKeyIsUploaded(owner, id);
    HlsKeyIs(owner, id, "index.m3u8");
    BelowSpelled(dir, "hls", "index.m3u8");
    PreviewKeyIs(owner, id);
    BelowSpelled(dir, "preview", "preview.jpg");
    if Plain(SanitizeFilename(name)) {
      OriginalKeyPlain(owner, id, name);
      BelowSpelled(dir, "original", SanitizeFilename(name));
    }
  }

  lemma PrefixSpelled(owner: string, id: string)
    requires Component(owner) && Component(id)
    ensures MediaPrefix(owner, id) == "users/" + owner + "/media/" + id + "/"
  {
    DirPlain(owner, id);
    DirSpelled(owner, id);
  }

  /** A sanitised name is the base name with underscores for blanks, and "file" if that is a
      dot or a slash. */
  lemma SanitizedIs(name: string)
    ensures var base, safe := Base(TrimSpace(name)), SanitizeFilename(name);
      && (base == "." || base == "/" ==> safe == "file")
      && (base != "." && base != "/" ==>
        |safe| == |base| && forall i :: 0 <= i < |base| ==> safe[i] == if base[i] == ' ' then '_' else base[i])
  {
    BaseShape(TrimSpace(name));
  }

  /** Exactly what the parser accepts: four components or more, of which the first is "users",
      the third "media", and neither of the other two blank. */
  lemma ExtractIff(key: string, owner: string, id: string, tail: string)
    requires TrimSlashes(TrimSpace(key)) == "users/" + owner + "/media/" + id + tail
    requires '/' !in owner && '/' !in id && (tail == "" || tail[0] == '/')
    ensures ExtractMediaPrefix(key) ==
      if TrimSpace(owner) == "" || TrimSpace(id) == "" then None
      else Some(MediaRef(id, PathJoin(["users", owner, "media", id]) + "/"))
  {
    var dir := ["users", owner, "media", id];
    DirSpelled(owner, id);
    assert Free(dir, '/');
    SplitJoin(dir, '/');
    FirstPieces(Join(dir, '/'), tail, dir);
    var parts := Split(Join(dir, '/') + tail, '/');
    assert parts[0] == parts[..4][0] && parts[1] == parts[..4][1]
        && parts[2] == parts[..4][2] && parts[3] == parts[..4][3];
  }

  lemma ExtractOnlyIf(key: string) returns (owner: string, tail: string)
    ensures var ref := ExtractMediaPrefix(key); ref.Some? ==>
      && TrimSlashes(TrimSpace(key)) == "users/" + owner + "/media/" + ref.value.id + tail
      && '/' !in owner && '/' !in ref.value.id && (tail == "" || tail[0] == '/')
  {
    owner, tail := "", "";
    if ExtractMediaPrefix(key).Some? {
      var t := TrimSlashes(TrimSpace(key));
      var parts := Split(t, '/');
      JoinSplit(t, '/');
      SplitFree(t, '/');
      owner := parts[1];
      DirSpelled(parts[1], parts[3]);
      assert parts[..4] == ["users", parts[1], "media", parts[3]];
      tail := JoinedFront(parts, 4);
    }
  }

  lemma JoinedFront(parts: seq<string>, n: nat) returns (tail: string)
    requires 0 < n <= |parts|
    ensures Join(parts, '/') == Join(parts[..n], '/') + tail && (tail == "" || tail[0] == '/')
  {
    if n == |parts| {
      assert parts[..n] == parts;
      tail := "";
    } else {
      JoinCut(parts[..n], parts[n..], '/');
      assert parts[..n] + parts[n..] == parts;
      tail := "/" + Join(parts[n..], '/');
    }
  }

  // ---- canonical keys ---------------------------------------------------------------

  /** A key that lies in a media directory of canonical components, or does not look
      like a media key at all. Every key the service builds is one. */
  predicate InMediaDir(key: string, owner: string, id: string) {
    && Component(owner) && Component(id)
    && (key == Join(MediaDir(owner, id), '/') || MediaPrefix(owner, id) <= key)
  }

  ghost predicate Canonical(key: string) {
    ExtractMediaPrefix(key).Some? ==> exists owner, id :: InMediaDir(key, owner, id)
  }

  lemma InMediaDirParses(key: string, owner: string, id: string)
    requires InMediaDir(key, owner, id)
    ensures ExtractMediaPrefix(key) == Some(MediaRef(id, MediaPrefix(owner, id)))
    ensures ExtractMediaPrefix(TrimSpace(key)) == Some(MediaRef(id, MediaPrefix(owner, id)))
    ensures "users/" <= key
  {
    MediaPrefixShape(owner, id);
    if MediaPrefix(owner, id) <= key {
      TrimStaysBelowPrefix(owner, id, key);
      ExtractBelowPrefix(owner, id, key);
      ExtractBelowPrefix(owner, id, TrimSpace(key));
    } else {
      MediaDirItselfParses(owner, id);
      DirEnds(owner, id);
      TrimSpaceFixed(key);
    }
  }

  lemma MediaPrefixShape(owner: string, id: string)
    requires Component(owner) && Component(id)
    ensures "users/" <= Join(MediaDir(owner, id), '/') <= MediaPrefix(owner, id)
    ensures TrimSpace(MediaPrefix(owner, id)) == MediaPrefix(owner, id) && TrimSpace(id) != ""
  {
    DirPlain(owner, id);
    DirEnds(owner, id);
    JoinCut(["users"], [owner, "media", id], '/');
    assert ["users"] + [owner, "media", id] == MediaDir(owner, id);
    TrimSpaceFixed(MediaPrefix(owner, id));
  }

  /** Upload, transcoder and preview keys are canonical. */
  lemma BuiltKeysCanonical(owner: string, id: string, name: string, f: string)
    requires Component(owner) && Component(id) && FileName(f)
    ensures InMediaDir(OriginalKey(owner, id, name), owner, id)
    ensures InMediaDir(HlsKey(owner, id, f), owner, id) && InMediaDir(PreviewKey(owner, id), owner, id)
  {
    SanitizedShape(name);
    if SanitizeFilename(name) == ".." {
      OriginalKeyDotDot(owner, id, name);
    } else {
      OriginalKeyPlain(owner, id, name);
    }
    OutputKeysRoundTrip(owner, id, f);
  }
}
