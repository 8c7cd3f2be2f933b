/** `signManifest`: rewriting an HLS media playlist so that its segments are fetched
    through signed URLs. */
module Manifest {
  import opened Text
  import opened Paths
  import opened KeyLayout

  /** A line that names a file relative to the manifest: after trimming it is not blank,
      not a tag or comment, and not an absolute http(s) URL. */
  predicate Relative(raw: string) {
    var line := TrimSpace(raw);
    line != "" && !("#" <= line) && !("http://" <= line) && !("https://" <= line)
  }

  type Presigner = string -> Option<string>

  /** The key a relative line stands for. */
  function SegmentKey(baseDir: string, raw: string): string { PathJoin([baseDir, TrimSpace(raw)]) }

  function SignLine(presign: Presigner, baseDir: string, raw: string): Option<string> {
    if Relative(raw) then presign(SegmentKey(baseDir, raw)) else Some(raw)
  }

  /** The lines of a signed manifest, given that every presign succeeds. */
  predicate Signs(presign: Presigner, baseDir: string, lines: seq<string>, signed: seq<string>) {
    |signed| == |lines| && forall i :: 0 <= i < |lines| ==> SignLine(presign, baseDir, lines[i]) == Some(signed[i])
  }

  /** `out` is the manifest with every line signed. */
  ghost predicate SignedAs(presign: Presigner, baseDir: string, manifest: string, out: string) {
    exists signed :: Signs(presign, baseDir, Split(manifest, '\n'), signed) && out == Join(signed, '\n')
  }

  lemma Unsignable(presign: Presigner, baseDir: string, manifest: string, i: nat)
    requires i < |Split(manifest, '\n')| && SignLine(presign, baseDir, Split(manifest, '\n')[i]).None?
    ensures forall m :: !SignedAs(presign, baseDir, manifest, m)
  {
  }

  /** Line by line: blank lines, lines that start with a hash and absolute URLs stay as they
      are, and every other line becomes the signed URL of what it names in the directory. */
  predicate Rewritten(presign: Presigner, baseDir: string, before: seq<string>, after: seq<string>) {
    |after| == |before| && forall i :: 0 <= i < |before| ==>
      var line := TrimSpace(before[i]);
      if line == "" || "#" <= line || "http://" <= line || "https://" <= line then after[i] == before[i]
      else presign(PathJoin([baseDir, line])) == Some(after[i])
  }

  method SignManifest(presign: Presigner, baseDir: string, manifest: string) returns (out: Option<string>)
    ensures out.Some? ==> SignedAs(presign, baseDir, manifest, out.value)
    ensures out.None? ==> forall m :: !SignedAs(presign, baseDir, manifest, m)
    ensures out.Some? && UrlsOnOneLine(presign) ==>
      Rewritten(presign, baseDir, Split(manifest, '\n'), Split(out.value, '\n'))
    ensures out.None? ==>
      exists line :: line in Split(manifest, '\n') && presign(PathJoin([baseDir, TrimSpace(line)])).None?
  {
    var lines := Split(manifest, '\n');
    var signedLines, failed := SignLines(presign, baseDir, lines);
    if signedLines.None? {
      Unsignable(presign, baseDir, manifest, failed);
      assert lines[failed] in lines;
      return None;
    }
    out := Some(Join(signedLines.value, '\n'));
    assert SignedAs(presign, baseDir, manifest, out.value);
    if UrlsOnOneLine(presign) { SignedIsRewritten(presign, baseDir, manifest, out.value); }
  }

  /** Its loop, up to the first line that cannot be signed. */
  method SignLines(presign: Presigner, baseDir: string, lines: seq<string>)
    returns (signed: Option<seq<string>>, ghost failed: nat)
    ensures signed.Some? ==> Signs(presign, baseDir, lines, signed.value)
    ensures signed.None? ==> failed < |lines| && SignLine(presign, baseDir, lines[failed]).None?
    ensures signed.None? ==> presign(PathJoin([baseDir, TrimSpace(lines[failed])])).None?
  {
    var signedLines: seq<string> := [];
    var i := 0;
    failed := 0;
    while i < |lines|
      invariant 0 <= i <= |lines| && Signs(presign, baseDir, lines[..i], signedLines)
    {
      var line := TrimSpace(lines[i]);
      assert lines[..i + 1] == lines[..i] + [lines[i]];
      if line == "" || "#" <= line {
        signedLines := signedLines + [lines[i]];
      } else if "http://" <= line || "https://" <= line {
        signedLines := signedLines + [lines[i]];
      } else {
        var signedURL := presign(PathJoin([baseDir, line]));
        if signedURL.None? { return None, i; }
        signedLines := signedLines + [signedURL.value];
      }
      i := i + 1;
    }
    assert lines[..i] == lines;
    return Some(signedLines), failed;
  }

  predicate IsHttp(url: string) { "http://" <= url || "https://" <= url }

  /** What presigned URLs look like: absolute, on one line. */
  ghost predicate UrlsOnOneLine(presign: Presigner) {
    forall key :: presign(key).Some? ==> IsHttp(presign(key).value) && '\n' !in presign(key).value
  }

  lemma HttpIsNotRelative(url: string)
    requires IsHttp(url)
    ensures !Relative(url)
  {
    if "http://" <= url {
      TrimSpaceBelow("http://", url[7..]);
      assert "http://" + url[7..] == url;
    } else {
      TrimSpaceBelow("https://", url[8..]);
      assert "https://" + url[8..] == url;
    }
  }

  lemma HttpHasSlash(url: string)
    ensures IsHttp(url) ==> '/' in url
  {
    assert "http://" <= url ==> url[5] == '/';
    assert "https://" <= url ==> url[6] == '/';
  }

  /** The signed manifest, cut into lines again: as many lines, in the same order, each
      line byte for byte the old one unless it was relative. */
  lemma LinesSurvive(presign: Presigner, baseDir: string, manifest: string, out: string)
    requires UrlsOnOneLine(presign) && SignedAs(presign, baseDir, manifest, out)
    ensures var before, after := Split(manifest, '\n'), Split(out, '\n');
      && |after| == |before|
      && (forall i :: 0 <= i < |before| && !Relative(before[i]) ==> after[i] == before[i])
      && (forall i :: 0 <= i < |before| && Relative(before[i]) ==>
            presign(SegmentKey(baseDir, before[i])) == Some(after[i]) && !Relative(after[i]))
  {
    var lines := Split(manifest, '\n');
    var signed :| Signs(presign, baseDir, lines, signed) && out == Join(signed, '\n');
    SplitFree(manifest, '\n');
    forall i | 0 <= i < |signed| ensures '\n' !in signed[i] {
      assert SignLine(presign, baseDir, lines[i]) == Some(signed[i]);
    }
    SplitJoin(signed, '\n');
    forall i | 0 <= i < |lines| && Relative(lines[i]) ensures !Relative(signed[i]) {
      assert SignLine(presign, baseDir, lines[i]) == Some(signed[i]);
      HttpIsNotRelative(signed[i]);
    }
  }

  lemma SignedIsRewritten(presign: Presigner, baseDir: string, manifest: string, out: string)
    requires UrlsOnOneLine(presign) && SignedAs(presign, baseDir, manifest, out)
    ensures Rewritten(presign, baseDir, Split(manifest, '\n'), Split(out, '\n'))
  {
    LinesSurvive(presign, baseDir, manifest, out);
  }

  predicate NothingRelative(manifest: string) {
    forall i :: 0 <= i < |Split(manifest, '\n')| ==> !Relative(Split(manifest, '\n')[i])
  }

  /** A manifest without relative lines comes back unchanged. */
  lemma NothingToSign(presign: Presigner, baseDir: string, manifest: string, out: string)
    requires NothingRelative(manifest) && SignedAs(presign, baseDir, manifest, out)
    ensures out == manifest
  {
    var lines := Split(manifest, '\n');
    var signed :| Signs(presign, baseDir, lines, signed) && out == Join(signed, '\n');
    forall i | 0 <= i < |lines| ensures signed[i] == lines[i] {
      assert SignLine(presign, baseDir, lines[i]) == Some(signed[i]);
    }
    assert signed == lines;
    JoinSplit(manifest, '\n');
  }

  /** Signing is idempotent: signing a signed manifest, for any directory and with any
      presigner, changes nothing. */
  lemma SigningTwice(presign: Presigner, baseDir: string, manifest: string, once: string,
                     presign2: Presigner, baseDir2: string, twice: string)
    requires UrlsOnOneLine(presign) && SignedAs(presign, baseDir, manifest, once)
    requires SignedAs(presign2, baseDir2, once, twice)
    ensures twice == once
  {
    LinesSurvive(presign, baseDir, manifest, once);
    NothingToSign(presign2, baseDir2, once, twice);
  }

  /** Upload and playback agree. buildPlayback takes path.Dir of the manifest key as the
      base; a line that names a transcoder output file is then signed for exactly the key
      uploadHLSOutput wrote that file under. A trimmed file name is such a line unless it
      starts with '#'. */
  lemma SegmentKeyIsUploadKey(owner: string, id: string, file: string)
    requires Component(owner) && Component(id) && FileName(file) && Trimmed(file)
    ensures SegmentKey(Dir(ManifestKey(owner, id)), file) == HlsKey(owner, id, file)
    ensures Relative(file) <==> file[0] != '#'
  {
    TrimSpaceFixed(file);
    ManifestKeyIsUploaded(owner, id);
    HlsKeyIs(owner, id, "index.m3u8");
    HlsKeyIs(owner, id, file);
    DirPlain(owner, id);
    var dir := MediaDir(owner, id) + ["hls"];
    assert MediaDir(owner, id) + ["hls", "index.m3u8"] == dir + ["index.m3u8"];
    assert MediaDir(owner, id) + ["hls", file] == dir + [file];
    DirUndoesJoin(dir, "index.m3u8");
    PathJoinOnto(dir, file);
    HttpHasSlash(file);
  }

  /** Every relative line of a manifest that names transcoder outputs is replaced by a URL
      for the key of the very file it names. */
  lemma PlaybackFetchesUploads(presign: Presigner, owner: string, id: string, manifest: string, out: string, i: nat)
    requires Component(owner) && Component(id) && UrlsOnOneLine(presign)
    requires SignedAs(presign, Dir(ManifestKey(owner, id)), manifest, out)
    requires i < |Split(manifest, '\n')| && Relative(Split(manifest, '\n')[i])
    requires FileName(TrimSpace(Split(manifest, '\n')[i]))
    ensures i < |Split(out, '\n')|
    ensures presign(HlsKey(owner, id, TrimSpace(Split(manifest, '\n')[i]))) == Some(Split(out, '\n')[i])
  {
    var file := TrimSpace(Split(manifest, '\n')[i]);
    TrimSpaceFixed(Split(manifest, '\n')[i]);
    TrimSpaceFixed(file);
    LinesSurvive(presign, Dir(ManifestKey(owner, id)), manifest, out);
    SegmentKeyIsUploadKey(owner, id, file);
  }
}
