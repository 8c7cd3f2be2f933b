/** Go's `path` package as the service uses it: Clean, Join, Dir, and `filepath.Base`
    on a Unix host. Clean is given by its effect on the components of the path. */
module Paths {
  import opened Text

  /** The components left after "." and empty ones are dropped and each ".." has
      removed the component before it. */
  function CleanParts(parts: seq<string>, rooted: bool): seq<string> {
    if parts == [] then []
    else
      var out := CleanParts(parts[..|parts| - 1], rooted);
      var p := parts[|parts| - 1];
      if p == "" || p == "." then out
      else if p != ".." then out + [p]
      else if out != [] && out[|out| - 1] != ".." then out[..|out| - 1]
      else if rooted then out
      else out + [p]
  }

  function Clean(p: string): string {
    if p == "" then "."
    else
      var rooted := p[0] == '/';
      var body := Join(CleanParts(Split(p, '/'), rooted), '/');
      if rooted then "/" + body else if body == "" then "." else body
  }

  function DropEmpty(elems: seq<string>): seq<string> {
    if elems != [] && elems[0] == "" then DropEmpty(elems[1..]) else elems
  }

  /** `path.Join` (and `filepath.Join` on Unix). */
  function PathJoin(elems: seq<string>): string {
    var rest := DropEmpty(elems);
    if rest == [] then "" else Clean(Join(rest, '/'))
  }

  function UpToLastSlash(p: string): (r: string)
    ensures r <= p
  {
    if p == "" || p[|p| - 1] == '/' then p else UpToLastSlash(p[..|p| - 1])
  }

  /** `path.Dir`. */
  function Dir(p: string): string { Clean(UpToLastSlash(p)) }

  function StripTrailing(p: string): string {
    if p != "" && p[|p| - 1] == '/' then StripTrailing(p[..|p| - 1]) else p
  }

  /** `filepath.Base`. */
  function Base(p: string): string {
    if p == "" then "."
    else
      var s := StripTrailing(p);
      if s == "" then "/" else s[|UpToLastSlash(s)|..]
  }

  // ---- components ----------------------------------------------------------------

  /** A path component that Clean leaves alone. */
  predicate Plain(c: string) { c != "" && c != "." && c != ".." && '/' !in c }

  predicate AllPlain(parts: seq<string>) { forall i :: 0 <= i < |parts| ==> Plain(parts[i]) }

  lemma {:induction false} CleanPlain(parts: seq<string>, rooted: bool)
    requires AllPlain(parts)
    ensures CleanParts(parts, rooted) == parts
  {
    if parts != [] {
      CleanPlain(parts[..|parts| - 1], rooted);
    }
  }

  lemma {:induction false} JoinHead(parts: seq<string>, sep: char)
    requires |parts| > 0 && parts[0] != ""
    ensures Join(parts, sep) != "" && Join(parts, sep)[0] == parts[0][0]
  {
  }

  lemma {:induction false} SplitJoined(parts: seq<string>)
    requires |parts| > 0 && AllPlain(parts)
    ensures Split(Join(parts, '/'), '/') == parts
  {
    assert Free(parts, '/') by {
      forall i | 0 <= i < |parts| ensures '/' !in parts[i] { assert Plain(parts[i]); }
    }
    SplitJoin(parts, '/');
  }

  /** Clean on a relative path, from the components its pieces reduce to. */
  lemma CleanRelative(p: string, pieces: seq<string>, parts: seq<string>)
    requires p != "" && p[0] != '/' && Split(p, '/') == pieces
    requires CleanParts(pieces, false) == parts && |parts| > 0 && parts[0] != ""
    ensures Clean(p) == Join(parts, '/')
  {
    JoinHead(parts, '/');
  }

  /** Clean does not touch a relative path of plain components. */
  lemma {:induction false} CleanJoined(parts: seq<string>)
    requires |parts| > 0 && AllPlain(parts)
    ensures Clean(Join(parts, '/')) == Join(parts, '/')
  {
    assert Plain(parts[0]);
    JoinHead(parts, '/');
    SplitJoined(parts);
    CleanPlain(parts, false);
    CleanRelative(Join(parts, '/'), parts, parts);
  }

  /** path.Join of plain components is their plain concatenation with slashes. */
  lemma {:induction false} PathJoinPlain(parts: seq<string>)
    requires |parts| > 0 && AllPlain(parts)
    ensures PathJoin(parts) == Join(parts, '/')
  {
    CleanJoined(parts);
  }

  /** Joining one more component onto an already joined directory. */
  lemma {:induction false} PathJoinOnto(dir: seq<string>, name: string)
    requires |dir| > 0 && AllPlain(dir) && Plain(name)
    ensures PathJoin([Join(dir, '/'), name]) == Join(dir + [name], '/')
  {
    JoinHead(dir, '/');
    JoinCut(dir, [name], '/');
    assert Join([Join(dir, '/'), name], '/') == Join(dir + [name], '/') by {
      assert [Join(dir, '/'), name][1..] == [name];
    }
    CleanJoined(dir + [name]);
  }

  lemma {:induction false} UpToSlash(a: string, name: string)
    requires '/' !in name
    ensures UpToLastSlash(a + "/" + name) == a + "/"
  {
    var p := a + "/" + name;
    if name != "" {
      assert p[..|p| - 1] == a + "/" + name[..|name| - 1];
      UpToSlash(a, name[..|name| - 1]);
    }
  }

  /** path.Dir undoes the last component that path.Join added. */
  lemma {:induction false} DirUndoesJoin(dir: seq<string>, name: string)
    requires |dir| > 0 && AllPlain(dir) && Plain(name)
    ensures Dir(Join(dir + [name], '/')) == Join(dir, '/')
  {
    JoinCut(dir, [name], '/');
    JoinHead(dir, '/');
    UpToSlash(Join(dir, '/'), name);
    var d := Join(dir, '/') + "/";
    assert d == Join(dir, '/') + ['/'] + "";
    SplitCut(Join(dir, '/'), "", '/');
    SplitJoined(dir);
    assert Plain(dir[0]);
    assert Split(d, '/') == dir + [""];
    assert CleanParts(dir + [""], false) == dir by {
      assert (dir + [""])[..|dir|] == dir;
      CleanPlain(dir, false);
    }
    CleanRelative(d, dir + [""], dir);
  }

  /** A ".." at the end takes the component before it with it. */
  lemma {:induction false} DotDotCollapses(dir: seq<string>, last: string)
    requires |dir| > 0 && AllPlain(dir) && Plain(last)
    ensures PathJoin(dir + [last, ".."]) == Join(dir, '/')
  {
    var parts := dir + [last, ".."];
    assert Plain(dir[0]);
    JoinHead(parts, '/');
    assert Split(Join(parts, '/'), '/') == parts by { SplitJoin(parts, '/'); }
    assert CleanParts(parts, false) == dir by {
      assert parts[..|parts| - 1] == dir + [last];
      CleanPlain(dir + [last], false);
      assert (dir + [last])[..|dir|] == dir;
    }
    CleanRelative(Join(parts, '/'), parts, dir);
  }

  // ---- the laws of Clean -----------------------------------------------------------

  /** Reducing a longer list reduces its front first. */
  lemma {:induction false} CleanOnward(a: seq<string>, b: seq<string>, more: seq<string>, rooted: bool)
    requires CleanParts(a, rooted) == CleanParts(b, rooted)
    ensures CleanParts(a + more, rooted) == CleanParts(b + more, rooted)
  {
    if more == [] {
      assert a + more == a && b + more == b;
    } else {
      var n := |more| - 1;
      CleanOnward(a, b, more[..n], rooted);
      SameLast(a, more);
      SameLast(b, more);
    }
  }

  lemma SameLast(a: seq<string>, more: seq<string>)
    requires more != []
    ensures var all, n := a + more, |more| - 1;
      all != [] && all[..|all| - 1] == a + more[..n] && all[|all| - 1] == more[n]
  {
  }

  /** Empty components and "." drop out wherever they are; a component followed by ".." goes
      with it; and at the root ".." leads nowhere. */
  lemma CleanLaws(a: seq<string>, x: string, b: seq<string>, rooted: bool)
    ensures CleanParts(a + [""] + b, rooted) == CleanParts(a + b, rooted)
    ensures CleanParts(a + ["."] + b, rooted) == CleanParts(a + b, rooted)
    ensures Plain(x) ==> CleanParts(a + [x, ".."] + b, rooted) == CleanParts(a + b, rooted)
    ensures CleanParts([".."] + b, true) == CleanParts(b, true)
  {
    assert (a + [""])[..|a|] == a && (a + ["."])[..|a|] == a;
    CleanOnward(a + [""], a, b, rooted);
    CleanOnward(a + ["."], a, b, rooted);
    if Plain(x) {
      assert (a + [x, ".."])[..|a| + 1] == a + [x] && (a + [x])[..|a|] == a;
      assert CleanParts(a + [x], rooted) == CleanParts(a, rooted) + [x];
      CleanOnward(a + [x, ".."], a, b, rooted);
    }
    assert [".."][..0] == [] && CleanParts([".."], true) == [];
    CleanOnward([".."], [], b, true);
    assert [] + b == b;
  }

  /** What is left when none of these applies is left alone: plain components, after any number
      of ".." on a relative path. Together with the laws this determines Clean. */
  lemma {:induction false} CleanNormal(ups: seq<string>, parts: seq<string>)
    requires AllPlain(parts) && forall i :: 0 <= i < |ups| ==> ups[i] == ".."
    ensures CleanParts(ups + parts, false) == ups + parts
  {
    if parts != [] {
      var n := |parts| - 1;
      CleanNormal(ups, parts[..n]);
      assert (ups + parts)[..|ups + parts| - 1] == ups + parts[..n];
      assert ups + parts[..n] + [parts[n]] == ups + parts;
    } else if ups != [] {
      var n := |ups| - 1;
      CleanNormal(ups[..n], []);
      assert ups[..n] + [] == ups[..n] && ups + [] == ups;
      assert ups[..n] + [ups[n]] == ups;
    }
  }

  /** Clean on a rooted path, from the components its pieces reduce to. */
  lemma CleanFromRoot(p: string, pieces: seq<string>, parts: seq<string>)
    requires p != "" && p[0] == '/' && Split(p, '/') == pieces && CleanParts(pieces, true) == parts
    ensures Clean(p) == "/" + Join(parts, '/')
  {
  }

  lemma RootedPieces(parts: seq<string>)
    requires |parts| > 0 && AllPlain(parts)
    ensures Split("/" + Join(parts, '/'), '/') == [""] + parts
    ensures CleanParts([""] + parts, true) == parts
  {
    SplitJoined(parts);
    SplitFront(Join(parts, '/'));
    EmptyFirst(parts);
    CleanPlain(parts, true);
  }

  lemma EmptyFirst(parts: seq<string>)
    ensures CleanParts([""] + parts, true) == CleanParts(parts, true)
  {
    assert [""][..0] == [];
    CleanOnward([""], [], parts, true);
    assert [] + parts == parts;
  }

  lemma SplitFront(p: string)
    ensures Split("/" + p, '/') == [""] + Split(p, '/')
  {
    assert ("/" + p)[1..] == p;
    SplitHead("/" + p, '/');
  }

  /** Clean does not touch a rooted path of plain components. */
  lemma CleanRooted(parts: seq<string>)
    requires |parts| > 0 && AllPlain(parts)
    ensures Clean("/" + Join(parts, '/')) == "/" + Join(parts, '/')
  {
    RootedPieces(parts);
    CleanFromRoot("/" + Join(parts, '/'), [""] + parts, parts);
  }

  /** path.Join onto a rooted directory. */
  lemma PathJoinRooted(dir: seq<string>, below: seq<string>)
    requires |dir| > 0 && |below| > 0 && AllPlain(dir) && AllPlain(below)
    ensures PathJoin(["/" + Join(dir, '/')] + below) == "/" + Join(dir + below, '/')
  {
    JoinRooted(Join(dir, '/'), below);
    JoinCut(dir, below, '/');
    assert AllPlain(dir + below);
    CleanRooted(dir + below);
  }

  lemma JoinRooted(d: string, below: seq<string>)
    requires |below| > 0
    ensures PathJoin(["/" + d] + below) == Clean("/" + (d + "/" + Join(below, '/')))
  {
    var r := "/" + d;
    var elems := [r] + below;
    JoinCut([r], below, '/');
    NothingDropped(elems);
    Regrouped(d, Join(below, '/'));
  }

  lemma NothingDropped(elems: seq<string>)
    requires elems != [] && elems[0] != ""
    ensures PathJoin(elems) == Clean(Join(elems, '/'))
  {
  }

  lemma Regrouped(a: string, b: string)
    ensures "/" + a + ['/'] + b == "/" + (a + "/" + b)
  {
  }

  // ---- the base name -----------------------------------------------------------------

  /** What Base is, outright: the last component, whatever slashes follow it. */
  lemma BaseIs(dir: string, name: string, slashes: string)
    requires name != "" && '/' !in name && (dir == "" || dir[|dir| - 1] == '/')
    requires forall i :: 0 <= i < |slashes| ==> slashes[i] == '/'
    ensures Base(dir + name + slashes) == name
  {
    StripSlashes(dir + name, slashes);
    UpToName(dir, name);
  }

  lemma BaseOfNothing(slashes: string)
    requires forall i :: 0 <= i < |slashes| ==> slashes[i] == '/'
    ensures Base(slashes) == if slashes == "" then "." else "/"
  {
    StripAll(slashes);
  }

  lemma {:induction false} StripAll(slashes: string)
    requires forall i :: 0 <= i < |slashes| ==> slashes[i] == '/'
    ensures StripTrailing(slashes) == ""
  {
    if slashes != "" { StripAll(slashes[..|slashes| - 1]); }
  }

  lemma {:induction false} StripSlashes(p: string, slashes: string)
    requires p != "" && p[|p| - 1] != '/' && forall i :: 0 <= i < |slashes| ==> slashes[i] == '/'
    ensures StripTrailing(p + slashes) == p
  {
    if slashes == "" {
      assert p + slashes == p;
    } else {
      assert (p + slashes)[..|p + slashes| - 1] == p + slashes[..|slashes| - 1];
      StripSlashes(p, slashes[..|slashes| - 1]);
    }
  }

  lemma {:induction false} UpToName(dir: string, name: string)
    requires '/' !in name && (dir == "" || dir[|dir| - 1] == '/')
    ensures UpToLastSlash(dir + name) == dir
  {
    if name == "" {
      assert dir + name == dir;
    } else {
      assert (dir + name)[..|dir + name| - 1] == dir + name[..|name| - 1];
      assert name[|name| - 1] in name;
      UpToName(dir, name[..|name| - 1]);
    }
  }

  /** The base name has no slash, unless the path is nothing but slashes. */
  lemma {:induction false} BaseShape(p: string)
    ensures Base(p) != ""
    ensures Base(p) == "/" || '/' !in Base(p)
  {
    if p != "" && StripTrailing(p) != "" {
      StripEnd(p);
      AfterLastSlash(StripTrailing(p));
    }
  }

  lemma {:induction false} StripEnd(p: string)
    ensures StripTrailing(p) != "" ==> StripTrailing(p)[|StripTrailing(p)| - 1] != '/'
  {
    if p != "" && p[|p| - 1] == '/' { StripEnd(p[..|p| - 1]); }
  }

  lemma {:induction false} AfterLastSlash(s: string)
    ensures UpToLastSlash(s) <= s
    ensures '/' !in s[|UpToLastSlash(s)|..]
    ensures s != "" && s[|s| - 1] != '/' ==> |UpToLastSlash(s)| < |s|
  {
    if s != "" && s[|s| - 1] != '/' {
      var t := s[..|s| - 1];
      AfterLastSlash(t);
      assert s[|UpToLastSlash(t)|..] == t[|UpToLastSlash(t)|..] + [s[|s| - 1]];
    }
  }
}
