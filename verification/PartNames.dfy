/**
 Paths of part files (`uploadPartPathFor` in `agent/server/files.go`).

 Paths are clean: `filepath.Dir` and `filepath.Base` cut them at their last slash, and `filepath.Join` puts the pieces
 back together as long as the upload id holds no slash.
 */
module PartNames {

  const INFIX := ".komari-upload-"
  const SUFFIX := ".part"

  /** The last element of a path. */
  function Base(path: string): (b: string)
    ensures |b| <= |path| && '/' !in b
  {
    if '/' in path then Base(path[1..]) else path
  }

  /** Everything up to the last slash, with it. */
  function Directory(path: string): string {
    path[..|path| - |Base(path)|]
  }

  /** Base name of the part file of an upload to a target with base name `name`. */
  function PartName(name: string, upload: string): string {
    "." + (if name == "" || name == "." || name == "/" then "upload" else name) + INFIX + upload + SUFFIX
  }

  function PartPath(target: string, upload: string): string {
    Directory(target) + PartName(Base(target), upload)
  }

  /** An upload id without dots and slashes. */
  predicate PlainId(u: string) {
    '.' !in u && '/' !in u
  }

  /** The base name reads as that of a part file whose upload id is plain. */
  predicate PartShaped(path: string) {
    exists i | 1 < i < |Base(path)| :: ShapedAt(Base(path), i)
  }

  predicate ShapedAt(b: string, i: int) {
    && 1 < i <= |b| - |INFIX| - |SUFFIX|
    && b[0] == '.' && b[1..i] != "." && b[i..i + |INFIX|] == INFIX && b[|b| - |SUFFIX|..] == SUFFIX
    && PlainId(b[i + |INFIX|..|b| - |SUFFIX|])
  }

  // ---------- what the upload protocol needs of part names ----------

  /** No part file belongs to two uploads with plain ids. */
  ghost predicate Separates(part: (string, string) -> string) {
    forall t, u, t', u' :: PlainId(u) && PlainId(u') && part(t, u) == part(t', u') ==> u == u'
  }

  /** A path that is no upload's part file, as long as ids are plain. */
  ghost predicate Aside(part: (string, string) -> string, path: string) {
    forall t, u :: PlainId(u) ==> part(t, u) != path
  }

  // ---------- base names ----------

  predicate DotFree(s: string) {
    '.' !in s
  }

  /** The last dot of a text, and what follows it. */
  lemma LastDot(a: string, x: string, b: string, y: string)
    requires DotFree(x) && DotFree(y)
    requires a + "." + x == b + "." + y
    ensures a == b && x == y
  {
    NoDotAfter(a, x);
    NoDotAfter(b, y);
    var s := a + "." + x;
    assert s[|a|] == '.' && (b + "." + y)[|b|] == '.';
    assert a == s[..|a|] && x == s[|a| + 1..];
  }

  lemma NoDotAfter(a: string, x: string)
    requires DotFree(x)
    ensures var s := a + "." + x; forall k :: |a| < k < |s| ==> s[k] != '.'
  {
    var s := a + "." + x;
    forall k | |a| < k < |s| ensures s[k] != '.' {
      assert s[k] == x[k - |a| - 1];
    }
  }

  lemma InfixEndsDotFree()
    ensures INFIX == "." + "komari-upload-" && DotFree("komari-upload-") && '/' !in INFIX && '/' !in SUFFIX
  {
  }

  /** The name that stands for the target in its part file. */
  function NameOr(name: string): string {
    if name == "" || name == "." || name == "/" then "upload" else name
  }

  /** With dot-free ids, the base name of a part file tells upload and target name. */
  lemma PartNameIsInjective(n1: string, u1: string, n2: string, u2: string)
    requires DotFree(u1) && DotFree(u2)
    ensures PartName(n1, u1) == PartName(n2, u2) <==> NameOr(n1) == NameOr(n2) && u1 == u2
  {
    if PartName(n1, u1) == PartName(n2, u2) {
      var s1, s2 := PartName(n1, u1), PartName(n2, u2);
      var m1, m2 := "." + NameOr(n1) + INFIX + u1, "." + NameOr(n2) + INFIX + u2;
      assert m1 == s1[..|s1| - |SUFFIX|] && m2 == s2[..|s2| - |SUFFIX|];
      InfixEndsDotFree();
      var t1, t2 := "komari-upload-" + u1, "komari-upload-" + u2;
      assert m1 == ("." + NameOr(n1)) + "." + t1 && m2 == ("." + NameOr(n2)) + "." + t2;
      LastDot("." + NameOr(n1), t1, "." + NameOr(n2), t2);
      assert NameOr(n1) == ("." + NameOr(n1))[1..] && NameOr(n2) == ("." + NameOr(n2))[1..];
      assert u1 == t1[|t1| - |u1|..] && u2 == t2[|t2| - |u2|..];
    }
  }

  // ---------- whole paths ----------

  lemma {:induction false} BaseIsLast(path: string)
    ensures path[|path| - |Base(path)|..] == Base(path)
    ensures |Base(path)| < |path| ==> path[|path| - |Base(path)| - 1] == '/'
  {
    if '/' in path {
      var rest := path[1..];
      BaseIsLast(rest);
      assert path[|path| - |Base(path)|..] == rest[|rest| - |Base(rest)|..];
      if |Base(rest)| == |rest| {
        assert rest == Base(rest);
      }
    }
  }

  lemma DirectoryEndsInSlash(path: string)
    ensures Directory(path) + Base(path) == path
    ensures Directory(path) == "" || Directory(path)[|Directory(path)| - 1] == '/'
  {
    BaseIsLast(path);
    Rejoin(path, |path| - |Base(path)|);
  }

  lemma Rejoin(path: string, n: nat)
    requires n <= |path|
    ensures path[..n] + path[n..] == path
    ensures 0 < n ==> path[..n][n - 1] == path[n - 1]
  {
  }

  /** A directory and a base name are found again in the path made of them. */
  lemma {:induction false} SplitPath(dir: string, name: string)
    requires dir == "" || dir[|dir| - 1] == '/'
    requires '/' !in name
    ensures Base(dir + name) == name && Directory(dir + name) == dir
    decreases |dir|
  {
    var path := dir + name;
    if dir == "" {
      assert path == name;
    } else {
      assert path[|dir| - 1] == '/';
      assert path[1..] == dir[1..] + name;
      SplitPath(dir[1..], name);
      assert dir == path[..|dir|];
    }
  }

  lemma PartNameHasNoSlash(target: string, upload: string)
    requires '/' !in upload
    ensures '/' !in PartName(Base(target), upload)
  {
    InfixEndsDotFree();
    assert '/' !in "upload";
  }

  lemma PartPathSplits(target: string, upload: string)
    requires '/' !in upload
    ensures Directory(PartPath(target, upload)) == Directory(target)
    ensures Base(PartPath(target, upload)) == PartName(Base(target), upload)
  {
    DirectoryEndsInSlash(target);
    PartNameHasNoSlash(target, upload);
    SplitPath(Directory(target), PartName(Base(target), upload));
  }

  /** With plain ids, a part file belongs to one upload, and to one target in its directory. */
  lemma PartPathIsInjective(t1: string, u1: string, t2: string, u2: string)
    requires PlainId(u1) && PlainId(u2)
    ensures PartPath(t1, u1) == PartPath(t2, u2) <==>
            Directory(t1) == Directory(t2) && NameOr(Base(t1)) == NameOr(Base(t2)) && u1 == u2
  {
    PartPathSplits(t1, u1);
    PartPathSplits(t2, u2);
    PartNameIsInjective(Base(t1), u1, Base(t2), u2);
  }

  lemma PartIsNotTarget(target: string, upload: string)
    requires '/' !in upload
    ensures PartPath(target, upload) != target
  {
    PartPathSplits(target, upload);
    assert |PartName(Base(target), upload)| > |Base(target)|;
  }

  lemma PartPathSeparates()
    ensures Separates(PartPath)
  {
    forall t, u, t', u' | PlainId(u) && PlainId(u') && PartPath(t, u) == PartPath(t', u') ensures u == u' {
      PartPathIsInjective(t, u, t', u');
    }
  }

  lemma PartNameIsShaped(target: string, upload: string)
    requires PlainId(upload)
    ensures PartShaped(PartPath(target, upload))
  {
    PartPathSplits(target, upload);
    ShapeOfName(NameOr(Base(target)), upload);
    assert "upload" != ".";
  }

  lemma ShapeOfName(name: string, upload: string)
    requires name != "" && name != "." && PlainId(upload)
    ensures ShapedAt("." + name + INFIX + upload + SUFFIX, 1 + |name|)
  {
    var b := "." + name + INFIX + upload + SUFFIX;
    var i := 1 + |name|;
    assert b[1..i] == name && b[i..i + |INFIX|] == INFIX && b[|b| - |SUFFIX|..] == SUFFIX;
    assert b[i + |INFIX|..|b| - |SUFFIX|] == upload;
  }

  lemma ShapeReads(b: string, i: int)
    requires ShapedAt(b, i) && '/' !in b
    ensures b == PartName(b[1..i], b[i + |INFIX|..|b| - |SUFFIX|]) && '/' !in b[1..i]
  {
    var name := b[1..i];
    assert name[0] == b[1];
    assert b == b[..1] + b[1..i] + b[i..i + |INFIX|] + b[i + |INFIX|..|b| - |SUFFIX|] + b[|b| - |SUFFIX|..];
    assert b[..1] == ".";
  }

  lemma ShapedIsPartName(path: string, i: int)
    requires ShapedAt(Base(path), i)
    ensures var b := Base(path);
      path == PartPath(Directory(path) + b[1..i], b[i + |INFIX|..|b| - |SUFFIX|])
  {
    DirectoryEndsInSlash(path);
    ShapeReads(Base(path), i);
    SplitPath(Directory(path), Base(path)[1..i]);
  }

  lemma UnshapedIsAside(path: string)
    requires !PartShaped(path)
    ensures Aside(PartPath, path)
  {
    forall t, u | PlainId(u) ensures PartPath(t, u) != path {
      PartNameIsShaped(t, u);
    }
  }

  lemma ShapedIsNotAside(path: string, i: int)
    requires ShapedAt(Base(path), i)
    ensures !Aside(PartPath, path)
  {
    var b := Base(path);
    ShapedIsPartName(path, i);
    NotAside(path, Directory(path) + b[1..i], b[i + |INFIX|..|b| - |SUFFIX|]);
  }

  /** Exactly the paths that are not shaped like a part file are out of the way of all of them. */
  lemma AsideExactly(path: string)
    ensures Aside(PartPath, path) <==> !PartShaped(path)
  {
    if PartShaped(path) {
      var i :| ShapedAt(Base(path), i);
      ShapedIsNotAside(path, i);
    } else {
      UnshapedIsAside(path);
    }
  }

  lemma NotAside(path: string, target: string, upload: string)
    requires PlainId(upload) && path == PartPath(target, upload)
    ensures !Aside(PartPath, path)
  {
  }

  lemma PartPathIn(dir: string, name: string, upload: string)
    requires dir != "" && dir[|dir| - 1] == '/' && '/' !in name
    ensures PartPath(dir + name, upload) == dir + PartName(name, upload)
  {
    SplitPath(dir, name);
  }

  /** With dots in ids, two uploads to different targets can share a part file. */
  lemma DottedIdsCollide()
    ensures PartPath("/d/" + "a", "b.komari-upload-c") == PartPath("/d/" + "a.komari-upload-b", "c")
  {
    PartPathIn("/d/", "a", "b.komari-upload-c");
    PartPathIn("/d/", "a.komari-upload-b", "c");
    DottedNamesCollide();
  }

  lemma DottedNamesCollide()
    ensures PartName("a", "b.komari-upload-c") == PartName("a.komari-upload-b", "c")
  {
  }

  /** Even with plain ids, a target can be another upload's part file. */
  lemma TargetCanBePartFile()
    ensures PartPath("/d/" + "f", "B") == "/d/" + ".f.komari-upload-B.part"
  {
    PartPathIn("/d/", "f", "B");
    VictimName();
  }

  lemma VictimName()
    ensures PartName("f", "B") == ".f.komari-upload-B.part"
  {
    var whole := ".f.komari-upload-B.part";
    assert whole[..2] == "." + "f" && whole[2..17] == INFIX && whole[17..18] == "B" && whole[18..] == SUFFIX;
    assert whole == whole[..2] + whole[2..17] + whole[17..18] + whole[18..];
  }

  /** The path as it is spelled: beside the target, hidden, with the target's name or, if it has none, `upload`. */
  lemma PartPathIsSpelled(dir: string, name: string, upload: string)
    requires '/' !in name
    ensures name != "" && name != "." ==>
      PartPath(dir + "/" + name, upload) == dir + "/." + name + ".komari-upload-" + upload + ".part"
    ensures name == "" || name == "." ==>
      PartPath(dir + "/" + name, upload) == dir + "/.upload" + ".komari-upload-" + upload + ".part"
  {
    SplitPath(dir + "/", name);
    assert "/." == "/" + "." && "/.upload" == "/" + "." + "upload";
    assert PartName(name, upload)[0] == '.';
  }
}
