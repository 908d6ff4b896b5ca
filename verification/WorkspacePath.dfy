/** Workspace directories as text: what place a path names, and the normal form that
    `normalizeWorkspaceDirectory` computes. */
module WorkspacePath {

  // ---------------------------------------------------------------- reading a path

  /** Every run of backslashes becomes one slash. */
  function Slashes(s: string): string {
    if s == "" then ""
    else if s[0] != '\\' then [s[0]] + Slashes(s[1..])
    else if |s| > 1 && s[1] == '\\' then Slashes(s[1..])
    else "/" + Slashes(s[1..])
  }

  predicate IsLetter(c: char) { 'A' <= c <= 'Z' || 'a' <= c <= 'z' }

  predicate IsDrive(s: string) { |s| == 2 && IsLetter(s[0]) && s[1] == ':' }

  /** The root that a path with forward slashes starts with, or nothing. */
  function Root(s: string): (r: string)
    ensures r <= s
  {
    if s == "" then ""
    else if forall k | 0 <= k < |s| :: s[k] == '/' then "/"
    else if "//" <= s then "//"
    else if "/" <= s then "/"
    else if |s| >= 3 && IsDrive(s[..2]) && s[2] == '/' then s[..3]
    else ""
  }

  function FirstSlash(s: string): (n: nat)
    ensures n <= |s| && '/' !in s[..n] && (n < |s| ==> s[n] == '/')
  {
    if s == "" || s[0] == '/' then 0
    else
      assert forall n: nat | n <= |s| - 1 :: s[..n + 1] == [s[0]] + s[1..][..n];
      1 + FirstSlash(s[1..])
  }

  /** The non-empty pieces between slashes. */
  function Parts(s: string): seq<string>
    decreases |s|
  {
    if s == "" then []
    else if s[0] == '/' then Parts(s[1..])
    else [s[..FirstSlash(s)]] + Parts(s[FirstSlash(s)..])
  }

  /** The place that a path names: below its root, or a number of levels up from the current
      directory, and then down through some names. */
  datatype Place = Place(root: string, ups: nat, names: seq<string>)

  function Go(p: Place, part: string): Place {
    if part == "." then p
    else if part != ".." then p.(names := p.names + [part])
    else if p.names != [] then p.(names := p.names[..|p.names| - 1])
    else if p.root != "" then p
    else p.(ups := p.ups + 1)
  }

  function Walk(p: Place, parts: seq<string>): Place
    decreases |parts|
  {
    if parts == [] then p else Walk(Go(p, parts[0]), parts[1..])
  }

  function PlaceOf(s: string): Place {
    var t := Slashes(s);
    Walk(Place(Root(t), 0, []), Parts(t[|Root(t)|..]))
  }

  // ---------------------------------------------------------------- writing a path

  function Join(segments: seq<string>): string {
    if segments == [] then ""
    else if |segments| == 1 then segments[0]
    else segments[0] + "/" + Join(segments[1..])
  }

  function Dots(n: nat): seq<string> { seq(n, _ => "..") }

  function Segments(p: Place): seq<string> { Dots(p.ups) + p.names }

  function Render(p: Place): string { p.root + Join(Segments(p)) }

  /** The normal form of a place, but for one. */
  function NormalForm(p: Place): string {
    if LosesRoot(p) then "" else Render(p)
  }

  /** The root of a network path with no names below it. */
  predicate LosesRoot(p: Place) { p.root == "//" && Segments(p) == [] }

  /** A relative place whose first name looks like a drive and has names below it. */
  predicate ExposesDrive(p: Place) {
    p.root == "" && p.ups == 0 && |p.names| >= 2 && IsDrive(p.names[0])
  }

  // ---------------------------------------------------------------- what places look like

  predicate IsPart(s: string) { s != "" && '/' !in s && '\\' !in s }

  predicate IsSegment(s: string) { IsPart(s) && s != "." }

  predicate IsName(s: string) { IsSegment(s) && s != ".." }

  predicate IsRoot(r: string) {
    r == "" || r == "/" || r == "//" || (|r| == 3 && IsDrive(r[..2]) && r[2] == '/')
  }

  predicate Proper(p: Place) {
    IsRoot(p.root) && (p.root != "" ==> p.ups == 0) && forall k | 0 <= k < |p.names| :: IsName(p.names[k])
  }

  lemma StillAbsent(s: string, c: char, n: nat)
    requires n <= |s| && c !in s
    ensures c !in s[n..] && c !in s[..n]
  {
  }

  lemma {:induction false} SlashesKeepsForward(s: string)
    requires '\\' !in s
    ensures Slashes(s) == s
  {
    if s != "" {
      StillAbsent(s, '\\', 1);
      SlashesKeepsForward(s[1..]);
    }
  }

  lemma {:induction false} SlashesOnlyForward(s: string)
    ensures '\\' !in Slashes(s)
  {
    if s != "" {
      SlashesOnlyForward(s[1..]);
    }
  }

  lemma {:induction false} PartsAreSegments(s: string)
    requires '\\' !in s
    ensures forall k | 0 <= k < |Parts(s)| :: IsPart(Parts(s)[k])
    decreases |s|
  {
    if s != "" {
      if s[0] == '/' {
        StillAbsent(s, '\\', 1);
        PartsAreSegments(s[1..]);
      } else {
        var n := FirstSlash(s);
        StillAbsent(s, '\\', n);
        PartsAreSegments(s[n..]);
        assert n > 0 && s[..n] != "";
      }
    }
  }

  lemma GoProper(p: Place, part: string)
    requires Proper(p) && IsPart(part)
    ensures Proper(Go(p, part)) && Go(p, part).root == p.root
  {
  }

  lemma {:induction false} WalkProper(p: Place, parts: seq<string>)
    requires Proper(p)
    requires forall k | 0 <= k < |parts| :: IsPart(parts[k])
    ensures Proper(Walk(p, parts)) && Walk(p, parts).root == p.root
    decreases |parts|
  {
    if parts != [] {
      GoProper(p, parts[0]);
      WalkProper(Go(p, parts[0]), parts[1..]);
    }
  }

  lemma PlaceProper(s: string)
    ensures Proper(PlaceOf(s)) && PlaceOf(s).root == Root(Slashes(s))
  {
    var t := Slashes(s);
    SlashesOnlyForward(s);
    PartsAreSegments(t[|Root(t)|..]);
    WalkProper(Place(Root(t), 0, []), Parts(t[|Root(t)|..]));
  }

  // ---------------------------------------------------------------- reading what was written

  lemma {:induction false} FirstSlashAt(a: string, b: string)
    requires '/' !in a
    ensures FirstSlash(a) == |a| && FirstSlash(a + "/" + b) == |a|
  {
    if a != "" {
      assert a[0] in a;
      assert (a + "/" + b)[1..] == a[1..] + "/" + b;
      FirstSlashAt(a[1..], b);
    }
  }

  lemma {:induction false} PartsOfJoin(segments: seq<string>)
    requires forall k | 0 <= k < |segments| :: IsPart(segments[k])
    ensures Parts(Join(segments)) == segments
  {
    if segments != [] {
      var a, rest := segments[0], segments[1..];
      var j := Join(rest);
      FirstSlashAt(a, j);
      PartsOfJoin(rest);
      assert IsPart(a) && a[0] in a;
      if rest == [] {
        assert a[..|a|] == a && a[|a|..] == "";
      } else {
        var s := a + "/" + j;
        assert s[..|a|] == a && s[|a|..] == "/" + j && ("/" + j)[1..] == j;
      }
    }
  }

  lemma {:induction false} WalkAppend(p: Place, a: seq<string>, b: seq<string>)
    ensures Walk(p, a + b) == Walk(Walk(p, a), b)
    decreases |a|
  {
    if a == [] {
      assert a + b == b;
    } else {
      assert (a + b)[1..] == a[1..] + b;
      WalkAppend(Go(p, a[0]), a[1..], b);
    }
  }

  lemma {:induction false} WalkDots(p: Place, n: nat)
    requires p.root == "" && p.names == []
    ensures Walk(p, Dots(n)) == p.(ups := p.ups + n)
    decreases n
  {
    if n > 0 {
      assert Dots(n)[1..] == Dots(n - 1);
      WalkDots(Go(p, ".."), n - 1);
    }
  }

  lemma {:induction false} WalkNames(p: Place, names: seq<string>)
    requires forall k | 0 <= k < |names| :: IsName(names[k])
    ensures Walk(p, names) == p.(names := p.names + names)
    decreases |names|
  {
    if names == [] {
      assert p.names + [] == p.names;
    } else {
      assert (p.names + [names[0]]) + names[1..] == p.names + names;
      WalkNames(Go(p, names[0]), names[1..]);
    }
  }

  lemma WalkSegments(p: Place)
    requires Proper(p)
    ensures Walk(Place(p.root, 0, []), Segments(p)) == p
  {
    var start := Place(p.root, 0, []);
    WalkAppend(start, Dots(p.ups), p.names);
    if p.root == "" {
      WalkDots(start, p.ups);
    }
    WalkNames(Place(p.root, p.ups, []), p.names);
    assert [] + p.names == p.names;
  }

  lemma SegmentsAreSegments(p: Place)
    requires Proper(p)
    ensures forall k | 0 <= k < |Segments(p)| :: IsSegment(Segments(p)[k])
  {
    assert IsSegment("..");
  }

  /** A joined list of segments starts with its first segment, ends in no separator, and has no
      backslash. */
  lemma {:induction false} JoinShape(segments: seq<string>)
    requires segments != [] && forall k | 0 <= k < |segments| :: IsSegment(segments[k])
    ensures segments[0] <= Join(segments)
    ensures |segments| > 1 ==> segments[0] + "/" <= Join(segments)
    ensures Join(segments) != "" && Join(segments)[|Join(segments)| - 1] != '/' && '\\' !in Join(segments)
  {
    var a := segments[0];
    assert a[|a| - 1] in a;
    if |segments| > 1 {
      JoinShape(segments[1..]);
    }
  }

  /** The root of what was written is the place's own root, unless a drive is exposed. */
  lemma RootOfRender(p: Place)
    requires Proper(p) && Segments(p) != []
    ensures Root(Render(p)) == if ExposesDrive(p) then p.names[0] + "/" else p.root
  {
    SegmentsAreSegments(p);
    var segments := Segments(p);
    JoinShape(segments);
    var j, a := Join(segments), segments[0];
    assert a[0] in a;
    assert j[0] == a[0] != '/';
    hide Root, Join, IsDrive;
    if p.root == "" {
      assert Render(p) == j;
      RootOfRelative(segments);
      assert p.ups > 0 ==> a == ".." && !IsDrive(a) by { assert !IsDrive(".."); }
    } else {
      RootOfRooted(p.root, j);
    }
  }

  lemma RootOfRooted(root: string, j: string)
    requires IsRoot(root) && root != "" && j != "" && j[0] != '/'
    ensures Root(root + j) == root
  {
    assert (root + j)[|root|] == j[0];
    assert (root + j)[..|root|] == root;
  }

  lemma RootOfRelative(segments: seq<string>)
    requires segments != [] && forall k | 0 <= k < |segments| :: IsSegment(segments[k])
    ensures Root(Join(segments)) == if |segments| > 1 && IsDrive(segments[0]) then segments[0] + "/" else ""
  {
    JoinShape(segments);
    hide Root, IsDrive;
    RootOfText(Join(segments), segments[0]);
  }

  lemma RootOfText(j: string, a: string)
    requires IsSegment(a) && (j == a || a + "/" <= j)
    ensures Root(j) == if j != a && IsDrive(a) then a + "/" else ""
  {
    assert a[0] in a;
    assert j[0] == a[0] != '/';
    if |a| >= 3 {
      assert j[2] == a[2] && a[2] in a;
    } else if j != a {
      assert j[|a|] == '/';
      assert |a| == 2 ==> j[..2] == a && j[..3] == a + "/";
    }
  }

  /** What the written path is read as: the place itself, except in two cases. */
  lemma ReadBack(p: Place)
    requires Proper(p)
    ensures PlaceOf(NormalForm(p)) ==
            if LosesRoot(p) then Place("", 0, [])
            else if ExposesDrive(p) then Place(p.names[0] + "/", 0, p.names[1..])
            else p
  {
    SegmentsAreSegments(p);
    if Segments(p) == [] {
      assert p.ups == 0 && p.names == [];
      assert Render(p) == p.root;
      ReadBackRoot(if p.root == "//" then "" else p.root);
    } else {
      ReadBackSegments(p);
    }
  }

  lemma ReadBackRoot(root: string)
    requires IsRoot(root) && root != "//"
    ensures PlaceOf(root) == Place(root, 0, [])
  {
    SlashesKeepsForward(root);
    assert Root(root) == root;
    assert root[|root|..] == "";
  }

  lemma ReadBackSegments(p: Place)
    requires Proper(p) && Segments(p) != []
    ensures PlaceOf(Render(p)) ==
            if ExposesDrive(p) then Place(p.names[0] + "/", 0, p.names[1..]) else p
  {
    SegmentsAreSegments(p);
    var segments, s := Segments(p), Render(p);
    NoBackslash(p);
    SlashesKeepsForward(s);
    RootOfRender(p);
    hide Root, Slashes, Parts, Join;
    if ExposesDrive(p) {
      assert segments == p.names;
      ReadBackExposed(p, s);
    } else {
      assert s[|p.root|..] == Join(segments);
      PartsOfJoin(segments);
      WalkSegments(p);
    }
  }

  lemma NoBackslash(p: Place)
    requires Proper(p) && Segments(p) != []
    ensures '\\' !in Render(p)
  {
    SegmentsAreSegments(p);
    JoinShape(Segments(p));
    hide Join, Segments;
  }

  lemma ReadBackExposed(p: Place, s: string)
    requires Proper(p) && ExposesDrive(p) && s == Join(p.names)
    ensures
      var root := p.names[0] + "/";
      Walk(Place(root, 0, []), Parts(s[|root|..])) == Place(root, 0, p.names[1..])
  {
    var root := p.names[0] + "/";
    assert s == root + Join(p.names[1..]);
    assert s[|root|..] == Join(p.names[1..]);
    PartsOfJoin(p.names[1..]);
    WalkNames(Place(root, 0, []), p.names[1..]);
    assert [] + p.names[1..] == p.names[1..];
  }

  // ---------------------------------------------------------------- main results

  function Normalized(s: string): string { NormalForm(PlaceOf(s)) }

  /** The normal form names the same place as the input exactly when the place is not the root
      of a network path and does not expose a drive. */
  lemma SamePlace(s: string)
    ensures PlaceOf(Normalized(s)) == PlaceOf(s)
      <==> !LosesRoot(PlaceOf(s)) && !ExposesDrive(PlaceOf(s))
  {
    PlaceProper(s);
    ReadBack(PlaceOf(s));
  }

  /** Normalising is idempotent on every string, those two cases included. */
  lemma Idempotent(s: string)
    ensures Normalized(Normalized(s)) == Normalized(s)
  {
    var p := PlaceOf(s);
    PlaceProper(s);
    ReadBack(p);
    if !LosesRoot(p) && ExposesDrive(p) {
      var q := Place(p.names[0] + "/", 0, p.names[1..]);
      assert Segments(p) == p.names && Segments(q) == q.names;
      assert p.names == [p.names[0]] + q.names;
    }
  }

  /** Paths have one normal form exactly when they name one place, away from the two cases. */
  lemma Canonical(a: string, b: string)
    requires !LosesRoot(PlaceOf(a)) && !ExposesDrive(PlaceOf(a))
    requires !LosesRoot(PlaceOf(b)) && !ExposesDrive(PlaceOf(b))
    ensures Normalized(a) == Normalized(b) <==> PlaceOf(a) == PlaceOf(b)
  {
    SamePlace(a);
    SamePlace(b);
  }

  /** A normal form is a root and segments, none empty and none a single dot; two dots occur
      only in front and only without a root. */
  lemma NormalFormShape(s: string)
    ensures
      var p := PlaceOf(s);
      && (Normalized(s) == "" || Normalized(s) == p.root + Join(Dots(p.ups) + p.names))
      && (Normalized(s) == "" <==> p.root in {"", "//"} && p.ups == 0 && p.names == [])
      && (p.ups > 0 ==> p.root == "")
      && (forall n | n in p.names :: n != "" && n != "." && n != ".." && '/' !in n && '\\' !in n)
  {
    PlaceProper(s);
    var p := PlaceOf(s);
    SegmentsAreSegments(p);
    if Segments(p) != [] {
      JoinShape(Segments(p));
      assert Render(p) != "";
    } else {
      assert p.ups == 0 && p.names == [];
    }
  }

  /** The two cases occur. */
  lemma NetworkRootOccurs()
    ensures LosesRoot(PlaceOf("//.")) && PlaceOf("//.") != PlaceOf(Normalized("//."))
  {
    hide PlaceOf, Normalized;
    NetworkRoot();
    SamePlace("//.");
  }

  lemma NetworkRoot()
    ensures PlaceOf("//.") == Place("//", 0, [])
  {
    SlashesKeepsForward("//.");
    RootOfNetworkDot("//.");
    PartsOfJoin(["."]);
    assert "//."[2..] == "." == Join(["."]);
    assert ["."][1..] == [];
    hide Slashes, Root, Parts;
  }

  lemma RootOfNetworkDot(s: string)
    requires s == "//."
    ensures Root(s) == "//"
  {
    assert s[2] != '/';
  }

  lemma ExposedDriveOccurs()
    ensures ExposesDrive(PlaceOf("./C:/x")) && PlaceOf("./C:/x") != PlaceOf(Normalized("./C:/x"))
  {
    hide PlaceOf, Normalized;
    var s := "./C:/x";
    DotDrive(s);
    SamePlace(s);
    assert IsDrive("C:");
  }

  lemma DotDrive(s: string)
    requires s == "./C:/x"
    ensures PlaceOf(s) == Place("", 0, ["C:", "x"])
  {
    var parts := [".", "C:", "x"];
    ReadDotDrive(s, parts);
    WalkDotDrive(parts);
    hide Walk, Root, Parts, Slashes;
    assert s[0..] == s;
  }

  lemma ReadDotDrive(s: string, parts: seq<string>)
    requires s == "./C:/x" && parts == [".", "C:", "x"]
    ensures Slashes(s) == s && Root(s) == "" && Parts(s) == parts
  {
    SlashesKeepsForward(s);
    assert s[0] == '.';
    PartsOfJoin(parts);
    JoinDotDrive(parts);
    hide Slashes, Parts, Join;
  }

  lemma JoinDotDrive(parts: seq<string>)
    requires parts == [".", "C:", "x"]
    ensures Join(parts) == "./C:/x"
  {
    assert parts[1..] == ["C:", "x"] && parts[1..][1..] == ["x"];
    assert Join(["x"]) == "x";
    assert Join(["C:", "x"]) == "C:/x";
  }

  lemma WalkDotDrive(parts: seq<string>)
    requires parts == [".", "C:", "x"]
    ensures Walk(Place("", 0, []), parts) == Place("", 0, ["C:", "x"])
  {
    WalkNames(Place("", 0, []), ["C:", "x"]);
    assert parts[1..] == ["C:", "x"] && [] + ["C:", "x"] == ["C:", "x"];
  }

  // ---------------------------------------------------------------- the function

  predicate IsSeparator(c: char) { c == '/' || c == '\\' }

  function DropSeparators(s: string): string
    decreases |s|
  {
    if s != "" && IsSeparator(s[|s| - 1]) then DropSeparators(s[..|s| - 1]) else s
  }

  /** `trimTrailingSeparators`, which looks for a root again. */
  function TrimTrailingSeparators(s: string): string {
    if s == Root(s) then s else DropSeparators(s)
  }

  /** The last trim changes only the bare root of a network path. */
  lemma TrimRender(p: Place)
    requires Proper(p)
    ensures TrimTrailingSeparators(Render(p)) == NormalForm(p)
  {
    SegmentsAreSegments(p);
    var s := Render(p);
    hide Root;
    if Segments(p) != [] {
      JoinShape(Segments(p));
      hide Join;
      assert s[|s| - 1] == Join(Segments(p))[|Join(Segments(p))| - 1];
      assert s[|s| - 1] in Join(Segments(p));
    } else if p.root == "//" {
      assert s == "//";
      TrimNetworkRoot(s);
    } else {
      assert s == p.root;
      RootOfRoot(p.root);
    }
  }

  lemma TrimNetworkRoot(s: string)
    requires s == "//"
    ensures TrimTrailingSeparators(s) == ""
  {
    assert Root(s) == "/";
    assert s != Root(s);
    assert s[..1] == "/" && "/"[..0] == "";
    assert DropSeparators("") == "";
    assert DropSeparators("/") == "";
    assert DropSeparators(s) == "";
  }

  lemma RootOfRoot(root: string)
    requires IsRoot(root) && root != "//"
    ensures Root(root) == root
  {
  }

  method NormalizeWorkspaceDirectory(directory: string) returns (r: string)
    ensures r == Normalized(directory)
  {
    var slashNormalized := Slashes(directory);
    var root := Root(slashNormalized);
    var parts := Parts(slashNormalized[|root|..]);
    var normalizedParts: seq<string> := [];
    ghost var p := Place(root, 0, []);
    assert Segments(p) == [];
    PlaceProper(directory);
    SlashesOnlyForward(directory);
    PartsAreSegments(slashNormalized[|root|..]);
    assert Walk(p, parts[0..]) == PlaceOf(directory) by { assert parts[0..] == parts; }
    hide Root, Slashes, Parts, FirstSlash, PlaceOf, Join, IsRoot, Segments, TrimTrailingSeparators;
    for i := 0 to |parts|
      invariant Proper(p) && p.root == root
      invariant normalizedParts == Segments(p)
      invariant Walk(p, parts[i..]) == PlaceOf(directory)
    {
      var part := parts[i];
      assert parts[i..][1..] == parts[i + 1..];
      LastSegment(p);
      GoProper(p, part);
      p := Go(p, part);
      if part == "." {
        continue;
      }
      if part == ".." {
        if normalizedParts != [] && normalizedParts[|normalizedParts| - 1] != ".." {
          normalizedParts := normalizedParts[..|normalizedParts| - 1];
          continue;
        }
        if root == "" {
          normalizedParts := normalizedParts + [part];
        }
        continue;
      }
      normalizedParts := normalizedParts + [part];
    }
    assert parts[|parts|..] == [];
    assert p == PlaceOf(directory);
    TrimRender(p);
    assert Render(p) == root + Join(normalizedParts);
    r := TrimTrailingSeparators(root + Join(normalizedParts));
  }

  /** Where two dots stand on the stack, there is no name to take away. */
  lemma LastSegment(p: Place)
    requires Proper(p)
    ensures
      var segments := Segments(p);
      && (p.names != [] <==> segments != [] && segments[|segments| - 1] != "..")
      && Segments(Go(p, "..")) == (if p.names != [] then segments[..|segments| - 1] else if p.root != "" then segments else segments + [".."])
      && forall part | part != "." && part != ".." :: Segments(Go(p, part)) == segments + [part]
  {
  }
}
