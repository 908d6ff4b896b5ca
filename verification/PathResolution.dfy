/** Where a path leads: resolved name by name from a current directory, as a file system does it.
    Normalising a path does not change that. */
module PathResolution {
  import opened WorkspacePath

  /** One step: a dot stays, two dots leave a directory if there is one to leave, a name enters. */
  function Enter(dir: seq<string>, part: string): seq<string> {
    if part == "." then dir
    else if part == ".." then (if dir == [] then [] else dir[..|dir| - 1])
    else dir + [part]
  }

  function Resolve(dir: seq<string>, parts: seq<string>): seq<string>
    decreases |parts|
  {
    if parts == [] then dir else Resolve(Enter(dir, parts[0]), parts[1..])
  }

  /** The names below the root to which a path leads: from the current directory, or from the root
      that the path has itself. */
  function Target(current: seq<string>, s: string): seq<string> {
    var t := Slashes(s);
    var root := Root(t);
    Resolve(if root == "" then current else [], Parts(t[|root|..]))
  }

  lemma {:induction false} ResolveAppend(dir: seq<string>, a: seq<string>, b: seq<string>)
    ensures Resolve(dir, a + b) == Resolve(Resolve(dir, a), b)
    decreases |a|
  {
    if a == [] {
      assert a + b == b;
    } else {
      assert (a + b)[1..] == a[1..] + b;
      ResolveAppend(Enter(dir, a[0]), a[1..], b);
    }
  }

  lemma ResolveOne(dir: seq<string>, part: string)
    ensures Resolve(dir, [part]) == Enter(dir, part)
  {
    assert [part][1..] == [];
    assert Resolve(Enter(dir, part), []) == Enter(dir, part);
  }

  lemma {:induction false} ResolveNames(dir: seq<string>, names: seq<string>)
    requires forall k | 0 <= k < |names| :: IsName(names[k])
    ensures Resolve(dir, names) == dir + names
    decreases |names|
  {
    if names == [] {
      assert dir + [] == dir;
    } else {
      ResolveNames(dir + [names[0]], names[1..]);
      assert dir + [names[0]] + names[1..] == dir + names;
    }
  }

  /** Going on to a place and then one step further leads where the further place is. */
  lemma GoLeads(base: seq<string>, p: Place, part: string)
    requires Proper(p) && IsPart(part) && (p.root != "" ==> base == [])
    ensures Resolve(base, Segments(Go(p, part))) == Enter(Resolve(base, Segments(p)), part)
  {
    hide Resolve, IsPart;
    if part == ".." {
      UpLeads(base, p);
    } else if part != "." {
      assert Segments(Go(p, part)) == Segments(p) + [part];
      ResolveAppend(base, Segments(p), [part]);
      ResolveOne(Resolve(base, Segments(p)), part);
    }
  }

  lemma UpLeads(base: seq<string>, p: Place)
    requires Proper(p) && (p.root != "" ==> base == [])
    ensures Resolve(base, Segments(Go(p, ".."))) == Enter(Resolve(base, Segments(p)), "..")
  {
    if p.names != [] {
      UpFromName(base, p.ups, p.names);
    } else if p.root == "" {
      assert Segments(Go(p, "..")) == Dots(p.ups) + [".."];
      ResolveAppend(base, Dots(p.ups), [".."]);
      ResolveOne(Resolve(base, Dots(p.ups)), "..");
      assert Segments(p) == Dots(p.ups);
    } else {
      assert Segments(p) == [] && Resolve(base, []) == [];
    }
  }

  lemma UpFromName(base: seq<string>, ups: nat, names: seq<string>)
    requires names != [] && forall k | 0 <= k < |names| :: IsName(names[k])
    ensures Resolve(base, Dots(ups) + names[..|names| - 1]) == Enter(Resolve(base, Dots(ups) + names), "..")
  {
    hide Resolve, IsName;
    var up := Resolve(base, Dots(ups));
    var fewer := names[..|names| - 1];
    ResolveAppend(base, Dots(ups), names);
    ResolveNames(up, names);
    ResolveAppend(base, Dots(ups), fewer);
    ResolveNames(up, fewer);
    assert (up + names)[..|up + names| - 1] == up + fewer;
  }

  lemma {:induction false} WalkLeads(base: seq<string>, p: Place, parts: seq<string>)
    requires Proper(p) && (p.root != "" ==> base == [])
    requires forall k | 0 <= k < |parts| :: IsPart(parts[k])
    ensures Resolve(base, Segments(Walk(p, parts))) == Resolve(Resolve(base, Segments(p)), parts)
    decreases |parts|
  {
    hide Segments, Go, Enter, Proper, IsPart;
    if parts != [] {
      GoProper(p, parts[0]);
      GoLeads(base, p, parts[0]);
      WalkLeads(base, Go(p, parts[0]), parts[1..]);
    }
  }

  /** A path leads to its place. */
  lemma PlaceLeads(current: seq<string>, s: string)
    ensures
      var p := PlaceOf(s);
      Target(current, s) == Resolve(if p.root == "" then current else [], Segments(p))
  {
    PlaceProper(s);
    var t := Slashes(s);
    var root := Root(t);
    SlashesOnlyForward(s);
    StillAbsent(t, '\\', |root|);
    PartsAreSegments(t[|root|..]);
    var base := if root == "" then current else [];
    assert Proper(Place(root, 0, []));
    WalkLeads(base, Place(root, 0, []), Parts(t[|root|..]));
    assert Segments(Place(root, 0, [])) == [];
    assert Resolve(base, []) == base;
  }

  /** From every current directory the normal form leads where the path does, below the same root,
      unless it has lost that root or exposes a drive. */
  lemma LeadsAlike(current: seq<string>, s: string)
    requires !LosesRoot(PlaceOf(s)) && !ExposesDrive(PlaceOf(s))
    ensures Root(Normalized(s)) == Root(Slashes(s)) && Target(current, Normalized(s)) == Target(current, s)
  {
    SamePlace(s);
    PlaceLeads(current, s);
    PlaceLeads(current, Normalized(s));
    PlaceProper(s);
    PlaceProper(Normalized(s));
    NoBackslashes(s);
    SlashesKeepsForward(Normalized(s));
  }

  lemma NoBackslashes(s: string)
    ensures '\\' !in Normalized(s)
  {
    PlaceProper(s);
    var p := PlaceOf(s);
    if Segments(p) != [] {
      NoBackslash(p);
    } else {
      assert p.names == [] && Render(p) == p.root;
    }
  }

  // ---------------------------------------------------------------- separators

  /** A run of backslashes becomes one slash, and other characters stay. */
  lemma {:induction false} BackslashRun(n: nat, rest: string)
    requires n > 0 && (rest != "" ==> rest[0] != '\\')
    ensures Slashes(seq(n, _ => '\\') + rest) == "/" + Slashes(rest)
    decreases n
  {
    var run := seq(n, _ => '\\');
    if n == 1 {
      assert run + rest == "\\" + rest && ("\\" + rest)[1..] == rest;
    } else {
      assert (run + rest)[1..] == seq(n - 1, _ => '\\') + rest;
      BackslashRun(n - 1, rest);
    }
  }

  lemma {:induction false} OthersStay(text: string, rest: string)
    requires '\\' !in text
    ensures Slashes(text + rest) == text + Slashes(rest)
    decreases |text|
  {
    if text == "" {
      assert text + rest == rest;
    } else {
      assert text[0] in text;
      assert (text + rest)[1..] == text[1..] + rest;
      OthersStay(text[1..], rest);
      assert text == [text[0]] + text[1..];
    }
  }

  /** Cutting at any slash cuts the parts; a text without slashes is one part, or none if it is
      empty. */
  lemma {:induction false} PartsAtSlash(a: string, b: string)
    ensures Parts(a + "/" + b) == Parts(a) + Parts(b)
    decreases |a|
  {
    if a == "" {
      assert a + "/" + b == "/" + b && ("/" + b)[1..] == b;
      assert Parts("") + Parts(b) == Parts(b);
    } else if a[0] == '/' {
      assert (a + "/" + b)[1..] == a[1..] + "/" + b;
      PartsAtSlash(a[1..], b);
    } else {
      var n := FirstSlash(a);
      SlashBeyond(a, b);
      assert (a + "/" + b)[..n] == a[..n];
      assert (a + "/" + b)[n..] == a[n..] + "/" + b;
      PartsAtSlash(a[n..], b);
      assert [a[..n]] + Parts(a[n..]) + Parts(b) == [a[..n]] + (Parts(a[n..]) + Parts(b));
    }
  }

  lemma {:induction false} SlashBeyond(a: string, b: string)
    ensures FirstSlash(a + "/" + b) == FirstSlash(a)
    decreases |a|
  {
    if a == "" {
      assert (a + "/" + b)[0] == '/';
    } else if a[0] != '/' {
      assert (a + "/" + b)[1..] == a[1..] + "/" + b;
      SlashBeyond(a[1..], b);
    }
  }

  lemma OnePart(s: string)
    requires '/' !in s
    ensures Parts(s) == if s == "" then [] else [s]
  {
    if s != "" {
      assert s[0] in s;
      var n := FirstSlash(s);
      assert n == |s|;
      assert s[..|s|] == s && s[|s|..] == "";
    }
  }
}
