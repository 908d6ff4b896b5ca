/** The gateway's web route table: an array kept sorted by prefix length, with linear lookup. */
module Routes {
  import opened Common

  const MAX_WEB_ROUTES: nat := 128

  datatype WebRoute = WebRoute(prefix: string, host: string, port: int, ownerUid: nat, authRequired: int)

  const NO_ROUTE := WebRoute("", "", 0, 0, 0)

  // ---------------------------------------------------------------- what matching means

  /** The prefix ends where the path ends or at a slash. */
  predicate Matches(prefix: string, path: string) {
    prefix <= path && (|path| == |prefix| || path[|prefix|] == '/')
  }

  /** A prefix matches itself and what is below it, no other text that begins with it. */
  lemma MatchMeans(prefix: string, path: string)
    ensures Matches(prefix, path) <==> path == prefix || exists rest :: path == prefix + "/" + rest
  {
    if Matches(prefix, path) && path != prefix {
      assert path == prefix + "/" + path[|prefix| + 1..];
    }
  }

  predicate Sorted(routes: seq<WebRoute>) {
    forall i, j | 0 <= i < j < |routes| :: |routes[i].prefix| >= |routes[j].prefix|
  }

  predicate DuplicateFree(routes: seq<WebRoute>) {
    forall i, j | 0 <= i < j < |routes| :: routes[i].prefix != routes[j].prefix
  }

  /** The registered routes, by prefix. */
  ghost function Registered(routes: seq<WebRoute>): map<string, WebRoute>
    requires DuplicateFree(routes)
  {
    map r | r in routes :: r.prefix := r
  }

  /** The longest matching prefix of a set of routes. */
  ghost predicate IsLongestMatch(routes: seq<WebRoute>, path: string, r: WebRoute) {
    && r in routes && Matches(r.prefix, path)
    && forall s | s in routes && Matches(s.prefix, path) :: |s.prefix| <= |r.prefix|
  }

  /** Two matching prefixes of the same length are the same, so a table without duplicates has
      at most one longest match, however its equally long prefixes are arranged. */
  lemma LongestMatchIsUnique(routes: seq<WebRoute>, path: string, r: WebRoute, s: WebRoute)
    requires DuplicateFree(routes)
    requires IsLongestMatch(routes, path, r) && IsLongestMatch(routes, path, s)
    ensures r == s
  {
    assert r.prefix == path[..|r.prefix|] && s.prefix == path[..|s.prefix|];
    var i :| 0 <= i < |routes| && routes[i] == r;
    var j :| 0 <= j < |routes| && routes[j] == s;
    assert routes[i].prefix == routes[j].prefix;
  }

  /** In a sorted table the first match is the longest. */
  lemma FirstMatchIsLongest(routes: seq<WebRoute>, path: string, i: nat)
    requires Sorted(routes) && i < |routes| && Matches(routes[i].prefix, path)
    requires forall k | 0 <= k < i :: !Matches(routes[k].prefix, path)
    ensures IsLongestMatch(routes, path, routes[i])
  {
    forall s | s in routes && Matches(s.prefix, path) ensures |s.prefix| <= |routes[i].prefix| {
      var j :| 0 <= j < |routes| && routes[j] == s;
    }
  }

  /** Rearranging a table changes no lookup. */
  lemma PermutationKeepsMatches(a: seq<WebRoute>, b: seq<WebRoute>, path: string, r: WebRoute)
    requires multiset(a) == multiset(b)
    ensures IsLongestMatch(a, path, r) <==> IsLongestMatch(b, path, r)
  {
    forall s ensures s in a <==> s in b {
      assert s in multiset(a) <==> s in a;
      assert s in multiset(b) <==> s in b;
    }
  }

  // ---------------------------------------------------------------- rearranging

  function Swapped(s: seq<WebRoute>, i: nat, j: nat): seq<WebRoute>
    requires i < |s| && j < |s|
  {
    s[i := s[j]][j := s[i]]
  }

  lemma SwapIsPermutation(s: seq<WebRoute>, i: nat, j: nat)
    requires i < j < |s|
    ensures multiset(Swapped(s, i, j)) == multiset(s)
  {
    var a, b, c := s[..i], s[i + 1..j], s[j + 1..];
    assert s == a + [s[i]] + b + [s[j]] + c;
    assert Swapped(s, i, j) == a + [s[j]] + b + [s[i]] + c;
  }

  /** The first `i` routes are in place. */
  predicate SortedTo(s: seq<WebRoute>, i: nat) {
    forall p, q | 0 <= p < i && p < q < |s| :: |s[p].prefix| >= |s[q].prefix|
  }

  /** Route `i` is at least as long as those after it, up to `j`. */
  predicate LeadsTo(s: seq<WebRoute>, i: nat, j: nat)
    requires i < |s|
  {
    forall q | i < q < j && q < |s| :: |s[i].prefix| >= |s[q].prefix|
  }

  lemma SwapStep(s: seq<WebRoute>, i: nat, j: nat)
    requires i < j < |s| && SortedTo(s, i) && LeadsTo(s, i, j) && |s[j].prefix| > |s[i].prefix|
    ensures
      var s' := Swapped(s, i, j);
      && multiset(s') == multiset(s) && |s'| == |s|
      && SortedTo(s', i) && LeadsTo(s', i, j + 1)
  {
    SwapIsPermutation(s, i, j);
  }

  lemma PermutedStaysDuplicateFree(a: seq<WebRoute>, b: seq<WebRoute>)
    requires multiset(a) == multiset(b) && DuplicateFree(a)
    ensures DuplicateFree(b)
  {
    if i, j :| 0 <= i < j < |b| && b[i].prefix == b[j].prefix {
      assert b[i] in multiset(b) && b[j] in multiset(b);
      assert b[i] in a && b[j] in a;
      SamePrefixSameRoute(a, b[i], b[j]);
      assert b == b[..i] + [b[i]] + b[i + 1..j] + [b[j]] + b[j + 1..];
      assert multiset(b)[b[i]] >= 2;
      OccursOnce(a, b[i]);
    }
  }

  lemma SamePrefixSameRoute(a: seq<WebRoute>, r: WebRoute, s: WebRoute)
    requires DuplicateFree(a) && r in a && s in a && r.prefix == s.prefix
    ensures r == s
  {
    var i :| 0 <= i < |a| && a[i] == r;
    var j :| 0 <= j < |a| && a[j] == s;
  }

  lemma {:induction false} OccursOnce(a: seq<WebRoute>, r: WebRoute)
    requires DuplicateFree(a)
    ensures multiset(a)[r] <= 1
    decreases |a|
  {
    if a != [] {
      var front := a[..|a| - 1];
      assert a == front + [a[|a| - 1]];
      OccursOnce(front, r);
      if r == a[|a| - 1] {
        assert r !in front;
        assert multiset(front)[r] == 0;
      }
    }
  }

  // ---------------------------------------------------------------- the code

  datatype Reply = Ok | MissingPrefix | PrefixNotFound | MissingHostOrPort | AlreadyRegistered | TableFull

  class RouteTable {
    var routes: array<WebRoute>
    var n: nat

    ghost predicate Shape()
      reads this
    {
      routes.Length == MAX_WEB_ROUTES && n <= MAX_WEB_ROUTES
    }

    ghost function Table(): seq<WebRoute>
      requires Shape()
      reads this, routes
    {
      routes[..n]
    }

    ghost predicate Valid()
      reads this, routes
    {
      Shape() && Sorted(Table()) && DuplicateFree(Table())
    }

    /** `load_web_routes` on the parsed lines of the file. */
    constructor (lines: seq<WebRoute>)
      ensures Shape() && fresh(routes) && Sorted(Table())
      ensures multiset(Table()) == multiset(lines[..if |lines| < MAX_WEB_ROUTES then |lines| else MAX_WEB_ROUTES])
      ensures DuplicateFree(lines) ==> Valid()
    {
      routes := new WebRoute[MAX_WEB_ROUTES](_ => NO_ROUTE);
      n := 0;
      new;
      while n < |lines| && n < MAX_WEB_ROUTES
        invariant n <= |lines| && n <= MAX_WEB_ROUTES
        invariant routes.Length == MAX_WEB_ROUTES && fresh(routes)
        invariant routes[..n] == lines[..n]
        modifies this`n, routes
      {
        routes[n] := lines[n];
        n := n + 1;
      }
      SortWebRoutes();
      if DuplicateFree(lines) {
        PermutedStaysDuplicateFree(lines[..n], Table());
      }
    }

    method Swap(i: nat, j: nat)
      requires Shape() && i < j < n
      modifies routes
      ensures Table() == Swapped(old(Table()), i, j)
    {
      var tmp := routes[i];
      routes[i] := routes[j];
      routes[j] := tmp;
    }

    /** The exchange sort. It is not stable, which no lookup can tell. */
    method SortWebRoutes()
      requires Shape()
      modifies routes
      ensures Sorted(Table()) && multiset(Table()) == multiset(old(Table()))
    {
      hide Swapped;
      for i := 0 to n
        invariant multiset(Table()) == multiset(old(Table()))
        invariant SortedTo(Table(), i)
      {
        for j := i + 1 to n
          invariant multiset(Table()) == multiset(old(Table()))
          invariant SortedTo(Table(), i) && LeadsTo(Table(), i, j)
        {
          assert Table()[i] == routes[i] && Table()[j] == routes[j];
          if |routes[j].prefix| > |routes[i].prefix| {
            SwapStep(Table(), i, j);
            Swap(i, j);
          }
        }
      }
    }

    /** The longest prefix that ends at a segment boundary. */
    method MatchWebRoute(path: string) returns (found: Option<WebRoute>)
      requires Valid()
      ensures found.Some? ==> IsLongestMatch(Table(), path, found.value)
      ensures found.None? ==> forall r | r in Table() :: !Matches(r.prefix, path)
    {
      for i := 0 to n
        invariant forall k | 0 <= k < i :: !Matches(routes[k].prefix, path)
      {
        var prefix := routes[i].prefix;
        if prefix <= path {
          if |path| == |prefix| || path[|prefix|] == '/' {
            FirstMatchIsLongest(Table(), path, i);
            return Some(routes[i]);
          }
        }
      }
      return None;
    }

    method FindWebRoute(prefix: string) returns (at: int)
      requires Shape()
      ensures at >= 0 ==> at < n && routes[at].prefix == prefix
      ensures at < 0 <==> forall r | r in Table() :: r.prefix != prefix
    {
      for i := 0 to n
        invariant forall k | 0 <= k < i :: routes[k].prefix != prefix
      {
        if routes[i].prefix == prefix {
          assert routes[i] in Table();
          return i;
        }
      }
      return -1;
    }

    /** Closes the gap that a removed route leaves. */
    method ShiftDown(at: nat)
      requires Shape() && at < n
      modifies this`n, routes
      ensures Shape() && n == old(n) - 1
      ensures Table() == old(Table())[..at] + old(Table())[at + 1..]
    {
      for i := at to n - 1
        invariant n == old(n) && Shape()
        invariant forall k | 0 <= k < at :: routes[k] == old(routes[k])
        invariant forall k | at <= k < i :: routes[k] == old(routes[k + 1])
        invariant forall k | i <= k < n :: routes[k] == old(routes[k])
      {
        routes[i] := routes[i + 1];
      }
      n := n - 1;
    }

    method Remove(prefix: string) returns (reply: Reply)
      requires Valid()
      modifies this`n, routes
      ensures Valid()
      ensures reply == if prefix == "" then MissingPrefix
                       else if prefix in old(Registered(Table())) then Ok else PrefixNotFound
      ensures Registered(Table()) == if reply == Ok then old(Registered(Table())) - {prefix} else old(Registered(Table()))
    {
      if prefix == "" {
        return MissingPrefix;
      }
      ghost var before := Table();
      var at := FindWebRoute(prefix);
      if at < 0 {
        return PrefixNotFound;
      }
      assert before[at] in before;
      RemovedOne(before, at);
      ShiftDown(at);
      return Ok;
    }

    method Publish(prefix: string, host: string, port: int, uid: nat, auth: int) returns (reply: Reply)
      requires Valid()
      modifies this`n, routes
      ensures Valid()
      ensures reply == if prefix == "" then MissingPrefix
                       else if host == "" || port <= 0 then MissingHostOrPort
                       else if prefix in old(Registered(Table())) then AlreadyRegistered
                       else if old(n) >= MAX_WEB_ROUTES then TableFull
                       else Ok
      ensures Registered(Table()) == if reply == Ok
                                     then old(Registered(Table()))[prefix := WebRoute(prefix, host, port, uid, auth)]
                                     else old(Registered(Table()))
    {
      if prefix == "" {
        return MissingPrefix;
      }
      if host == "" || port <= 0 {
        return MissingHostOrPort;
      }
      ghost var before := Table();
      var at := FindWebRoute(prefix);
      if at >= 0 {
        assert before[at] in before;
        return AlreadyRegistered;
      }
      if n >= MAX_WEB_ROUTES {
        return TableFull;
      }
      var route := WebRoute(prefix, host, port, uid, auth);
      routes[n] := route;
      n := n + 1;
      assert Table() == before + [route];
      AddedOne(before, route);
      SortWebRoutes();
      PermutedStaysDuplicateFree(before + [route], Table());
      PermutedRegistered(before + [route], Table());
      return Ok;
    }
  }

  lemma AddedOne(routes: seq<WebRoute>, route: WebRoute)
    requires DuplicateFree(routes) && forall r | r in routes :: r.prefix != route.prefix
    ensures DuplicateFree(routes + [route])
    ensures Registered(routes + [route]) == Registered(routes)[route.prefix := route]
  {
    var more := routes + [route];
    forall i, j | 0 <= i < j < |more| ensures more[i].prefix != more[j].prefix {
      assert routes[i] in routes;
    }
    assert forall r :: r in more <==> r in routes || r == route;
  }

  lemma RestMembers(routes: seq<WebRoute>, at: nat, r: WebRoute)
    requires at < |routes| && DuplicateFree(routes)
    ensures r in routes[..at] + routes[at + 1..] <==> r in routes && r.prefix != routes[at].prefix
  {
    var rest := routes[..at] + routes[at + 1..];
    if r in routes && r.prefix != routes[at].prefix {
      var i :| 0 <= i < |routes| && routes[i] == r;
      assert rest[if i < at then i else i - 1] == r;
    }
    if r in rest {
      var i :| 0 <= i < |rest| && rest[i] == r;
      assert routes[if i < at then i else i + 1] == r;
    }
  }

  lemma RemovedOne(routes: seq<WebRoute>, at: nat)
    requires at < |routes| && Sorted(routes) && DuplicateFree(routes)
    ensures
      var rest := routes[..at] + routes[at + 1..];
      && Sorted(rest) && DuplicateFree(rest)
      && Registered(rest) == Registered(routes) - {routes[at].prefix}
  {
    var rest := routes[..at] + routes[at + 1..];
    assert forall i | 0 <= i < |rest| :: rest[i] == routes[if i < at then i else i + 1];
    assert DuplicateFree(rest) && Sorted(rest);
    hide DuplicateFree, Sorted;
    forall r ensures r in rest <==> r in routes && r.prefix != routes[at].prefix {
      RestMembers(routes, at, r);
    }
    SamePrefixes(routes, rest, routes[at].prefix);
  }

  lemma SamePrefixes(routes: seq<WebRoute>, rest: seq<WebRoute>, prefix: string)
    requires DuplicateFree(routes) && DuplicateFree(rest)
    requires forall r :: r in rest <==> r in routes && r.prefix != prefix
    ensures Registered(rest) == Registered(routes) - {prefix}
  {
  }

  lemma PermutedRegistered(a: seq<WebRoute>, b: seq<WebRoute>)
    requires multiset(a) == multiset(b) && DuplicateFree(a) && DuplicateFree(b)
    ensures Registered(a) == Registered(b)
  {
    forall r ensures r in a <==> r in b {
      assert r in multiset(a) <==> r in a;
      assert r in multiset(b) <==> r in b;
    }
  }
}
