/**
 Where connectors listen: each socket sits in a directory of its own, apart from every other connector's and from the
 files of agentd itself. A cleaned absolute path is the list of its components.
 */
module ConnectorPaths {
  import opened GoTypes

  const SLASH: byte := 0x2F
  const DOT: byte := 0x2E
  const LOCK_SUFFIX: Str := [0x2E, 0x6C, 0x6F, 0x63, 0x6B]

  // ---- Paths ----

  predicate IsAbs(p: Str) { |p| > 0 && p[0] == SLASH }

  /** What lies between the slashes. */
  function Segments(p: Str): (r: seq<Str>)
    ensures |r| > 0
  {
    if |p| == 0 then [[]]
    else if p[0] == SLASH then [[]] + Segments(p[1..])
    else
      var rest := Segments(p[1..]);
      [[p[0]] + rest[0]] + rest[1..]
  }

  /** One segment more: empty ones and "." stand still, ".." goes back, but not above the root. */
  function Enter(path: seq<Str>, segment: Str): seq<Str> {
    if segment == [] || segment == [DOT] then path
    else if segment == [DOT, DOT] then if path == [] then [] else path[..|path| - 1]
    else path + [segment]
  }

  function Walk(path: seq<Str>, segments: seq<Str>): seq<Str>
    decreases |segments|
  {
    if |segments| == 0 then path else Walk(Enter(path, segments[0]), segments[1..])
  }

  /** filepath.Clean of an absolute path. */
  function Clean(p: Str): seq<Str> { Walk([], Segments(p)) }

  predicate Component(s: Str) { s != [] && SLASH !in s && s != [DOT] && s != [DOT, DOT] }

  predicate Normal(path: seq<Str>) { forall i :: 0 <= i < |path| ==> Component(path[i]) }

  /** A component list as a path. */
  function Render(path: seq<Str>): Str { if |path| == 0 then [] else [SLASH] + path[0] + Render(path[1..]) }

  lemma {:induction false} SegmentsHaveNoSlash(p: Str)
    ensures forall i :: 0 <= i < |Segments(p)| ==> SLASH !in Segments(p)[i]
    decreases |p|
  {
    if |p| > 0 { SegmentsHaveNoSlash(p[1..]); }
  }

  lemma {:induction false} WalkIsNormal(path: seq<Str>, segments: seq<Str>)
    requires Normal(path) && forall i :: 0 <= i < |segments| ==> SLASH !in segments[i]
    ensures Normal(Walk(path, segments))
    decreases |segments|
  {
    if |segments| > 0 { WalkIsNormal(Enter(path, segments[0]), segments[1..]); }
  }

  /** A cleaned path has no empty, "." or ".." component. */
  lemma CleanIsNormal(p: Str)
    ensures Normal(Clean(p))
  {
    SegmentsHaveNoSlash(p);
    WalkIsNormal([], Segments(p));
  }

  lemma {:induction false} SegmentsAfter(s: Str, rest: Str, p: Str, r: seq<Str>)
    requires SLASH !in s && p == s + rest && r == Segments(rest)
    ensures Segments(p) == [s + r[0]] + r[1..]
    decreases |s|
  {
    if |s| == 0 {
      assert p == rest && s + r[0] == r[0];
    } else {
      assert p[1..] == s[1..] + rest;
      SegmentsAfter(s[1..], rest, p[1..], r);
      var q := Segments(p[1..]);
      assert q[0] == s[1..] + r[0] && q[1..] == r[1..];
      assert [s[0]] + (s[1..] + r[0]) == s + r[0];
    }
  }

  lemma WalkTwo(before: seq<Str>, s: Str, rest: seq<Str>, segments: seq<Str>)
    requires Component(s) && segments == [[], s] + rest
    ensures Walk(before, segments) == Walk(before + [s], rest)
  {
    assert segments[1..] == [s] + rest && segments[1..][1..] == rest;
  }

  lemma AfterSlash(p: Str, q: Str, segments: seq<Str>)
    requires p == [SLASH] + q && segments == Segments(q)
    ensures Segments(p) == [[]] + segments
  {
    assert p[1..] == q;
  }

  lemma SegmentsRendered(path: seq<Str>, s: Str, rest: Str, r: seq<Str>)
    requires |path| > 0 && s == path[0] && SLASH !in s && rest == Render(path[1..]) && r == Segments(rest) && r[0] == []
    ensures Segments(Render(path)) == [[], s] + r[1..]
  {
    SegmentsAfter(s, rest, s + rest, r);
    AfterSlash([SLASH] + (s + rest), s + rest, [s + r[0]] + r[1..]);
    assert Render(path) == [SLASH] + (s + rest);
    assert s + r[0] == s;
  }

  lemma {:induction false} WalkRendered(before: seq<Str>, path: seq<Str>, segments: seq<Str>)
    requires Normal(path) && segments == Segments(Render(path))
    ensures Walk(before, segments) == before + path && segments[0] == []
    decreases |path|
  {
    if |path| == 0 {
      assert segments == [[]] && segments[1..] == [];
    } else {
      var r, next := Segments(Render(path[1..])), before + [path[0]];
      WalkRendered(next, path[1..], r);
      SegmentsRendered(path, path[0], Render(path[1..]), r);
      WalkTwo(before, path[0], r[1..], segments);
      assert Walk(next, r) == Walk(next, r[1..]);
      assert next + path[1..] == before + path;
    }
  }

  /** Cleaning a clean path changes nothing, so equal components are equal paths. */
  lemma CleanIsStable(path: seq<Str>)
    requires Normal(path)
    ensures Clean(Render(path)) == path
  {
    WalkRendered([], path, Segments(Render(path)));
    assert [] + path == path;
  }

  lemma {:induction false} SegmentsOfLonger(p: Str, segment: Str, longer: Str)
    requires SLASH !in segment && longer == p + [SLASH] + segment
    ensures Segments(longer) == Segments(p) + [segment]
    decreases |p|
  {
    if |p| == 0 {
      assert longer == [SLASH] + segment;
      SegmentsAfter(segment, [], segment, Segments([]));
      AfterSlash(longer, segment, [segment]);
    } else {
      assert longer[1..] == p[1..] + [SLASH] + segment;
      SegmentsOfLonger(p[1..], segment, longer[1..]);
    }
  }

  lemma {:induction false} WalkOn(path: seq<Str>, segments: seq<Str>, last: Str, all: seq<Str>)
    requires all == segments + [last]
    ensures Walk(path, all) == Enter(Walk(path, segments), last)
    decreases |segments|
  {
    if |segments| == 0 {
      assert all == [last] && all[1..] == [];
    } else {
      assert all[1..] == segments[1..] + [last];
      WalkOn(Enter(path, segments[0]), segments[1..], last, all[1..]);
    }
  }

  /** What one more element does to a cleaned path: nothing if it is empty or ".", back to the directory if "..", else a step in. */
  lemma CleanExtends(p: Str, segment: Str)
    requires SLASH !in segment
    ensures Clean(p + [SLASH] + segment) ==
      if segment == [] || segment == [DOT] then Clean(p)
      else if segment == [DOT, DOT] then Directory(Clean(p))
      else Clean(p) + [segment]
  {
    SegmentsOfLonger(p, segment, p + [SLASH] + segment);
    WalkOn([], Segments(p), segment, Segments(p) + [segment]);
  }

  /** The lock's path is the database's path with the suffix appended. */
  lemma {:induction false} LockIsSuffixed(database: seq<Str>)
    requires database != []
    ensures Render(LockPath(database)) == Render(database) + LOCK_SUFFIX
    decreases |database|
  {
    if |database| == 1 {
      assert database == [database[0]] && LockPath(database) == [database[0] + LOCK_SUFFIX];
      assert [SLASH] + (database[0] + LOCK_SUFFIX) + [] == ([SLASH] + database[0] + []) + LOCK_SUFFIX;
    } else {
      LockIsSuffixed(database[1..]);
      assert LockPath(database)[1..] == LockPath(database[1..]) && LockPath(database)[0] == database[0];
    }
  }

  // ---- Sockets ----

  /** pathWithin on cleaned absolute paths. */
  predicate Within(path: seq<Str>, root: seq<Str>) { root <= path }

  predicate Overlap(a: seq<Str>, b: seq<Str>) { Within(a, b) || Within(b, a) }

  /** filepath.Dir; the root is its own directory. */
  function Directory(path: seq<Str>): seq<Str> { if path == [] then [] else path[..|path| - 1] }

  /** ProcessLockPath: the database's path with a suffix. */
  function LockPath(database: seq<Str>): seq<Str> {
    if database == [] then [LOCK_SUFFIX] else database[..|database| - 1] + [database[|database| - 1] + LOCK_SUFFIX]
  }

  /** The files of agentd that no connector may reach. */
  function OwnFiles(database: Str, sandbox: Str): seq<seq<Str>> { [Clean(database), Clean(sandbox), LockPath(Clean(database))] }

  predicate OwnFilesOk(database: Str, sandbox: Str) {
    && IsAbs(database) && IsAbs(sandbox) && Clean(database) != Clean(sandbox)
    && LockPath(Clean(database)) != Clean(database) && LockPath(Clean(database)) != Clean(sandbox)
  }

  function Home(socket: Str): seq<Str> { Directory(Clean(socket)) }

  /** What the loop asks of the n-th socket, given those before it. */
  predicate SocketOkAt(database: Str, sandbox: Str, sockets: seq<Str>, n: nat)
    requires n < |sockets|
  {
    && IsAbs(sockets[n]) && Clean(sockets[n]) !in OwnFiles(database, sandbox) && Home(sockets[n]) != []
    && (forall f :: f in OwnFiles(database, sandbox) ==> !Within(f, Home(sockets[n])))
    && (forall i :: 0 <= i < n ==> Clean(sockets[i]) != Clean(sockets[n]) && !Overlap(Home(sockets[n]), Home(sockets[i])))
  }

  predicate SocketsOk(database: Str, sandbox: Str, sockets: seq<Str>) {
    OwnFilesOk(database, sandbox) && forall n :: 0 <= n < |sockets| ==> SocketOkAt(database, sandbox, sockets, n)
  }

  /** The path checks of Validate: two maps filled while the connectors are gone through. */
  method CheckSockets(database: Str, sandbox: Str, sockets: seq<Str>) returns (ok: bool)
    ensures ok <==> SocketsOk(database, sandbox, sockets)
  {
    if !OwnFilesOk(database, sandbox) { return false; }
    var own := OwnFiles(database, sandbox);
    var seen: set<seq<Str>>, homes: set<seq<Str>> := {own[0], own[1], own[2]}, {};
    for n := 0 to |sockets|
      invariant forall m :: 0 <= m < n ==> SocketOkAt(database, sandbox, sockets, m)
      invariant forall p :: p in seen <==> p in own || exists i :: 0 <= i < n && Clean(sockets[i]) == p
      invariant forall h :: h in homes <==> exists i :: 0 <= i < n && Home(sockets[i]) == h
    {
      var path, home := Clean(sockets[n]), Home(sockets[n]);
      if !IsAbs(sockets[n]) || path in seen || home == [] || (exists f :: f in own && Within(f, home))
         || exists h :: h in homes && Overlap(home, h)
      {
        assert !SocketOkAt(database, sandbox, sockets, n);
        return false;
      }
      seen, homes := seen + {path}, homes + {home};
    }
    return true;
  }

  lemma HomeOfOtherSocket(a: seq<Str>, b: seq<Str>)
    requires |a| > 0 && |b| > 0 && Within(b, Directory(a))
    ensures Overlap(Directory(a), Directory(b))
  {
    if |a| - 1 < |b| {
      assert Directory(a) <= Directory(b) by { assert forall i :: 0 <= i < |a| - 1 ==> Directory(b)[i] == b[i] == Directory(a)[i]; }
    }
  }

  /**
   Isolation: whatever order the connectors come in, no connector's directory holds another connector's socket, the
   database, the process lock or the sandbox socket, at any depth.
   */
  lemma ConnectorsAreApart(database: Str, sandbox: Str, sockets: seq<Str>, i: nat, j: nat)
    requires SocketsOk(database, sandbox, sockets) && i < |sockets| && j < |sockets| && i != j
    ensures !Within(Clean(sockets[j]), Home(sockets[i]))
    ensures !Within(Clean(database), Home(sockets[i])) && !Within(Clean(sandbox), Home(sockets[i]))
    ensures !Within(LockPath(Clean(database)), Home(sockets[i]))
  {
    assert SocketOkAt(database, sandbox, sockets, i) && SocketOkAt(database, sandbox, sockets, j);
    var own := OwnFiles(database, sandbox);
    assert own[0] in own && own[1] in own && own[2] in own;
    if Within(Clean(sockets[j]), Home(sockets[i])) { HomeOfOtherSocket(Clean(sockets[i]), Clean(sockets[j])); }
  }
}
