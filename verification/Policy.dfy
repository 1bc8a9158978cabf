/** Operator policy: the uniqueness checks, the canonical form behind the policy revision, and exact-binding authorization. */
module Policy {
  import opened GoTypes
  import opened StoreTypes
  import opened ConnectorPaths
  import Exec = ExecutionWire
  import Utf8

  const MAX_NAME_BYTES := 128

  datatype Connector = Connector(id: Str, peerUid: nat, selfActor: Str)

  /** The name is an operator label only; it grants nothing. */
  datatype Binding = Binding(name: Str, connector: Str, actor: Str, conversation: Str, targetId: Str, targetRevision: Str)

  datatype Config = Config(connectors: seq<Connector>, bindings: seq<Binding>)

  // ---- Validation ----

  datatype BindingKey = BindingKey(connector: Str, actor: Str, conversation: Str)

  function KeyOf(b: Binding): BindingKey { BindingKey(b.connector, b.actor, b.conversation) }

  predicate ValidRef(s: Str) { ValidIdentifier(s, MAX_ID_BYTES) }

  /** A dedicated service user: not root, not the overflow user, not the reserved value. */
  predicate ValidUid(uid: nat) { uid != 0 && uid != 65534 && uid < 0xFFFF_FFFF }

  predicate ValidConnector(c: Connector) { ValidUid(c.peerUid) && Exec.ValidName(c.id, MAX_NAME_BYTES) && ValidRef(c.selfActor) }

  predicate ValidBinding(b: Binding) {
    && Exec.ValidName(b.name, MAX_NAME_BYTES) && ValidRef(b.actor) && ValidRef(b.conversation)
    && Exec.ValidName(b.targetId, MAX_TARGET_ID_BYTES) && Exec.ValidName(b.targetRevision, MAX_REVISION_BYTES)
  }

  /** A binding names a configured connector and not that connector's own actor. */
  predicate Refers(connectors: seq<Connector>, b: Binding) {
    exists i :: 0 <= i < |connectors| && connectors[i].id == b.connector && connectors[i].selfActor != b.actor
  }

  /** What the loop over connectors asks of the n-th: well formed, and its ID not seen before. */
  predicate ConnectorOkAt(connectors: seq<Connector>, n: nat)
    requires n < |connectors|
  {
    ValidConnector(connectors[n]) && forall i :: 0 <= i < n ==> connectors[i].id != connectors[n].id
  }

  predicate ConnectorsOk(connectors: seq<Connector>) { forall n :: 0 <= n < |connectors| ==> ConnectorOkAt(connectors, n) }

  /** What the loop over bindings asks of the n-th: well formed, neither its label nor its key seen before. */
  predicate BindingOkAt(connectors: seq<Connector>, bindings: seq<Binding>, n: nat)
    requires n < |bindings|
  {
    && ValidBinding(bindings[n]) && Refers(connectors, bindings[n])
    && forall i :: 0 <= i < n ==> bindings[i].name != bindings[n].name && KeyOf(bindings[i]) != KeyOf(bindings[n])
  }

  predicate BindingsOk(connectors: seq<Connector>, bindings: seq<Binding>) {
    forall n :: 0 <= n < |bindings| ==> BindingOkAt(connectors, bindings, n)
  }

  predicate Valid(c: Config) {
    |c.connectors| > 0 && ConnectorsOk(c.connectors) && |c.bindings| > 0 && BindingsOk(c.connectors, c.bindings)
  }

  method CheckConnectors(connectors: seq<Connector>) returns (ok: bool)
    ensures ok <==> ConnectorsOk(connectors)
  {
    var seen: set<Str> := {};
    for n := 0 to |connectors|
      invariant forall m :: 0 <= m < n ==> ConnectorOkAt(connectors, m)
      invariant forall id :: id in seen <==> exists i :: 0 <= i < n && connectors[i].id == id
    {
      var c := connectors[n];
      if !ValidUid(c.peerUid) || !Exec.ValidName(c.id, MAX_NAME_BYTES) || c.id in seen || !ValidRef(c.selfActor) {
        assert !ConnectorOkAt(connectors, n);
        return false;
      }
      seen := seen + {c.id};
    }
    return true;
  }

  /** The loop that fills connectorsByID: every ID finds its own connector. */
  method ConnectorsById(connectors: seq<Connector>) returns (byId: map<Str, Connector>)
    requires ConnectorsOk(connectors)
    ensures forall i :: 0 <= i < |connectors| ==> connectors[i].id in byId && byId[connectors[i].id] == connectors[i]
    ensures forall id :: id in byId ==> byId[id] in connectors && byId[id].id == id
  {
    byId := map[];
    for n := 0 to |connectors|
      invariant forall i :: 0 <= i < n ==> connectors[i].id in byId && byId[connectors[i].id] == connectors[i]
      invariant forall id :: id in byId ==> byId[id] in connectors && byId[id].id == id
    {
      assert ConnectorOkAt(connectors, n);
      byId := byId[connectors[n].id := connectors[n]];
    }
  }

  /** A binding refers properly exactly when the connector it finds by ID has another actor of its own. */
  lemma RefersById(connectors: seq<Connector>, byId: map<Str, Connector>, b: Binding)
    requires forall i :: 0 <= i < |connectors| ==> connectors[i].id in byId && byId[connectors[i].id] == connectors[i]
    requires forall id :: id in byId ==> byId[id] in connectors && byId[id].id == id
    ensures Refers(connectors, b) <==> b.connector in byId && byId[b.connector].selfActor != b.actor
  {
  }

  method CheckBindings(connectors: seq<Connector>, bindings: seq<Binding>) returns (ok: bool)
    requires ConnectorsOk(connectors)
    ensures ok <==> BindingsOk(connectors, bindings)
  {
    var names: set<Str>, keys: set<BindingKey> := {}, {};
    var byId := ConnectorsById(connectors);
    for n := 0 to |bindings|
      invariant forall m :: 0 <= m < n ==> BindingOkAt(connectors, bindings, m)
      invariant forall x :: x in names <==> exists i :: 0 <= i < n && bindings[i].name == x
      invariant forall x :: x in keys <==> exists i :: 0 <= i < n && KeyOf(bindings[i]) == x
    {
      var b := bindings[n];
      RefersById(connectors, byId, b);
      var refused := b.connector !in byId || b.actor == byId[b.connector].selfActor;
      if !ValidBinding(b) || b.name in names || refused || KeyOf(b) in keys {
        assert !BindingOkAt(connectors, bindings, n);
        return false;
      }
      names := names + {b.name};
      keys := keys + {KeyOf(b)};
    }
    return true;
  }

  /** The files named in a configuration; the sockets are the connectors' own, in their order. */
  datatype Paths = Paths(database: Str, sandboxSocket: Str, sockets: seq<Str>)

  method ValidateConfig(c: Config, p: Paths) returns (ok: bool)
    requires |p.sockets| == |c.connectors|
    ensures ok <==> Valid(c) && SocketsOk(p.database, p.sandboxSocket, p.sockets)
  {
    if |c.connectors| == 0 { return false; }
    ok := CheckConnectors(c.connectors);
    var apart := CheckSockets(p.database, p.sandboxSocket, p.sockets);
    if !ok || !apart || |c.bindings| == 0 { return false; }
    ok := CheckBindings(c.connectors, c.bindings);
  }

  // ---- Canonical form ----

  datatype CanonicalBinding = CanonicalBinding(key: BindingKey, targetId: Str, targetRevision: Str)

  /** What policyRevision encodes and hashes; the encoding and digest are taken to be injective. */
  datatype Canonical = Canonical(connectors: seq<Connector>, bindings: seq<CanonicalBinding>)

  function CanonicalOf(b: Binding): CanonicalBinding { CanonicalBinding(KeyOf(b), b.targetId, b.targetRevision) }

  predicate KeyLess(a: BindingKey, b: BindingKey) {
    if a.connector != b.connector then Less(a.connector, b.connector)
    else if a.actor != b.actor then Less(a.actor, b.actor)
    else Less(a.conversation, b.conversation)
  }

  lemma KeyLessIsOrder(a: BindingKey, b: BindingKey, c: BindingKey)
    ensures !(KeyLess(a, b) && KeyLess(b, a)) && !KeyLess(a, a)
    ensures a != b ==> KeyLess(a, b) || KeyLess(b, a)
    ensures KeyLess(a, b) && KeyLess(b, c) ==> KeyLess(a, c)
  {
    LessIsTotal(a.connector, b.connector);
    LessIsTotal(a.actor, b.actor);
    LessIsTotal(a.conversation, b.conversation);
    LessIsTotal(a.connector, a.connector);
    LessIsTotal(a.actor, a.actor);
    LessIsTotal(a.conversation, a.conversation);
    if KeyLess(a, b) && KeyLess(b, c) {
      if Less(a.connector, b.connector) && Less(b.connector, c.connector) { LessIsTransitive(a.connector, b.connector, c.connector); }
      if Less(a.actor, b.actor) && Less(b.actor, c.actor) { LessIsTransitive(a.actor, b.actor, c.actor); }
      if Less(a.conversation, b.conversation) && Less(b.conversation, c.conversation) { LessIsTransitive(a.conversation, b.conversation, c.conversation); }
      LessIsTotal(b.connector, c.connector);
      LessIsTotal(a.connector, c.connector);
      LessIsTotal(a.actor, c.actor);
    }
  }

  /** Sorting by a key; connectors sort by ID alone. */
  datatype Keyed<T> = Keyed(key: BindingKey, item: T)

  predicate Ascending<T>(s: seq<Keyed<T>>) { forall i, j :: 0 <= i < j < |s| ==> KeyLess(s[i].key, s[j].key) }

  predicate DistinctKeys<T>(s: seq<Keyed<T>>) { forall i, j :: 0 <= i < j < |s| ==> s[i].key != s[j].key }

  function Insert<T>(x: Keyed<T>, s: seq<Keyed<T>>): seq<Keyed<T>> {
    if |s| == 0 then [x] else if KeyLess(x.key, s[0].key) then [x] + s else [s[0]] + Insert(x, s[1..])
  }

  function Sort<T>(s: seq<Keyed<T>>): seq<Keyed<T>> {
    if |s| == 0 then [] else Insert(s[0], Sort(s[1..]))
  }

  lemma {:induction false} InsertHas<T>(x: Keyed<T>, s: seq<Keyed<T>>, y: Keyed<T>)
    ensures y in Insert(x, s) <==> y == x || y in s
    decreases |s|
  {
    if |s| > 0 && !KeyLess(x.key, s[0].key) {
      InsertHas(x, s[1..], y);
      assert s == [s[0]] + s[1..];
    }
  }

  lemma {:induction false} SortHas<T>(s: seq<Keyed<T>>, y: Keyed<T>)
    ensures y in Sort(s) <==> y in s
    decreases |s|
  {
    if |s| > 0 {
      SortHas(s[1..], y);
      InsertHas(s[0], Sort(s[1..]), y);
      assert s == [s[0]] + s[1..];
    }
  }

  lemma InTail<T>(s: seq<Keyed<T>>, y: Keyed<T>)
    requires |s| > 0 && Ascending(s) && y in s[1..]
    ensures KeyLess(s[0].key, y.key) && y in s
  {
    var j :| 0 <= j < |s[1..]| && s[1..][j] == y;
    assert s[j + 1] == y;
  }

  lemma {:induction false} InsertAscends<T>(x: Keyed<T>, s: seq<Keyed<T>>)
    requires Ascending(s) && forall y :: y in s ==> y.key != x.key
    ensures Ascending(Insert(x, s))
    decreases |s|
  {
    if |s| > 0 {
      KeyLessIsOrder(x.key, s[0].key, x.key);
      if KeyLess(x.key, s[0].key) {
        forall i | 0 < i < |s| ensures KeyLess(x.key, s[i].key) { KeyLessIsOrder(x.key, s[0].key, s[i].key); }
      } else {
        InsertAscends(x, s[1..]);
        assert s[0] in s;
        var r := Insert(x, s[1..]);
        forall i | 0 <= i < |r| ensures KeyLess(s[0].key, r[i].key) {
          InsertHas(x, s[1..], r[i]);
          if r[i] != x { InTail(s, r[i]); }
        }
      }
    }
  }

  lemma {:induction false} SortAscends<T>(s: seq<Keyed<T>>)
    requires DistinctKeys(s)
    ensures Ascending(Sort(s))
    decreases |s|
  {
    if |s| > 0 {
      SortAscends(s[1..]);
      forall y | y in Sort(s[1..]) ensures y.key != s[0].key {
        SortHas(s[1..], y);
        var i :| 0 <= i < |s[1..]| && s[1..][i] == y;
        assert s[i + 1] == y;
      }
      InsertAscends(s[0], Sort(s[1..]));
    }
  }

  /** There is one ascending sequence of a given set of items, whatever sorted it. */
  lemma {:induction false} AscendingIsUnique<T>(a: seq<Keyed<T>>, b: seq<Keyed<T>>)
    requires Ascending(a) && Ascending(b) && forall y :: y in a <==> y in b
    ensures a == b
    decreases |a|
  {
    SameEmptiness(a, b);
    if |a| > 0 {
      assert a[0] in a && b[0] in b;
      FirstsAgree(a, b);
      TailsAgree(a, b);
      AscendingIsUnique(a[1..], b[1..]);
      assert a == [a[0]] + a[1..] && b == [b[0]] + b[1..];
    }
  }

  lemma SameEmptiness<T>(a: seq<Keyed<T>>, b: seq<Keyed<T>>)
    requires forall y :: y in a <==> y in b
    ensures |a| == 0 <==> |b| == 0
  {
    if |a| > 0 { assert a[0] in a; }
    if |b| > 0 { assert b[0] in b; }
  }

  lemma FirstsAgree<T>(a: seq<Keyed<T>>, b: seq<Keyed<T>>)
    requires |a| > 0 && |b| > 0 && Ascending(a) && Ascending(b) && a[0] in b && b[0] in a
    ensures a[0] == b[0]
  {
    var i :| 0 <= i < |b| && b[i] == a[0];
    var j :| 0 <= j < |a| && a[j] == b[0];
    if i > 0 && j > 0 { KeyLessIsOrder(a[0].key, b[0].key, a[0].key); }
  }

  lemma TailsAgree<T>(a: seq<Keyed<T>>, b: seq<Keyed<T>>)
    requires |a| > 0 && |b| > 0 && Ascending(a) && Ascending(b) && a[0] == b[0] && forall y :: y in a <==> y in b
    ensures forall y :: y in a[1..] <==> y in b[1..]
  {
    forall y ensures y in a[1..] <==> y in b[1..] {
      if y in a[1..] { TailElement(a, b, y); }
      if y in b[1..] { TailElement(b, a, y); }
    }
  }

  lemma TailElement<T>(a: seq<Keyed<T>>, b: seq<Keyed<T>>, y: Keyed<T>)
    requires |a| > 0 && |b| > 0 && Ascending(a) && a[0] == b[0] && y in a[1..] && (y in a ==> y in b)
    ensures y in b[1..]
  {
    InTail(a, y);
    KeyLessIsOrder(a[0].key, y.key, y.key);
    var j :| 0 <= j < |b| && b[j] == y;
    assert b[1..][j - 1] == y;
  }

  function KeyedConnectors(connectors: seq<Connector>): (r: seq<Keyed<Connector>>)
    ensures |r| == |connectors| && forall i :: 0 <= i < |r| ==> r[i] == Keyed(BindingKey(connectors[i].id, [], []), connectors[i])
  {
    seq(|connectors|, i requires 0 <= i < |connectors| => Keyed(BindingKey(connectors[i].id, [], []), connectors[i]))
  }

  function KeyedBindings(bindings: seq<Binding>): (r: seq<Keyed<CanonicalBinding>>)
    ensures |r| == |bindings| && forall i :: 0 <= i < |r| ==> r[i] == Keyed(KeyOf(bindings[i]), CanonicalOf(bindings[i]))
  {
    seq(|bindings|, i requires 0 <= i < |bindings| => Keyed(KeyOf(bindings[i]), CanonicalOf(bindings[i])))
  }

  function Items<T>(s: seq<Keyed<T>>): (r: seq<T>)
    ensures |r| == |s| && forall i :: 0 <= i < |r| ==> r[i] == s[i].item
  {
    seq(|s|, i requires 0 <= i < |s| => s[i].item)
  }

  function CanonicalForm(c: Config): Canonical {
    Canonical(Items(Sort(KeyedConnectors(c.connectors))), Items(Sort(KeyedBindings(c.bindings))))
  }

  /** policyRevision up to the encoding: two loops copy the authority fields, then each list is sorted. */
  method BuildCanonical(c: Config) returns (r: Canonical)
    ensures r == CanonicalForm(c)
  {
    var connectors: seq<Keyed<Connector>>, bindings: seq<Keyed<CanonicalBinding>> := [], [];
    for n := 0 to |c.connectors|
      invariant connectors == KeyedConnectors(c.connectors[..n])
    {
      connectors := connectors + [Keyed(BindingKey(c.connectors[n].id, [], []), c.connectors[n])];
    }
    for n := 0 to |c.bindings|
      invariant bindings == KeyedBindings(c.bindings[..n])
    {
      bindings := bindings + [Keyed(KeyOf(c.bindings[n]), CanonicalOf(c.bindings[n]))];
    }
    assert c.connectors[..|c.connectors|] == c.connectors && c.bindings[..|c.bindings|] == c.bindings;
    return Canonical(Items(Sort(connectors)), Items(Sort(bindings)));
  }

  // ---- What the canonical form keeps and drops ----

  /** Two configurations grant the same: the same connectors and the same bindings, in any order and under any labels. */
  ghost predicate SameGrants(c: Config, d: Config) {
    && (forall x :: x in c.connectors <==> x in d.connectors)
    && (forall x :: x in GrantsOf(c) <==> x in GrantsOf(d))
  }

  ghost function GrantsOf(c: Config): set<CanonicalBinding> { set i | 0 <= i < |c.bindings| :: CanonicalOf(c.bindings[i]) }

  lemma ConnectorItems(connectors: seq<Connector>, y: Keyed<Connector>)
    ensures y in KeyedConnectors(connectors) <==> y.item in connectors && y.key == BindingKey(y.item.id, [], [])
  {
    if y.item in connectors && y.key == BindingKey(y.item.id, [], []) {
      var i :| 0 <= i < |connectors| && connectors[i] == y.item;
      assert KeyedConnectors(connectors)[i] == y;
    }
  }

  lemma BindingItems(c: Config, y: Keyed<CanonicalBinding>)
    ensures y in KeyedBindings(c.bindings) <==> y.item in GrantsOf(c) && y.key == y.item.key
  {
    if y.item in GrantsOf(c) && y.key == y.item.key {
      var i :| 0 <= i < |c.bindings| && CanonicalOf(c.bindings[i]) == y.item;
      assert KeyedBindings(c.bindings)[i] == y;
    }
  }

  lemma ValidKeysAreDistinct(c: Config)
    requires Valid(c)
    ensures DistinctKeys(KeyedConnectors(c.connectors)) && DistinctKeys(KeyedBindings(c.bindings))
  {
    forall i, j | 0 <= i < j < |c.connectors| ensures c.connectors[i].id != c.connectors[j].id {
      assert ConnectorOkAt(c.connectors, j);
    }
    forall i, j | 0 <= i < j < |c.bindings| ensures KeyOf(c.bindings[i]) != KeyOf(c.bindings[j]) {
      assert BindingOkAt(c.connectors, c.bindings, j);
    }
  }

  /** The items of a sorted keyed list, when each item's key is its own. */
  lemma SortedItems<T>(s: seq<Keyed<T>>, x: T, key: BindingKey)
    requires forall y :: y in s && y.item == x ==> y.key == key
    ensures x in Items(Sort(s)) <==> Keyed(key, x) in s
  {
    var sorted := Sort(s);
    SortHas(s, Keyed(key, x));
    if x in Items(sorted) {
      var i :| 0 <= i < |sorted| && Items(sorted)[i] == x;
      SortHas(s, sorted[i]);
    }
    if Keyed(key, x) in sorted {
      var i :| 0 <= i < |sorted| && sorted[i] == Keyed(key, x);
      assert Items(sorted)[i] == x;
    }
  }

  /** Order and labels do not reach the canonical form. */
  lemma CanonicalIgnoresOrderAndLabels(c: Config, d: Config)
    requires Valid(c) && Valid(d) && SameGrants(c, d)
    ensures CanonicalForm(c) == CanonicalForm(d)
  {
    ValidKeysAreDistinct(c);
    ValidKeysAreDistinct(d);
    var a, b := KeyedConnectors(c.connectors), KeyedConnectors(d.connectors);
    SortAscends(a);
    SortAscends(b);
    forall y ensures y in Sort(a) <==> y in Sort(b) {
      SortHas(a, y);
      SortHas(b, y);
      ConnectorItems(c.connectors, y);
      ConnectorItems(d.connectors, y);
    }
    AscendingIsUnique(Sort(a), Sort(b));
    var p, q := KeyedBindings(c.bindings), KeyedBindings(d.bindings);
    SortAscends(p);
    SortAscends(q);
    forall y ensures y in Sort(p) <==> y in Sort(q) {
      SortHas(p, y);
      SortHas(q, y);
      BindingItems(c, y);
      BindingItems(d, y);
    }
    AscendingIsUnique(Sort(p), Sort(q));
  }

  lemma CanonicalHolds(c: Config)
    ensures forall x :: x in CanonicalForm(c).connectors <==> x in c.connectors
    ensures forall x :: x in CanonicalForm(c).bindings <==> x in GrantsOf(c)
  {
    forall x ensures x in CanonicalForm(c).connectors <==> x in c.connectors {
      SortedItems(KeyedConnectors(c.connectors), x, BindingKey(x.id, [], []));
      ConnectorItems(c.connectors, Keyed(BindingKey(x.id, [], []), x));
    }
    forall x ensures x in CanonicalForm(c).bindings <==> x in GrantsOf(c) {
      SortedItems(KeyedBindings(c.bindings), x, x.key);
      BindingItems(c, Keyed(x.key, x));
    }
  }

  /** And nothing else is dropped: equal canonical forms mean the same grants. */
  lemma CanonicalDeterminesGrants(c: Config, d: Config)
    requires CanonicalForm(c) == CanonicalForm(d)
    ensures SameGrants(c, d)
  {
    CanonicalHolds(c);
    CanonicalHolds(d);
  }

  // ---- Compilation and authorization ----

  /** The fingerprint and the revision are digests of the canonical binding and the canonical policy, which stand for them. */
  datatype Decision = Decision(fingerprint: CanonicalBinding, revision: Canonical, targetId: Str, targetRevision: Str)

  datatype Pairing = Pairing(actor: Str, conversation: Str)

  datatype Endpoint = Endpoint(connector: Str, selfActor: Str, revision: Canonical, bindings: map<Pairing, Decision>)

  datatype Verdict = Granted(decision: Decision) | InvalidRequest | SelfEvent | NoBinding | UnknownConnector

  function DecisionOf(b: Binding, revision: Canonical): Decision { Decision(CanonicalOf(b), revision, b.targetId, b.targetRevision) }

  /** Endpoint.Authorize. */
  function Authorize(e: Endpoint, actor: Str, conversation: Str): Verdict {
    if e.connector == [] || e.selfActor == [] || actor == [] || conversation == [] then InvalidRequest
    else if actor == e.selfActor then SelfEvent
    else if Pairing(actor, conversation) !in e.bindings then NoBinding
    else Granted(e.bindings[Pairing(actor, conversation)])
  }

  /** Policy.Endpoint, then Authorize. */
  function Decide(endpoints: map<Str, Endpoint>, connector: Str, actor: Str, conversation: Str): Verdict {
    if connector !in endpoints then UnknownConnector else Authorize(endpoints[connector], actor, conversation)
  }

  /** Each connector's own actor, by connector ID. */
  function Selves(connectors: seq<Connector>): map<Str, Str> {
    if |connectors| == 0 then map[]
    else
      var last := connectors[|connectors| - 1];
      Selves(connectors[..|connectors| - 1])[last.id := last.selfActor]
  }

  /** The decision of every listed binding, by its exact key. */
  function Table(bindings: seq<Binding>, revision: Canonical): map<BindingKey, Decision> {
    if |bindings| == 0 then map[]
    else
      var last := bindings[|bindings| - 1];
      Table(bindings[..|bindings| - 1], revision)[KeyOf(last) := DecisionOf(last, revision)]
  }

  /** The endpoints are that table, split by connector. */
  ghost predicate Splits(endpoints: map<Str, Endpoint>, selves: map<Str, Str>, revision: Canonical, table: map<BindingKey, Decision>) {
    && endpoints.Keys == selves.Keys
    && (forall id :: id in endpoints ==>
          endpoints[id].connector == id && endpoints[id].selfActor == selves[id] && endpoints[id].revision == revision)
    && (forall id, actor, conversation :: id in endpoints ==>
          (Pairing(actor, conversation) in endpoints[id].bindings <==> BindingKey(id, actor, conversation) in table))
    && (forall id, actor, conversation :: id in endpoints && Pairing(actor, conversation) in endpoints[id].bindings ==>
          endpoints[id].bindings[Pairing(actor, conversation)] == table[BindingKey(id, actor, conversation)])
  }

  lemma AddSplits(endpoints: map<Str, Endpoint>, selves: map<Str, Str>, revision: Canonical, table: map<BindingKey, Decision>, b: Binding)
    requires Splits(endpoints, selves, revision, table) && b.connector in endpoints
    ensures var e := endpoints[b.connector];
      var decision := DecisionOf(b, revision);
      Splits(endpoints[b.connector := e.(bindings := e.bindings[Pairing(b.actor, b.conversation) := decision])],
             selves, revision, table[KeyOf(b) := decision])
  {
  }

  lemma {:induction false} SelvesListed(connectors: seq<Connector>, i: nat)
    requires ConnectorsOk(connectors) && i < |connectors|
    ensures connectors[i].id in Selves(connectors) && Selves(connectors)[connectors[i].id] == connectors[i].selfActor
    decreases |connectors|
  {
    var n := |connectors| - 1;
    assert ConnectorOkAt(connectors, n);
    if i < n {
      var init := connectors[..n];
      forall m | 0 <= m < n ensures ConnectorOkAt(init, m) { assert ConnectorOkAt(connectors, m); }
      SelvesListed(init, i);
    }
  }

  lemma {:induction false} SelvesOnlyListed(connectors: seq<Connector>, id: Str)
    requires id in Selves(connectors)
    ensures exists i :: 0 <= i < |connectors| && connectors[i].id == id
    decreases |connectors|
  {
    var n := |connectors| - 1;
    if connectors[n].id != id {
      SelvesOnlyListed(connectors[..n], id);
      var i :| 0 <= i < n && connectors[..n][i].id == id;
      assert connectors[i].id == id;
    }
  }

  /** One binding more, in the endpoint of its own connector. */
  method AddBinding(endpoints: map<Str, Endpoint>, ghost selves: map<Str, Str>, revision: Canonical, ghost table: map<BindingKey, Decision>, b: Binding)
    returns (after: map<Str, Endpoint>)
    requires Splits(endpoints, selves, revision, table) && b.connector in endpoints
    ensures Splits(after, selves, revision, table[KeyOf(b) := DecisionOf(b, revision)])
  {
    AddSplits(endpoints, selves, revision, table, b);
    var endpoint := endpoints[b.connector];
    var fingerprint := CanonicalBinding(BindingKey(b.connector, b.actor, b.conversation), b.targetId, b.targetRevision);
    var decision := Decision(fingerprint, revision, b.targetId, b.targetRevision);
    return endpoints[b.connector := endpoint.(bindings := endpoint.bindings[Pairing(b.actor, b.conversation) := decision])];
  }

  lemma BindingsConnectorIsKnown(c: Config, n: nat)
    requires Valid(c) && n < |c.bindings|
    ensures c.bindings[n].connector in Selves(c.connectors)
  {
    assert BindingOkAt(c.connectors, c.bindings, n);
    var i :| 0 <= i < |c.connectors| && c.connectors[i].id == c.bindings[n].connector;
    SelvesListed(c.connectors, i);
  }

  method Compile(c: Config) returns (endpoints: map<Str, Endpoint>)
    requires Valid(c)
    ensures Splits(endpoints, Selves(c.connectors), CanonicalForm(c), Table(c.bindings, CanonicalForm(c)))
  {
    var revision := BuildCanonical(c);
    endpoints := MakeEndpoints(c.connectors, revision);
    ghost var selves := Selves(c.connectors);
    for n := 0 to |c.bindings|
      invariant Splits(endpoints, selves, revision, Table(c.bindings[..n], revision))
    {
      BindingsConnectorIsKnown(c, n);
      assert c.bindings[..n + 1][..n] == c.bindings[..n];
      endpoints := AddBinding(endpoints, selves, revision, Table(c.bindings[..n], revision), c.bindings[n]);
    }
    assert c.bindings[..|c.bindings|] == c.bindings;
  }

  method MakeEndpoints(connectors: seq<Connector>, revision: Canonical) returns (endpoints: map<Str, Endpoint>)
    ensures Splits(endpoints, Selves(connectors), revision, map[])
  {
    endpoints := map[];
    for n := 0 to |connectors|
      invariant Splits(endpoints, Selves(connectors[..n]), revision, map[])
    {
      assert connectors[..n + 1][..n] == connectors[..n];
      endpoints := endpoints[connectors[n].id := Endpoint(connectors[n].id, connectors[n].selfActor, revision, map[])];
    }
    assert connectors[..|connectors|] == connectors;
  }

  // ---- What the compiled policy decides ----

  /** The same decision read off the whole table. */
  function Lookup(selves: map<Str, Str>, table: map<BindingKey, Decision>, connector: Str, actor: Str, conversation: Str): Verdict {
    if connector !in selves then UnknownConnector
    else if connector == [] || selves[connector] == [] || actor == [] || conversation == [] then InvalidRequest
    else if actor == selves[connector] then SelfEvent
    else if BindingKey(connector, actor, conversation) !in table then NoBinding
    else Granted(table[BindingKey(connector, actor, conversation)])
  }

  lemma DecideIsLookup(endpoints: map<Str, Endpoint>, selves: map<Str, Str>, revision: Canonical, table: map<BindingKey, Decision>,
                       connector: Str, actor: Str, conversation: Str)
    requires Splits(endpoints, selves, revision, table)
    ensures Decide(endpoints, connector, actor, conversation) == Lookup(selves, table, connector, actor, conversation)
  {
  }

  lemma {:induction false} TableListed(connectors: seq<Connector>, bindings: seq<Binding>, revision: Canonical, i: nat)
    requires BindingsOk(connectors, bindings) && i < |bindings|
    ensures KeyOf(bindings[i]) in Table(bindings, revision)
    ensures Table(bindings, revision)[KeyOf(bindings[i])] == DecisionOf(bindings[i], revision)
    decreases |bindings|
  {
    var n := |bindings| - 1;
    assert BindingOkAt(connectors, bindings, n);
    if i < n {
      var init := bindings[..n];
      forall m | 0 <= m < n ensures BindingOkAt(connectors, init, m) { assert BindingOkAt(connectors, bindings, m); }
      TableListed(connectors, init, revision, i);
    }
  }

  lemma {:induction false} TableOnlyListed(bindings: seq<Binding>, revision: Canonical, key: BindingKey)
    requires key in Table(bindings, revision)
    ensures exists i :: 0 <= i < |bindings| && KeyOf(bindings[i]) == key
    decreases |bindings|
  {
    var n := |bindings| - 1;
    if KeyOf(bindings[n]) != key {
      TableOnlyListed(bindings[..n], revision, key);
      var i :| 0 <= i < n && KeyOf(bindings[..n][i]) == key;
      assert KeyOf(bindings[i]) == key;
    }
  }

  /** The configuration lists a binding of this actor in this conversation of this connector. */
  ghost predicate Listed(c: Config, connector: Str, actor: Str, conversation: Str) {
    exists i :: 0 <= i < |c.bindings| && Matches(c.bindings[i], connector, actor, conversation)
  }

  predicate Matches(b: Binding, connector: Str, actor: Str, conversation: Str) {
    b.connector == connector && b.actor == actor && b.conversation == conversation
  }

  /** The configuration has a connector of this ID, with this actor of its own. */
  ghost predicate HasConnector(c: Config, connector: Str, self: Str) {
    exists i :: 0 <= i < |c.connectors| && c.connectors[i].id == connector && c.connectors[i].selfActor == self
  }

  ghost predicate KnowsConnector(c: Config, connector: Str) { exists i :: 0 <= i < |c.connectors| && c.connectors[i].id == connector }

  /** A listed binding's request is well formed, from a known connector, and not from the connector itself. */
  lemma ListedIsLookedUp(c: Config, i: nat)
    requires Valid(c) && i < |c.bindings|
    ensures var b := c.bindings[i];
      Lookup(Selves(c.connectors), Table(c.bindings, CanonicalForm(c)), b.connector, b.actor, b.conversation)
      == Granted(DecisionOf(b, CanonicalForm(c)))
  {
    var b := c.bindings[i];
    TableListed(c.connectors, c.bindings, CanonicalForm(c), i);
    assert BindingOkAt(c.connectors, c.bindings, i);
    var j :| 0 <= j < |c.connectors| && c.connectors[j].id == b.connector && c.connectors[j].selfActor != b.actor;
    assert ConnectorOkAt(c.connectors, j);
    SelvesListed(c.connectors, j);
  }

  lemma ListedIsInTable(c: Config, connector: Str, actor: Str, conversation: Str)
    requires Valid(c)
    ensures Listed(c, connector, actor, conversation) <==> BindingKey(connector, actor, conversation) in Table(c.bindings, CanonicalForm(c))
  {
    var key := BindingKey(connector, actor, conversation);
    if Listed(c, connector, actor, conversation) {
      var i :| 0 <= i < |c.bindings| && Matches(c.bindings[i], connector, actor, conversation);
      TableListed(c.connectors, c.bindings, CanonicalForm(c), i);
    }
    if key in Table(c.bindings, CanonicalForm(c)) {
      TableOnlyListed(c.bindings, CanonicalForm(c), key);
      var i :| 0 <= i < |c.bindings| && KeyOf(c.bindings[i]) == key;
      assert Matches(c.bindings[i], connector, actor, conversation);
    }
  }

  /** Authorization succeeds exactly when a binding of that connector, actor and conversation is listed. */
  lemma GrantedIffListed(c: Config, endpoints: map<Str, Endpoint>, connector: Str, actor: Str, conversation: Str)
    requires Valid(c) && Splits(endpoints, Selves(c.connectors), CanonicalForm(c), Table(c.bindings, CanonicalForm(c)))
    ensures Decide(endpoints, connector, actor, conversation).Granted? <==> Listed(c, connector, actor, conversation)
  {
    DecideIsLookup(endpoints, Selves(c.connectors), CanonicalForm(c), Table(c.bindings, CanonicalForm(c)), connector, actor, conversation);
    ListedIsInTable(c, connector, actor, conversation);
    if Listed(c, connector, actor, conversation) {
      var i :| 0 <= i < |c.bindings| && Matches(c.bindings[i], connector, actor, conversation);
      ListedIsLookedUp(c, i);
    }
  }

  lemma SelvesAre(c: Config, connector: Str)
    requires Valid(c)
    ensures KnowsConnector(c, connector) <==> connector in Selves(c.connectors)
    ensures connector in Selves(c.connectors) ==>
      connector != [] && Selves(c.connectors)[connector] != [] && forall self :: HasConnector(c, connector, self) <==> self == Selves(c.connectors)[connector]
  {
    if connector in Selves(c.connectors) { SelvesOnlyListed(c.connectors, connector); }
    forall i | 0 <= i < |c.connectors| && c.connectors[i].id == connector
      ensures connector in Selves(c.connectors) && Selves(c.connectors)[connector] == c.connectors[i].selfActor != [] && connector != []
    {
      assert ConnectorOkAt(c.connectors, i);
      SelvesListed(c.connectors, i);
    }
  }

  /** And each refusal has its exact reason. */
  lemma RefusedExactly(c: Config, endpoints: map<Str, Endpoint>, connector: Str, actor: Str, conversation: Str)
    requires Valid(c) && Splits(endpoints, Selves(c.connectors), CanonicalForm(c), Table(c.bindings, CanonicalForm(c)))
    ensures var verdict := Decide(endpoints, connector, actor, conversation);
      && (verdict == UnknownConnector <==> !KnowsConnector(c, connector))
      && (verdict == InvalidRequest <==> KnowsConnector(c, connector) && (actor == [] || conversation == []))
      && (verdict == SelfEvent <==> actor != [] && conversation != [] && HasConnector(c, connector, actor))
      && (verdict == NoBinding <==> KnowsConnector(c, connector) && actor != [] && conversation != [] && !HasConnector(c, connector, actor)
                                    && !Listed(c, connector, actor, conversation))
  {
    DecideIsLookup(endpoints, Selves(c.connectors), CanonicalForm(c), Table(c.bindings, CanonicalForm(c)), connector, actor, conversation);
    ListedIsInTable(c, connector, actor, conversation);
    SelvesAre(c, connector);
    if HasConnector(c, connector, actor) { assert KnowsConnector(c, connector); }
  }

  /** The decision names the binding's own target and the policy it comes from, and its fingerprint is of this binding alone. */
  predicate Grants(d: Decision, b: Binding, revision: Canonical) {
    && d.targetId == b.targetId && d.targetRevision == b.targetRevision && d.revision == revision
    && d.fingerprint.key.connector == b.connector && d.fingerprint.key.actor == b.actor && d.fingerprint.key.conversation == b.conversation
    && d.fingerprint.targetId == b.targetId && d.fingerprint.targetRevision == b.targetRevision
  }

  /** A listed binding is granted with its own target, fingerprint and the policy's revision. */
  lemma GrantIsTheBindings(c: Config, endpoints: map<Str, Endpoint>, i: nat)
    requires Valid(c) && Splits(endpoints, Selves(c.connectors), CanonicalForm(c), Table(c.bindings, CanonicalForm(c)))
    requires i < |c.bindings|
    ensures var b := c.bindings[i]; var verdict := Decide(endpoints, b.connector, b.actor, b.conversation);
      verdict.Granted? && Grants(verdict.decision, b, CanonicalForm(c))
  {
    var b := c.bindings[i];
    DecideIsLookup(endpoints, Selves(c.connectors), CanonicalForm(c), Table(c.bindings, CanonicalForm(c)), b.connector, b.actor, b.conversation);
    ListedIsLookedUp(c, i);
  }

  lemma NamesAreIdentifiers(name: Str, max: nat)
    requires Exec.ValidName(name, max)
    ensures ValidIdentifier(name, max)
  {
    assert forall i :: 0 <= i < |name| ==> Exec.NameByte(name[i]);
    Utf8.PrintableIsText(name);
  }

  /** Whatever a valid configuration grants, the store takes as an authorization and the sandbox as a target, under any digests. */
  lemma GrantsAreTaken(c: Config, i: nat, fingerprint: Str, revision: Str)
    requires Valid(c) && i < |c.bindings| && ValidSha256Hex(fingerprint) && ValidSha256Hex(revision)
    ensures var b := c.bindings[i];
      && ValidAuthorization(Authorization(b.targetId, b.targetRevision, fingerprint, revision))
      && Exec.ValidName(b.targetId, Exec.MAX_TARGET_ID_BYTES) && Exec.ValidName(b.targetRevision, Exec.MAX_REVISION_BYTES)
  {
    assert BindingOkAt(c.connectors, c.bindings, i);
    NamesAreIdentifiers(c.bindings[i].targetId, MAX_TARGET_ID_BYTES);
    NamesAreIdentifiers(c.bindings[i].targetRevision, MAX_REVISION_BYTES);
  }

  lemma SelvesCarryOver(c: Config, d: Config, id: Str)
    requires Valid(c) && Valid(d) && (forall x :: x in c.connectors ==> x in d.connectors) && id in Selves(c.connectors)
    ensures id in Selves(d.connectors) && Selves(d.connectors)[id] == Selves(c.connectors)[id]
  {
    SelvesOnlyListed(c.connectors, id);
    var i :| 0 <= i < |c.connectors| && c.connectors[i].id == id;
    SelvesListed(c.connectors, i);
    assert c.connectors[i] in d.connectors;
    var j :| 0 <= j < |d.connectors| && d.connectors[j] == c.connectors[i];
    SelvesListed(d.connectors, j);
  }

  lemma TableCarriesOver(c: Config, d: Config, revision: Canonical, key: BindingKey)
    requires Valid(c) && Valid(d) && GrantsOf(c) <= GrantsOf(d) && key in Table(c.bindings, revision)
    ensures key in Table(d.bindings, revision) && Table(d.bindings, revision)[key] == Table(c.bindings, revision)[key]
  {
    TableOnlyListed(c.bindings, revision, key);
    var i :| 0 <= i < |c.bindings| && KeyOf(c.bindings[i]) == key;
    TableListed(c.connectors, c.bindings, revision, i);
    assert CanonicalOf(c.bindings[i]) in GrantsOf(c);
    var j :| 0 <= j < |d.bindings| && CanonicalOf(d.bindings[j]) == CanonicalOf(c.bindings[i]);
    TableListed(d.connectors, d.bindings, revision, j);
  }

  lemma SameGrantsLookAlike(c: Config, d: Config, revision: Canonical)
    requires Valid(c) && Valid(d) && SameGrants(c, d)
    ensures Selves(c.connectors) == Selves(d.connectors) && Table(c.bindings, revision) == Table(d.bindings, revision)
  {
    forall id ensures id in Selves(c.connectors) <==> id in Selves(d.connectors) {
      if id in Selves(c.connectors) { SelvesCarryOver(c, d, id); }
      if id in Selves(d.connectors) { SelvesCarryOver(d, c, id); }
    }
    forall id | id in Selves(c.connectors) ensures Selves(c.connectors)[id] == Selves(d.connectors)[id] { SelvesCarryOver(c, d, id); }
    forall key ensures key in Table(c.bindings, revision) <==> key in Table(d.bindings, revision) {
      if key in Table(c.bindings, revision) { TableCarriesOver(c, d, revision, key); }
      if key in Table(d.bindings, revision) { TableCarriesOver(d, c, revision, key); }
    }
    forall key | key in Table(c.bindings, revision) ensures Table(c.bindings, revision)[key] == Table(d.bindings, revision)[key] {
      TableCarriesOver(c, d, revision, key);
    }
  }

  /** Equal canonical forms decide every request alike, revision and fingerprint included. */
  lemma EqualCanonicalDecidesAlike(c: Config, d: Config, e: map<Str, Endpoint>, f: map<Str, Endpoint>,
                                   connector: Str, actor: Str, conversation: Str)
    requires Valid(c) && Valid(d) && CanonicalForm(c) == CanonicalForm(d)
    requires Splits(e, Selves(c.connectors), CanonicalForm(c), Table(c.bindings, CanonicalForm(c)))
    requires Splits(f, Selves(d.connectors), CanonicalForm(d), Table(d.bindings, CanonicalForm(d)))
    ensures Decide(e, connector, actor, conversation) == Decide(f, connector, actor, conversation)
  {
    CanonicalDeterminesGrants(c, d);
    SameGrantsLookAlike(c, d, CanonicalForm(c));
    DecideIsLookup(e, Selves(c.connectors), CanonicalForm(c), Table(c.bindings, CanonicalForm(c)), connector, actor, conversation);
    DecideIsLookup(f, Selves(d.connectors), CanonicalForm(d), Table(d.bindings, CanonicalForm(d)), connector, actor, conversation);
  }
}
