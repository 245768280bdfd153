/** The port-forward registry: exposing, unexposing and listing proxies. */
module Ports {

  /** A running proxy; `id` stands for the listener behind it, numbered in the order started. */
  datatype Proxy = Proxy(local: string, remote: string, protocol: string, id: nat)

  predicate IsTransport(protocol: string) {
    protocol == "udp" || protocol == "tcp" || protocol == "unix" || protocol == "npipe"
  }

  function Key(protocol: string, local: string): string {
    protocol + "/" + local
  }

  /** A key determines its protocol and local address, because protocols contain no slash. */
  lemma KeyInjective(p: string, l: string, p': string, l': string)
    requires '/' !in p && '/' !in p' && Key(p, l) == Key(p', l')
    ensures p == p' && l == l'
  {
    var k := Key(p, l);
    assert k[|p|] == '/' && k[|p'|] == '/';
    assert forall i :: 0 <= i < |p| ==> k[i] == p[i];
    assert forall i :: 0 <= i < |p'| ==> k[i] == p'[i];
    assert k[..|p|] == p && k[..|p'|] == p';
    assert k[|p| + 1..] == l && k[|p'| + 1..] == l';
  }

  lemma TransportHasNoSlash(p: string)
    requires IsTransport(p)
    ensures '/' !in p
  {
  }

  // ----- The registry and what became of each proxy

  /** `origin` is what each proxy ever started was started for; `closed` those that were
      closed, `replaced` those overwritten in the table, with the proxy that took the place. */
  datatype Registry = Registry(
    proxies: map<string, Proxy>,
    origin: seq<(string, string)>,
    closed: set<nat>,
    replaced: map<nat, nat>)

  const Empty := Registry(map[], [], {}, map[])

  datatype Outcome = Done | AlreadyRunning | UnknownProtocol | StartFailed | NotFound

  /** `Expose`, with `starts` telling whether the listener could be set up. The guard looks up
      the bare local address, not the key. */
  function ExposeOutcome(r: Registry, protocol: string, local: string, starts: bool): Outcome {
    if local in r.proxies then AlreadyRunning
    else if !IsTransport(protocol) then UnknownProtocol
    else if !starts then StartFailed
    else Done
  }

  function Exposed(r: Registry, protocol: string, local: string, remote: string): Registry {
    var k, id := Key(protocol, local), |r.origin|;
    Registry(r.proxies[k := Proxy(local, remote, protocol, id)],
             r.origin + [(protocol, local)],
             r.closed,
             if k in r.proxies then r.replaced[r.proxies[k].id := id] else r.replaced)
  }

  function Unexposed(r: Registry, protocol: string, local: string): Registry
    requires Key(protocol, local) in r.proxies
  {
    var k := Key(protocol, local);
    r.(proxies := r.proxies - {k}, closed := r.closed + {r.proxies[k].id})
  }

  class PortsForwarder {
    var proxies: map<string, Proxy>
    var started: nat
    ghost var history: Registry

    ghost predicate Valid()
      reads this
    {
      history.proxies == proxies && |history.origin| == started
    }

    constructor ()
      ensures Valid() && history == Empty
    {
      proxies, started, history := map[], 0, Empty;
    }

    method Expose(protocol: string, local: string, remote: string, starts: bool) returns (o: Outcome)
      requires Valid()
      modifies this
      ensures Valid() && o == ExposeOutcome(old(history), protocol, local, starts)
      ensures history == if o.Done? then Exposed(old(history), protocol, local, remote) else old(history)
      ensures o.AlreadyRunning? <==> local in old(proxies)
      ensures o.UnknownProtocol? <==> local !in old(proxies) && protocol !in {"tcp", "udp", "unix", "npipe"}
      ensures o.StartFailed? <==> local !in old(proxies) && protocol in {"tcp", "udp", "unix", "npipe"} && !starts
      ensures !o.NotFound?
      ensures proxies == if o.Done? then old(proxies)[protocol + "/" + local := Proxy(local, remote, protocol, old(started))]
                         else old(proxies)
    {
      if local in proxies {
        return AlreadyRunning;
      }
      if protocol == "unix" || protocol == "npipe" || protocol == "udp" || protocol == "tcp" {
        if !starts {
          return StartFailed;
        }
        history := Exposed(history, protocol, local, remote);
        proxies := proxies[Key(protocol, local) := Proxy(local, remote, protocol, started)];
        started := started + 1;
        return Done;
      }
      o := UnknownProtocol;
    }

    /** The entry goes and the proxy is closed. */
    method Unexpose(protocol: string, local: string) returns (o: Outcome, closed: int)
      requires Valid()
      modifies this
      ensures Valid() && (o == Done || o == NotFound)
      ensures o == Done <==> Key(protocol, local) in old(proxies)
      ensures o == Done ==> closed == old(proxies)[Key(protocol, local)].id && history == Unexposed(old(history), protocol, local)
      ensures o == NotFound ==> history == old(history)
      ensures proxies == old(proxies) - {protocol + "/" + local}
    {
      if Key(protocol, local) !in proxies {
        return NotFound, -1;
      }
      closed := proxies[Key(protocol, local)].id;
      history := Unexposed(history, protocol, local);
      proxies := proxies - {Key(protocol, local)};
      o := Done;
    }
  }

  // ----- The invariant

  /** An entry sits under the key of its own protocol and local address. */
  predicate EntryOk(r: Registry, k: string)
    requires k in r.proxies
  {
    var p := r.proxies[k];
    && IsTransport(p.protocol) && k == Key(p.protocol, p.local)
    && p.id < |r.origin| && r.origin[p.id] == (p.protocol, p.local)
    && p.id !in r.closed && p.id !in r.replaced
  }

  predicate Holds(r: Registry, id: nat) {
    exists k :: k in r.proxies && r.proxies[k].id == id
  }

  /** Each proxy ever started is in the table, closed, or replaced by a later one started for
      the same protocol and local address, and only one of the three. */
  ghost predicate Accounted(r: Registry, id: nat)
    requires id < |r.origin|
  {
    if id in r.closed then id !in r.replaced
    else if id in r.replaced then id < r.replaced[id] < |r.origin| && r.origin[r.replaced[id]] == r.origin[id]
    else Holds(r, id)
  }

  ghost predicate Inv(r: Registry) {
    && (forall k :: k in r.proxies ==> EntryOk(r, k))
    && (forall id: nat :: id < |r.origin| ==> Accounted(r, id))
    && (forall id :: id in r.closed || id in r.replaced ==> id < |r.origin|)
  }

  datatype Op = Expose(protocol: string, local: string, remote: string, starts: bool) | Unexpose(protocol: string, local: string)

  function Apply(r: Registry, op: Op): Registry {
    match op
    case Expose(p, l, remote, starts) => if ExposeOutcome(r, p, l, starts).Done? then Exposed(r, p, l, remote) else r
    case Unexpose(p, l) => if Key(p, l) in r.proxies then Unexposed(r, p, l) else r
  }

  lemma HoldsKept(r: Registry, r': Registry, k: string, id: nat)
    requires Holds(r, id) && (forall j :: j in r.proxies && j != k ==> j in r'.proxies && r'.proxies[j] == r.proxies[j])
    requires k in r.proxies ==> r.proxies[k].id != id
    ensures Holds(r', id)
  {
    var j :| j in r.proxies && r.proxies[j].id == id;
    assert j in r'.proxies && r'.proxies[j].id == id;
  }

  lemma SameId(r: Registry, k: string, j: string)
    requires Inv(r) && k in r.proxies && j in r.proxies && r.proxies[k].id == r.proxies[j].id
    ensures k == j
  {
    assert EntryOk(r, k) && EntryOk(r, j);
  }

  lemma ExposeKeeps(r: Registry, p: string, l: string, remote: string)
    requires Inv(r) && IsTransport(p)
    ensures Inv(Exposed(r, p, l, remote))
  {
    var r', k, new_ := Exposed(r, p, l, remote), Key(p, l), |r.origin|;
    forall j | j in r'.proxies
      ensures EntryOk(r', j)
    {
      if j != k {
        assert EntryOk(r, j);
        if k in r.proxies && r.proxies[k].id == r.proxies[j].id {
          SameId(r, k, j);
          assert false;
        }
      }
    }
    forall id: nat | id < |r'.origin|
      ensures Accounted(r', id)
    {
      if id == new_ {
        assert k in r'.proxies && r'.proxies[k].id == id;
      } else {
        assert Accounted(r, id);
        if k in r.proxies {
          SamePlace(r, k, p, l);
        }
        if Holds(r, id) && (k in r.proxies ==> r.proxies[k].id != id) {
          HoldsKept(r, r', k, id);
        }
      }
    }
    if k in r.proxies {
      assert EntryOk(r, k);
    }
  }

  /** The proxy under a key was started for exactly that protocol and local address. */
  lemma SamePlace(r: Registry, k: string, p: string, l: string)
    requires k in r.proxies && EntryOk(r, k) && k == Key(p, l) && IsTransport(p)
    ensures r.proxies[k].protocol == p && r.proxies[k].local == l
  {
    TransportHasNoSlash(p);
    TransportHasNoSlash(r.proxies[k].protocol);
    KeyInjective(p, l, r.proxies[k].protocol, r.proxies[k].local);
  }

  lemma UnexposeKeeps(r: Registry, p: string, l: string)
    requires Inv(r) && Key(p, l) in r.proxies
    ensures Inv(Unexposed(r, p, l))
  {
    var r', k := Unexposed(r, p, l), Key(p, l);
    assert EntryOk(r, k);
    forall j | j in r'.proxies
      ensures EntryOk(r', j)
    {
      assert EntryOk(r, j);
      if r.proxies[k].id == r.proxies[j].id {
        SameId(r, k, j);
        assert false;
      }
    }
    forall id: nat | id < |r'.origin|
      ensures Accounted(r', id)
    {
      assert Accounted(r, id);
      if Holds(r, id) && r.proxies[k].id != id {
        HoldsKept(r, r', k, id);
      }
    }
  }

  function ApplyAll(ops: seq<Op>): Registry {
    if ops == [] then Empty else Apply(ApplyAll(ops[..|ops| - 1]), ops[|ops| - 1])
  }

  /** Over every run of requests: entries sit under their own key, and every proxy ever
      started is accounted for. */
  lemma {:induction false} EveryProxyAccountedFor(ops: seq<Op>)
    ensures Inv(ApplyAll(ops))
  {
    if ops != [] {
      var r, op := ApplyAll(ops[..|ops| - 1]), ops[|ops| - 1];
      EveryProxyAccountedFor(ops[..|ops| - 1]);
      if op.Expose? && ExposeOutcome(r, op.protocol, op.local, op.starts).Done? {
        ExposeKeeps(r, op.protocol, op.local, op.remote);
      } else if op.Unexpose? && Key(op.protocol, op.local) in r.proxies {
        UnexposeKeeps(r, op.protocol, op.local);
      }
    }
  }

  // ----- The table read off the requests

  /** Request `i` started a proxy under the key. */
  predicate Starts(ops: seq<Op>, i: nat, k: string) {
    && i < |ops| && ops[i].Expose? && ops[i].starts && ops[i].protocol + "/" + ops[i].local == k
    && ops[i].protocol in {"tcp", "udp", "unix", "npipe"} && ops[i].local !in ApplyAll(ops[..i]).proxies
  }

  predicate Stops(ops: seq<Op>, i: nat, k: string) {
    i < |ops| && ops[i].Unexpose? && ops[i].protocol + "/" + ops[i].local == k
  }

  /** It was the last request to start a proxy under the key, and none stopped it since. */
  ghost predicate StartedLast(ops: seq<Op>, i: nat, k: string) {
    Starts(ops, i, k) && forall j :: i < j < |ops| ==> !Starts(ops, j, k) && !Stops(ops, j, k)
  }

  lemma StartedLastSnoc(ops: seq<Op>, op: Op, i: nat, k: string)
    ensures StartedLast(ops + [op], i, k) <==>
              (i == |ops| && Starts(ops + [op], i, k)) ||
              (i < |ops| && StartedLast(ops, i, k) && !Starts(ops + [op], |ops|, k) && !Stops(ops + [op], |ops|, k))
  {
    var all := ops + [op];
    forall j: nat | j < |ops|
      ensures Starts(all, j, k) == Starts(ops, j, k) && Stops(all, j, k) == Stops(ops, j, k)
    {
      assert all[..j] == ops[..j];
    }
  }

  /** Over every run of requests the table holds exactly the proxies started last under their
      keys and not stopped since, with the local address, remote address and protocol of the
      request that started them. */
  lemma {:induction false} TableIsHistory(ops: seq<Op>, k: string)
    ensures k in ApplyAll(ops).proxies <==> exists i: nat :: StartedLast(ops, i, k)
    ensures forall i: nat :: StartedLast(ops, i, k) ==>
              var p := ApplyAll(ops).proxies[k];
              p.local == ops[i].local && p.remote == ops[i].remote && p.protocol == ops[i].protocol
  {
    if ops != [] {
      var n := |ops| - 1;
      var before, op := ops[..n], ops[n];
      TableIsHistory(before, k);
      assert ops == before + [op];
      forall i: nat
        ensures StartedLast(ops, i, k) <==>
                  (i == n && Starts(ops, n, k)) || (i < n && StartedLast(before, i, k) && !Starts(ops, n, k) && !Stops(ops, n, k))
      {
        StartedLastSnoc(before, op, i, k);
      }
      if Starts(ops, n, k) {
        assert StartedLast(ops, n, k);
      } else if !Stops(ops, n, k) && k in ApplyAll(before).proxies {
        var i: nat :| StartedLast(before, i, k);
        assert StartedLast(ops, i, k);
      }
    }
  }

  // ----- The guard

  /** The guard refuses exactly the local addresses that happen to be some entry's key, so
      never one without a slash; it does not look at the key the request would be stored under. */
  lemma GuardRefusesExactly(ops: seq<Op>, protocol: string, local: string, starts: bool)
    ensures var r := ApplyAll(ops);
            && (ExposeOutcome(r, protocol, local, starts) == AlreadyRunning <==>
                  exists k :: k in r.proxies && local == Key(r.proxies[k].protocol, r.proxies[k].local))
            && ('/' !in local ==> ExposeOutcome(r, protocol, local, starts) != AlreadyRunning)
  {
    var r := ApplyAll(ops);
    EveryProxyAccountedFor(ops);
    if local in r.proxies {
      assert EntryOk(r, local);
      assert local[|r.proxies[local].protocol|] == '/';
    }
    forall k | k in r.proxies
      ensures k == Key(r.proxies[k].protocol, r.proxies[k].local)
    {
      assert EntryOk(r, k);
    }
  }

  /** A proxy is overwritten while still running exactly when a request for the same protocol
      and local address starts again without having been refused. */
  lemma ReplacesExactly(ops: seq<Op>, protocol: string, local: string, remote: string)
    requires ExposeOutcome(ApplyAll(ops), protocol, local, true).Done?
    ensures var r := ApplyAll(ops);
            (Exposed(r, protocol, local, remote).replaced != r.replaced <==>
              exists k :: k in r.proxies && r.proxies[k].protocol == protocol && r.proxies[k].local == local)
  {
    var r, k := ApplyAll(ops), Key(protocol, local);
    EveryProxyAccountedFor(ops);
    forall j | j in r.proxies && r.proxies[j].protocol == protocol && r.proxies[j].local == local
      ensures j == k
    {
      assert EntryOk(r, j);
    }
    if k in r.proxies {
      assert EntryOk(r, k);
      SamePlace(r, k, protocol, local);
      var r' := Exposed(r, protocol, local, remote);
      assert r.proxies[k].id in r'.replaced && r.proxies[k].id !in r.replaced;
    }
  }

  /** It happens: exposing the same unix socket twice leaves the first proxy running and out
      of reach. */
  lemma ExposedTwice()
    ensures var again := Expose("unix", "sock", "tcp://10.0.0.2:80", true);
            var r := ApplyAll([again, again]);
            r.proxies.Keys == {"unix/sock"} && 0 in r.replaced && 0 !in r.closed && !Holds(r, 0)
  {
    var again := Expose("unix", "sock", "tcp://10.0.0.2:80", true);
    var k := Key("unix", "sock");
    assert k == "unix/sock" && "sock" != k;
    assert [again, again][..1] == [again] && [again][..0] == [];
    assert ApplyAll([again]) == Apply(ApplyAll([]), again);
    var r1 := ApplyAll([again]);
    assert r1.proxies == map[k := Proxy("sock", "tcp://10.0.0.2:80", "unix", 0)];
    var r2 := ApplyAll([again, again]);
    assert r2 == Apply(r1, again);
    assert r2.proxies == map[k := Proxy("sock", "tcp://10.0.0.2:80", "unix", 1)];
  }

  // ----- The listing

  predicate StringLess(a: string, b: string) {
    if b == "" then false
    else if a == "" then true
    else if a[0] != b[0] then a[0] < b[0]
    else StringLess(a[1..], b[1..])
  }

  lemma {:induction false} StringTotal(a: string, b: string)
    ensures StringLess(a, b) || a == b || StringLess(b, a)
    ensures !(StringLess(a, b) && StringLess(b, a)) && !StringLess(a, a)
  {
    if a != "" && b != "" {
      StringTotal(a[1..], b[1..]);
      assert a == [a[0]] + a[1..] && b == [b[0]] + b[1..];
    } else if a != "" {
      StringTotal(a[1..], a[1..]);
    }
  }

  lemma {:induction false} StringTransitive(a: string, b: string, c: string)
    requires StringLess(a, b) && StringLess(b, c)
    ensures StringLess(a, c)
  {
    if a != "" && a[0] == b[0] == c[0] {
      StringTransitive(a[1..], b[1..], c[1..]);
    }
  }

  /** The comparison given to the sort: local address first, then protocol. */
  predicate Less(a: Proxy, b: Proxy) {
    if a.local == b.local then StringLess(a.protocol, b.protocol) else StringLess(a.local, b.local)
  }

  lemma LessTotal(a: Proxy, b: Proxy)
    ensures Less(a, b) || Less(b, a) || (a.local == b.local && a.protocol == b.protocol)
    ensures !(Less(a, b) && Less(b, a)) && !Less(a, a)
  {
    StringTotal(a.local, b.local);
    StringTotal(a.protocol, b.protocol);
    StringTotal(a.protocol, a.protocol);
  }

  lemma LessTransitive(a: Proxy, b: Proxy, c: Proxy)
    requires Less(a, b) && Less(b, c)
    ensures Less(a, c)
  {
    StringTotal(a.local, b.local);
    if a.local == b.local == c.local {
      StringTransitive(a.protocol, b.protocol, c.protocol);
    } else if a.local != b.local && b.local != c.local {
      StringTransitive(a.local, b.local, c.local);
      StringTotal(a.local, c.local);
    }
  }

  /** Dictionary order: the first character that differs decides, or the shorter comes first. */
  predicate DiffersAt(a: string, b: string, k: nat) {
    k <= |a| && k < |b| && a[..k] == b[..k] && (k == |a| || a[k] < b[k])
  }

  ghost predicate Before(a: string, b: string) {
    exists k: nat :: DiffersAt(a, b, k)
  }

  lemma {:induction false} StringLessMeans(a: string, b: string)
    ensures StringLess(a, b) <==> Before(a, b)
  {
    if b != "" && (a == "" || a[0] < b[0]) {
      assert DiffersAt(a, b, 0);
    } else if a != "" && b != "" && a[0] == b[0] {
      StringLessMeans(a[1..], b[1..]);
      if k: nat :| DiffersAt(a[1..], b[1..], k) {
        assert a[..k + 1] == [a[0]] + a[1..][..k] && b[..k + 1] == [b[0]] + b[1..][..k];
        assert DiffersAt(a, b, k + 1);
      }
      if k: nat :| DiffersAt(a, b, k) {
        assert k > 0;
        assert a[1..][..k - 1] == a[..k][1..] && b[1..][..k - 1] == b[..k][1..];
        assert DiffersAt(a[1..], b[1..], k - 1);
      }
    }
  }

  /** By local address, and by protocol for the same address. */
  ghost predicate ListedBefore(a: Proxy, b: Proxy) {
    if a.local == b.local then Before(a.protocol, b.protocol) else Before(a.local, b.local)
  }

  predicate Sorted(s: seq<Proxy>) {
    forall i, j :: 0 <= i < j < |s| ==> Less(s[i], s[j])
  }

  function Insert(x: Proxy, s: seq<Proxy>): seq<Proxy> {
    if s == [] || Less(x, s[0]) then [x] + s else [s[0]] + Insert(x, s[1..])
  }

  lemma {:induction false} InsertSorts(x: Proxy, s: seq<Proxy>)
    requires Sorted(s) && forall y :: y in s ==> y.local != x.local || y.protocol != x.protocol
    ensures Sorted(Insert(x, s))
    ensures forall y :: y in Insert(x, s) <==> y == x || y in s
  {
    if s == [] {
    } else if Less(x, s[0]) {
      forall j | 0 <= j < |s|
        ensures Less(x, s[j])
      {
        if j > 0 {
          LessTransitive(x, s[0], s[j]);
        }
      }
    } else {
      assert s[0] in s;
      LessTotal(x, s[0]);
      InsertSorts(x, s[1..]);
      assert s == [s[0]] + s[1..];
      var t := Insert(x, s[1..]);
      forall j | 0 <= j < |t|
        ensures Less(s[0], t[j])
      {
        assert t[j] in t;
        if t[j] != x {
          var k :| 0 <= k < |s[1..]| && s[1..][k] == t[j];
          assert s[k + 1] == t[j];
        }
      }
    }
  }

  ghost predicate Lists(r: map<string, Proxy>, out: seq<Proxy>) {
    Sorted(out) && forall p :: p in out <==> p in r.Values
  }

  /** The `/all` listing, whatever order the map is walked in. */
  method All(r: Registry) returns (out: seq<Proxy>)
    requires Inv(r)
    ensures Lists(r.proxies, out)
    ensures forall i, j :: 0 <= i < j < |out| ==> ListedBefore(out[i], out[j])
  {
    out := [];
    var todo := r.proxies.Keys;
    while todo != {}
      invariant todo <= r.proxies.Keys
      invariant Sorted(out)
      invariant forall p :: p in out <==> exists k :: k in r.proxies && k !in todo && r.proxies[k] == p
      decreases todo
    {
      var k :| k in todo;
      forall p | p in out
        ensures p.local != r.proxies[k].local || p.protocol != r.proxies[k].protocol
      {
        var j :| j in r.proxies && j !in todo && r.proxies[j] == p;
        assert EntryOk(r, j) && EntryOk(r, k);
      }
      InsertSorts(r.proxies[k], out);
      out := Insert(r.proxies[k], out);
      todo := todo - {k};
    }
    forall i, j | 0 <= i < j < |out|
      ensures ListedBefore(out[i], out[j])
    {
      StringLessMeans(out[i].local, out[j].local);
      StringLessMeans(out[i].protocol, out[j].protocol);
    }
  }

  /** There is only one such list, so the order of the map's iteration never shows. */
  lemma {:induction false} ListingUnique(a: seq<Proxy>, b: seq<Proxy>)
    requires Sorted(a) && Sorted(b) && forall p :: p in a <==> p in b
    ensures a == b
  {
    if a == [] {
      HasElement(b);
    } else {
      assert a[0] in a;
      var i :| 0 <= i < |b| && b[i] == a[0];
      assert b[0] in b;
      var j :| 0 <= j < |a| && a[j] == b[0];
      LessTotal(a[0], b[0]);
      assert a[0] == b[0];
      forall p
        ensures p in a[1..] <==> p in b[1..]
      {
        InTail(a, p);
        InTail(b, p);
      }
      ListingUnique(a[1..], b[1..]);
    }
  }

  lemma HasElement<T>(s: seq<T>)
    ensures s == [] || exists x :: x in s
  {
    if s != [] {
      assert s[0] in s;
    }
  }

  lemma InTail(s: seq<Proxy>, p: Proxy)
    requires Sorted(s) && s != []
    ensures p in s[1..] <==> p in s && p != s[0]
  {
    LessTotal(s[0], s[0]);
    assert s == [s[0]] + s[1..];
    if p in s[1..] {
      var i :| 0 <= i < |s[1..]| && s[1..][i] == p;
      assert Less(s[0], s[i + 1]);
    }
  }
}
