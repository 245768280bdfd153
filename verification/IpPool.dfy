/** The address pool: leases keyed by address, handed out lowest first. */
module IpPool {
  import opened Options

  type Ip = nat

  type Mac = string

  /** An IPv4 network: `count` addresses from `base` on. Host number 0 is never handed out,
      the highest one is. */
  datatype Network = Network(base: Ip, count: nat)

  type Leases = map<Ip, Mac>

  predicate Knows(leases: Leases, mac: Mac) {
    exists ip :: ip in leases && leases[ip] == mac
  }

  predicate IsHost(net: Network, ip: Ip) {
    net.base < ip < net.base + net.count
  }

  predicate Available(net: Network, leases: Leases, ip: Ip) {
    IsHost(net, ip) && ip !in leases
  }

  ghost predicate Full(net: Network, leases: Leases) {
    forall ip :: IsHost(net, ip) ==> ip in leases
  }

  ghost predicate Lowest(net: Network, leases: Leases, ip: Ip) {
    Available(net, leases, ip) && forall other :: Available(net, leases, other) ==> ip <= other
  }

  /** Each client has at most one address. */
  ghost predicate Unique(leases: Leases) {
    forall ip, jp :: ip in leases && jp in leases && leases[ip] == leases[jp] ==> ip == jp
  }

  // ----- Specification of the operations

  /** What `GetOrAssign` may return and leave behind. */
  ghost predicate Assigned(net: Network, leases: Leases, mac: Mac, r: Option<Ip>, leases': Leases) {
    if Knows(leases, mac) then
      leases' == leases && r.Some? && r.value in leases && leases[r.value] == mac
    else if Full(net, leases) then
      leases' == leases && r == None
    else
      r.Some? && Lowest(net, leases, r.value) && leases' == leases[r.value := mac]
  }

  ghost predicate Released(leases: Leases, mac: Mac, leases': Leases) {
    if Knows(leases, mac) then
      exists ip :: ip in leases && leases[ip] == mac && leases' == leases - {ip}
    else
      leases' == leases
  }

  class Pool {
    const net: Network
    var leases: Leases

    constructor (net: Network)
      ensures this.net == net && leases == map[]
    {
      this.net := net;
      leases := map[];
    }

    /** A known client keeps its address; a new one gets the lowest free host number. */
    method GetOrAssign(mac: Mac) returns (r: Option<Ip>)
      modifies this
      ensures Assigned(net, old(leases), mac, r, leases)
      ensures mac in old(leases).Values ==> r.Some? && r.value in leases && leases[r.value] == mac && leases == old(leases)
      ensures mac !in old(leases).Values && r.Some? ==>
                && net.base < r.value < net.base + net.count && r.value !in old(leases)
                && (forall ip :: net.base < ip < r.value ==> ip in old(leases))
                && leases == old(leases)[r.value := mac]
      ensures r == None <==> mac !in old(leases).Values && forall ip :: net.base < ip < net.base + net.count ==> ip in old(leases)
      ensures r == None ==> leases == old(leases)
    {
      var todo := leases.Keys;
      while todo != {}
        invariant todo <= leases.Keys && leases == old(leases)
        invariant forall ip :: ip in leases && leases[ip] == mac ==> ip in todo
        decreases todo
      {
        var ip :| ip in todo;
        if leases[ip] == mac {
          return Some(ip);
        }
        todo := todo - {ip};
      }
      var i := 1;
      while i < net.count
        invariant 1 <= i && leases == old(leases)
        invariant forall ip :: net.base < ip < net.base + i && IsHost(net, ip) ==> ip in leases
      {
        var candidate := net.base + i;
        if candidate !in leases {
          leases := leases[candidate := mac];
          return Some(candidate);
        }
        i := i + 1;
      }
      r := None;
    }

    method Reserve(ip: Ip, mac: Mac)
      modifies this
      ensures leases == old(leases)[ip := mac]
    {
      leases := leases[ip := mac];
    }

    method Release(given: Mac)
      modifies this
      ensures Released(old(leases), given, leases)
      ensures given in old(leases).Values ==>
                exists ip :: ip in old(leases) && old(leases)[ip] == given && leases == old(leases) - {ip}
      ensures given !in old(leases).Values ==> leases == old(leases)
    {
      var found: Option<Ip> := None;
      var todo := leases.Keys;
      while todo != {}
        invariant todo <= leases.Keys && leases == old(leases)
        invariant found == None
        invariant forall ip :: ip in leases && leases[ip] == given ==> ip in todo
        decreases todo
      {
        var ip :| ip in todo;
        if leases[ip] == given {
          found := Some(ip);
          break;
        }
        todo := todo - {ip};
      }
      if found.Some? {
        leases := leases - {found.value};
      }
    }

    /** A copy, whatever order the map is walked in. */
    method Snapshot() returns (r: Leases)
      ensures r == leases
    {
      r := map[];
      var todo := leases.Keys;
      while todo != {}
        invariant todo <= leases.Keys
        invariant r.Keys == leases.Keys - todo && forall ip :: ip in r ==> r[ip] == leases[ip]
        decreases todo
      {
        var ip :| ip in todo;
        r := r[ip := leases[ip]];
        todo := todo - {ip};
      }
    }
  }

  // ----- Allocation

  /** Allocation for a new client fails exactly when every host number is leased. */
  lemma FailsExactlyWhenFull(net: Network, leases: Leases, mac: Mac, r: Option<Ip>, leases': Leases)
    requires Assigned(net, leases, mac, r, leases')
    ensures r == None <==> !Knows(leases, mac) && Full(net, leases)
  {
  }

  function Hosts(net: Network, n: nat): (r: set<Ip>)
    requires n < net.count
    ensures |r| == n && forall ip :: ip in r <==> net.base < ip <= net.base + n
  {
    if n == 0 then {} else Hosts(net, n - 1) + {net.base + n}
  }

  /** It cannot fail while there are fewer leases than host numbers. */
  lemma RoomForOneMore(net: Network, leases: Leases)
    requires |leases| + 1 < net.count
    ensures !Full(net, leases)
  {
    var hosts := Hosts(net, net.count - 1);
    if hosts <= leases.Keys {
      SubsetSize(hosts, leases.Keys);
      assert false;
    }
    var ip :| ip in hosts && ip !in leases.Keys;
    assert IsHost(net, ip);
  }

  lemma SubsetSize<T>(a: set<T>, b: set<T>)
    requires a <= b
    ensures |a| <= |b|
  {
    assert b == a + (b - a);
  }

  // ----- Every reachable pool

  datatype Op = Assign(mac: Mac) | Reserve(ip: Ip, mac: Mac) | Release(mac: Mac)

  ghost predicate Step(net: Network, leases: Leases, op: Op, leases': Leases) {
    match op
    case Assign(mac) => exists r :: Assigned(net, leases, mac, r, leases')
    case Reserve(ip, mac) => leases' == leases[ip := mac]
    case Release(mac) => Released(leases, mac, leases')
  }

  /** The client of a reservation has no other address. */
  ghost predicate Reservable(leases: Leases, ip: Ip, mac: Mac) {
    forall other :: other in leases && leases[other] == mac ==> other == ip
  }

  /** Assignment and release always keep clients at one address; a reservation does exactly
      when its client has no other. */
  lemma StepUnique(net: Network, leases: Leases, op: Op, leases': Leases)
    requires Unique(leases) && Step(net, leases, op, leases')
    ensures Unique(leases') <==> (op.Reserve? ==> Reservable(leases, op.ip, op.mac))
  {
    if op.Reserve? && !Reservable(leases, op.ip, op.mac) {
      var other :| other in leases && leases[other] == op.mac && other != op.ip;
      assert other in leases' && op.ip in leases' && leases'[other] == leases'[op.ip];
    }
  }

  ghost predicate IsRun(net: Network, run: seq<Leases>, ops: seq<Op>) {
    && |run| == |ops| + 1 && run[0] == map[]
    && forall i :: 0 <= i < |ops| ==>
         && Step(net, run[i], ops[i], run[i + 1])
         && (ops[i].Reserve? ==> Reservable(run[i], ops[i].ip, ops[i].mac))
  }

  lemma {:induction false} RunUnique(net: Network, run: seq<Leases>, ops: seq<Op>, i: nat)
    requires IsRun(net, run, ops) && i < |run|
    ensures Unique(run[i])
  {
    if i > 0 {
      RunUnique(net, run, ops, i - 1);
      assert Step(net, run[i - 1], ops[i - 1], run[i - 1 + 1]);
      StepUnique(net, run[i - 1], ops[i - 1], run[i]);
    }
  }

  /** A client that is not released and not reserved elsewhere gets the same address every
      time it asks. */
  lemma {:induction false} StableAddress(net: Network, run: seq<Leases>, ops: seq<Op>, i: nat, j: nat, ip: Ip, mac: Mac)
    requires IsRun(net, run, ops) && i <= j < |run| && ip in run[i] && run[i][ip] == mac
    requires forall k :: i <= k < j ==> ops[k] != Release(mac) && (ops[k].Reserve? ==> ops[k].ip != ip)
    ensures ip in run[j] && run[j][ip] == mac
    ensures forall r, l :: Assigned(net, run[j], mac, r, l) ==> r == Some(ip) && l == run[j]
    decreases j
  {
    RunUnique(net, run, ops, j);
    if i < j {
      StableAddress(net, run, ops, i, j - 1, ip, mac);
      assert Step(net, run[j - 1], ops[j - 1], run[j - 1 + 1]);
    }
  }
}
