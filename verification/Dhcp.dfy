/** The DHCP server over the address pool: whole runs from start-up on. */
module Dhcp {
  import opened IpPool
  import opened Options

  datatype Config = Config(
    gatewayIP: Ip,
    gatewayMac: Mac,
    staticLeases: Leases,
    net: Network,
    subnetParses: bool,
    subnetMask: Ip,
    mtu: nat,
    searchDomains: seq<string>)

  datatype MessageType = Discover | Request | Offer | Ack | Other(code: nat)

  /** A client's message; a malformed one gets no reply and touches nothing. */
  datatype Message = Message(mac: Mac, kind: MessageType, wellFormed: bool)

  datatype Reply = Reply(
    kind: MessageType,
    yourIP: Ip,
    serverID: Ip,
    router: Ip,
    dns: seq<Ip>,
    leaseSeconds: nat,
    subnetMask: Ip,
    mtu: nat,
    searchDomains: seq<string>)

  function AnswerKind(kind: MessageType): Option<MessageType> {
    match kind
    case Discover => Some(Offer)
    case Request => Some(Ack)
    case _ => None
  }

  function MakeReply(c: Config, kind: MessageType, ip: Ip): Reply {
    Reply(kind, ip, c.gatewayIP, c.gatewayIP, [c.gatewayIP], 3600, c.subnetMask, c.mtu % 0x1_0000, c.searchDomains)
  }

  /** One message handled: the lease is made before the message type is looked at. */
  ghost predicate Handled(c: Config, leases: Leases, m: Message, reply: Option<Reply>, leases': Leases) {
    if !m.wellFormed then
      leases' == leases && reply == None
    else
      exists ip :: Assigned(c.net, leases, m.mac, ip, leases') && reply == ReplyFor(c, m, ip)
  }

  function ReplyFor(c: Config, m: Message, ip: Option<Ip>): Option<Reply> {
    if ip == None || !c.subnetParses || AnswerKind(m.kind) == None then None
    else Some(MakeReply(c, AnswerKind(m.kind).value, ip.value))
  }

  method Handle(c: Config, pool: Pool, m: Message) returns (reply: Option<Reply>)
    requires pool.net == c.net
    modifies pool
    ensures Handled(c, old(pool.leases), m, reply, pool.leases)
  {
    if !m.wellFormed {
      return None;
    }
    var ip := pool.GetOrAssign(m.mac);
    if ip == None || !c.subnetParses {
      return None;
    }
    match m.kind {
      case Discover => reply := Some(MakeReply(c, Offer, ip.value));
      case Request => reply := Some(MakeReply(c, Ack, ip.value));
      case _ => reply := None;
    }
    assert reply == ReplyFor(c, m, ip);
  }

  // ----- Start-up

  /** The reserved addresses: the gateway's, and the static leases on top. */
  function Reserved(c: Config): Leases {
    map[c.gatewayIP := c.gatewayMac] + c.staticLeases
  }

  /** Reserving in any order of the static leases gives the same pool. */
  method StartUp(c: Config) returns (pool: Pool)
    ensures fresh(pool) && pool.net == c.net && pool.leases == Reserved(c)
  {
    pool := new Pool(c.net);
    pool.Reserve(c.gatewayIP, c.gatewayMac);
    var todo := c.staticLeases.Keys;
    while todo != {}
      invariant todo <= c.staticLeases.Keys && pool.net == c.net
      invariant pool.leases.Keys == {c.gatewayIP} + (c.staticLeases.Keys - todo)
      invariant forall ip :: ip in pool.leases ==>
                  pool.leases[ip] == if ip in c.staticLeases && ip !in todo then c.staticLeases[ip] else c.gatewayMac
      decreases todo
    {
      var ip :| ip in todo;
      pool.Reserve(ip, c.staticLeases[ip]);
      todo := todo - {ip};
    }
  }

  /** The gateway's address and MAC and the static leases' are all different. */
  ghost predicate DistinctReservations(c: Config) {
    && c.gatewayIP !in c.staticLeases
    && c.gatewayMac !in c.staticLeases.Values
    && Unique(c.staticLeases)
  }

  lemma ReservedUnique(c: Config)
    requires DistinctReservations(c)
    ensures Unique(Reserved(c))
  {
    forall ip, jp | ip in Reserved(c) && jp in Reserved(c) && Reserved(c)[ip] == Reserved(c)[jp]
      ensures ip == jp
    {
      assert ip in c.staticLeases ==> c.staticLeases[ip] in c.staticLeases.Values;
      assert jp in c.staticLeases ==> c.staticLeases[jp] in c.staticLeases.Values;
    }
  }

  // ----- Runs

  /** A run of the server: the messages in the order the pool's lock served them. */
  datatype Run = Run(config: Config, messages: seq<Message>, replies: seq<Option<Reply>>, leases: seq<Leases>)

  ghost predicate IsRun(r: Run) {
    && DistinctReservations(r.config)
    && |r.replies| == |r.messages| && |r.leases| == |r.messages| + 1
    && r.leases[0] == Reserved(r.config)
    && forall i :: 0 <= i < |r.messages| ==> Handled(r.config, r.leases[i], r.messages[i], r.replies[i], r.leases[i + 1])
  }

  ghost predicate Extends(leases: Leases, leases': Leases) {
    forall ip :: ip in leases ==> ip in leases' && leases'[ip] == leases[ip]
  }

  lemma HandledStep(c: Config, leases: Leases, m: Message, reply: Option<Reply>, leases': Leases)
    requires Unique(leases) && Handled(c, leases, m, reply, leases')
    ensures Unique(leases') && Extends(leases, leases')
    ensures reply.Some? ==> reply.value.yourIP in leases' && leases'[reply.value.yourIP] == m.mac
  {
    if m.wellFormed {
      var ip :| Assigned(c.net, leases, m.mac, ip, leases') && reply == ReplyFor(c, m, ip);
      assert Step(c.net, leases, Assign(m.mac), leases');
      StepUnique(c.net, leases, Assign(m.mac), leases');
    }
  }

  lemma {:induction false} RunLeases(r: Run, i: nat, j: nat)
    requires IsRun(r) && i <= j < |r.leases|
    ensures Unique(r.leases[j]) && Extends(r.leases[i], r.leases[j])
    decreases j
  {
    if j == 0 {
      ReservedUnique(r.config);
    } else {
      RunLeases(r, if i < j then i else j - 1, j - 1);
      assert Handled(r.config, r.leases[j - 1], r.messages[j - 1], r.replies[j - 1], r.leases[j - 1 + 1]);
      HandledStep(r.config, r.leases[j - 1], r.messages[j - 1], r.replies[j - 1], r.leases[j]);
    }
  }

  /** What was offered or acknowledged stays on record for the rest of the run. */
  lemma OnRecord(r: Run, i: nat)
    requires IsRun(r) && i < |r.messages| && r.replies[i].Some?
    ensures var final, ip := r.leases[|r.messages|], r.replies[i].value.yourIP;
            ip in final && final[ip] == r.messages[i].mac
  {
    RunLeases(r, i, i);
    assert Handled(r.config, r.leases[i], r.messages[i], r.replies[i], r.leases[i + 1]);
    HandledStep(r.config, r.leases[i], r.messages[i], r.replies[i], r.leases[i + 1]);
    RunLeases(r, i + 1, |r.messages|);
  }

  /** Over a whole run two replies carry the same address exactly when they answer the same
      client: no address is given twice, and a client's offers and acknowledgements agree. */
  lemma OneAddressPerClient(r: Run, i: nat, j: nat)
    requires IsRun(r) && i < |r.messages| && j < |r.messages| && r.replies[i].Some? && r.replies[j].Some?
    ensures r.replies[i].value.yourIP == r.replies[j].value.yourIP <==> r.messages[i].mac == r.messages[j].mac
  {
    OnRecord(r, i);
    OnRecord(r, j);
    RunLeases(r, |r.messages|, |r.messages|);
  }

  /** Nobody else is ever given the gateway's address or a static lease's, and the holder of a
      static lease is given no other. */
  lemma ReservationsRespected(r: Run, i: nat)
    requires IsRun(r) && i < |r.messages| && r.replies[i].Some?
    ensures var ip, mac := r.replies[i].value.yourIP, r.messages[i].mac;
            && (ip == r.config.gatewayIP <==> mac == r.config.gatewayMac)
            && (ip in r.config.staticLeases ==> r.config.staticLeases[ip] == mac)
            && (forall other :: other in r.config.staticLeases && r.config.staticLeases[other] == mac ==> ip == other)
  {
    OnRecord(r, i);
    RunLeases(r, 0, |r.messages|);
    var final := r.leases[|r.messages|];
    assert forall other :: other in Reserved(r.config) ==> other in final && final[other] == Reserved(r.config)[other];
    assert r.config.gatewayIP in Reserved(r.config);
  }

  /** A client is answered unless its message is malformed or of another type, the subnet
      does not parse, or it is new and the network is full. */
  lemma AnsweredExactly(r: Run, i: nat)
    requires IsRun(r) && i < |r.messages|
    ensures var m := r.messages[i];
            (r.replies[i].Some? <==>
              && m.wellFormed && r.config.subnetParses && (m.kind.Discover? || m.kind.Request?)
              && (Knows(r.leases[i], m.mac) || !Full(r.config.net, r.leases[i])))
  {
    var m := r.messages[i];
    assert Handled(r.config, r.leases[i], m, r.replies[i], r.leases[i + 1]);
    if m.wellFormed {
      var ip :| Assigned(r.config.net, r.leases[i], m.mac, ip, r.leases[i + 1]) && r.replies[i] == ReplyFor(r.config, m, ip);
      FailsExactlyWhenFull(r.config.net, r.leases[i], m.mac, ip, r.leases[i + 1]);
    }
  }

  /** Over a run a discovery is answered with an offer and a request with an acknowledgement,
      naming the gateway as server, router and resolver, for an hour. */
  lemma ReplyContents(r: Run, i: nat)
    requires IsRun(r) && i < |r.messages| && r.replies[i].Some?
    ensures var reply, c := r.replies[i].value, r.config;
            && (reply.kind.Offer? <==> r.messages[i].kind.Discover?) && (reply.kind.Ack? <==> r.messages[i].kind.Request?)
            && reply.serverID == c.gatewayIP && reply.router == c.gatewayIP && reply.dns == [c.gatewayIP]
            && reply.leaseSeconds == 60 * 60 && reply.subnetMask == c.subnetMask
            && reply.mtu == c.mtu % 65536 && reply.searchDomains == c.searchDomains
  {
    AnsweredExactly(r, i);
    var m := r.messages[i];
    assert Handled(r.config, r.leases[i], m, r.replies[i], r.leases[i + 1]);
    var ip :| Assigned(r.config.net, r.leases[i], m.mac, ip, r.leases[i + 1]) && r.replies[i] == ReplyFor(r.config, m, ip);
  }

  /** Every well-formed message, of whatever type, leaves its client with a lease unless the
      network is full. */
  lemma EveryMessageLeases(r: Run, i: nat)
    requires IsRun(r) && i < |r.messages| && r.messages[i].wellFormed
    ensures r.messages[i].mac in r.leases[i + 1].Values ||
            (forall ip :: r.config.net.base < ip < r.config.net.base + r.config.net.count ==> ip in r.leases[i])
  {
    var m := r.messages[i];
    assert Handled(r.config, r.leases[i], m, r.replies[i], r.leases[i + 1]);
    var ip :| Assigned(r.config.net, r.leases[i], m.mac, ip, r.leases[i + 1]);
    if ip == None {
      forall jp | r.config.net.base < jp < r.config.net.base + r.config.net.count
        ensures jp in r.leases[i]
      {
        assert IsHost(r.config.net, jp);
      }
    } else {
      assert ip.value in r.leases[i + 1];
    }
  }
}
