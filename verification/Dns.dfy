/** The DNS server's local zones: adding zones and answering from them. */
module Dns {
  import opened IpPool
  import opened Options

  /** A record answers for one name, or for every name its pattern matches. */
  datatype Record = Record(name: string, ip: Ip, regexp: Option<string>)

  datatype Zone = Zone(name: string, records: seq<Record>, defaultIP: Option<Ip>)

  /** Whether a pattern matches a name; the regular expression library's answer. */
  type Matcher = (string, string) -> bool

  function Dotted(zone: string): string {
    "." + zone
  }

  predicate HasSuffix(s: string, suffix: string) {
    |suffix| <= |s| && s[|s| - |suffix|..] == suffix
  }

  function TrimSuffix(s: string, suffix: string): string {
    if HasSuffix(s, suffix) then s[..|s| - |suffix|] else s
  }

  predicate InZone(q: string, zone: string) {
    HasSuffix(q, Dotted(zone))
  }

  predicate Hits(r: Record, host: string, matches: Matcher) {
    (r.name != "" && r.name == host) || (r.regexp.Some? && matches(r.regexp.value, host))
  }

  // ----- What the zones answer

  /** The first zone, in order, that the name ends in. */
  function FirstZone(zones: seq<Zone>, q: string): Option<Zone> {
    if zones == [] then None
    else if InZone(q, zones[0].name) then Some(zones[0])
    else FirstZone(zones[1..], q)
  }

  function FirstHit(records: seq<Record>, host: string, matches: Matcher): Option<Ip> {
    if records == [] then None
    else if Hits(records[0], host, matches) then Some(records[0].ip)
    else FirstHit(records[1..], host, matches)
  }

  datatype Answer = Address(ip: Ip) | NameError | NotLocal

  function ZoneAnswer(z: Zone, q: string, matches: Matcher): Answer {
    match FirstHit(z.records, TrimSuffix(q, Dotted(z.name)), matches)
    case Some(ip) => Address(ip)
    case None => if z.defaultIP.Some? then Address(z.defaultIP.value) else NameError
  }

  /** The answer to an A question. */
  function Lookup(zones: seq<Zone>, q: string, matches: Matcher): Answer {
    match FirstZone(zones, q)
    case None => NotLocal
    case Some(z) => ZoneAnswer(z, q, matches)
  }

  // ----- Adding zones

  function Merge(z: Zone, req: Zone): Zone {
    req.(records := req.records + z.records)
  }

  /** A request for a zone that exists is merged into it in place, otherwise appended. */
  function Add(zones: seq<Zone>, req: Zone): seq<Zone> {
    if zones == [] then [req]
    else if zones[0].name == req.name then [Merge(zones[0], req)] + zones[1..]
    else [zones[0]] + Add(zones[1..], req)
  }

  function AddAll(zones: seq<Zone>, history: seq<Zone>): seq<Zone> {
    if history == [] then zones
    else Add(AddAll(zones, history[..|history| - 1]), history[|history| - 1])
  }

  predicate UniqueNames(zones: seq<Zone>) {
    forall i, j :: 0 <= i < j < |zones| ==> zones[i].name != zones[j].name
  }

  // ----- The answer read off the history of requests

  /** The zone that decides: named by the earliest request whose zone the name ends in. */
  function Decider(history: seq<Zone>, q: string): Option<string> {
    if history == [] then None
    else if InZone(q, history[0].name) then Some(history[0].name)
    else Decider(history[1..], q)
  }

  /** A zone's records, those of the newest request first. */
  function RecordsOf(history: seq<Zone>, name: string): seq<Record> {
    if history == [] then [] else
      var newest := history[|history| - 1];
      (if newest.name == name then newest.records else []) + RecordsOf(history[..|history| - 1], name)
  }

  /** The default address in the newest request for a zone. */
  function DefaultOf(history: seq<Zone>, name: string): Option<Ip> {
    if history == [] then None else
      var newest := history[|history| - 1];
      if newest.name == name then newest.defaultIP else DefaultOf(history[..|history| - 1], name)
  }

  function HistoryAnswer(history: seq<Zone>, q: string, matches: Matcher): Answer {
    match Decider(history, q)
    case None => NotLocal
    case Some(name) => ZoneAnswer(Zone(name, RecordsOf(history, name), DefaultOf(history, name)), q, matches)
  }

  // ----- Proofs

  /** The first zone with a name. */
  function Named(zones: seq<Zone>, name: string): Option<Zone> {
    if zones == [] then None
    else if zones[0].name == name then Some(zones[0])
    else Named(zones[1..], name)
  }

  lemma {:induction false} AddNamed(zones: seq<Zone>, req: Zone, name: string)
    ensures Named(Add(zones, req), name)
         == if name != req.name then Named(zones, name)
            else match Named(zones, name)
                 case None => Some(req)
                 case Some(z) => Some(Merge(z, req))
  {
    if zones != [] && zones[0].name != req.name {
      assert Add(zones, req)[1..] == Add(zones[1..], req);
      AddNamed(zones[1..], req, name);
    } else if zones != [] {
      assert Add(zones, req)[1..] == zones[1..];
    }
  }

  /** Adding a zone changes which zone decides only for names no zone decided before. */
  lemma {:induction false} AddDecider(zones: seq<Zone>, req: Zone, q: string)
    ensures Decider(Add(zones, req), q)
         == if Decider(zones, q).Some? then Decider(zones, q) else if InZone(q, req.name) then Some(req.name) else None
  {
    if zones != [] && zones[0].name != req.name {
      assert Add(zones, req)[1..] == Add(zones[1..], req);
      AddDecider(zones[1..], req, q);
    } else if zones != [] {
      assert Add(zones, req)[1..] == zones[1..];
    }
  }

  lemma {:induction false} DeciderSnoc(history: seq<Zone>, req: Zone, q: string)
    ensures Decider(history + [req], q)
         == if Decider(history, q).Some? then Decider(history, q) else if InZone(q, req.name) then Some(req.name) else None
  {
    if history != [] {
      assert (history + [req])[1..] == history[1..] + [req];
      DeciderSnoc(history[1..], req, q);
    }
  }

  /** The first matching zone is the first zone of its name. */
  lemma {:induction false} DecidedBy(zones: seq<Zone>, q: string)
    ensures match Decider(zones, q)
            case None => FirstZone(zones, q) == None
            case Some(name) =>
              && InZone(q, name) && FirstZone(zones, q) == Named(zones, name)
              && Named(zones, name).Some? && Named(zones, name).value.name == name
  {
    if zones != [] && !InZone(q, zones[0].name) {
      DecidedBy(zones[1..], q);
    }
  }

  lemma {:induction false} AddAllNamed(history: seq<Zone>, name: string)
    ensures match Named(AddAll([], history), name)
            case None => RecordsOf(history, name) == [] && DefaultOf(history, name) == None
            case Some(z) => z == Zone(name, RecordsOf(history, name), DefaultOf(history, name))
  {
    if history != [] {
      var before, newest := history[..|history| - 1], history[|history| - 1];
      AddAllNamed(before, name);
      AddNamed(AddAll([], before), newest, name);
    }
  }

  lemma {:induction false} AddAllDecider(history: seq<Zone>, q: string)
    ensures Decider(AddAll([], history), q) == Decider(history, q)
  {
    if history != [] {
      var before, newest := history[..|history| - 1], history[|history| - 1];
      AddAllDecider(before, q);
      AddDecider(AddAll([], before), newest, q);
      DeciderSnoc(before, newest, q);
      assert history == before + [newest];
    }
  }

  lemma AnswersFromHistory(history: seq<Zone>, q: string, matches: Matcher)
    ensures Lookup(AddAll([], history), q, matches) == HistoryAnswer(history, q, matches)
  {
    var zones := AddAll([], history);
    AddAllDecider(history, q);
    DecidedBy(zones, q);
    if Decider(zones, q).Some? {
      AddAllNamed(history, Decider(zones, q).value);
    }
  }

  // ----- Zones given at start-up

  lemma {:induction false} AddFresh(zones: seq<Zone>, req: Zone)
    requires forall i :: 0 <= i < |zones| ==> zones[i].name != req.name
    ensures Add(zones, req) == zones + [req]
  {
    if zones != [] {
      AddFresh(zones[1..], req);
    }
  }

  /** Zones given at start-up count as requests made one by one exactly when their names
      differ. */
  lemma {:induction false} StartUpIsHistory(initial: seq<Zone>)
    ensures AddAll([], initial) == initial <==> UniqueNames(initial)
  {
    if initial != [] {
      var before, last := initial[..|initial| - 1], initial[|initial| - 1];
      if UniqueNames(initial) {
        StartUpIsHistory(before);
        AddFresh(before, last);
      } else {
        AddAllLength(initial);
      }
    }
  }

  lemma {:induction false} AddKeepsNames(zones: seq<Zone>, req: Zone)
    ensures |zones| <= |Add(zones, req)| <= |zones| + 1
    ensures forall i :: 0 <= i < |zones| ==> Add(zones, req)[i].name == zones[i].name
    ensures |Add(zones, req)| == |zones| <==> exists i :: 0 <= i < |zones| && zones[i].name == req.name
    ensures |Add(zones, req)| > |zones| ==> Add(zones, req)[|zones|] == req
  {
    if zones != [] && zones[0].name != req.name {
      AddKeepsNames(zones[1..], req);
      assert forall i :: 0 <= i < |zones| - 1 ==> zones[1..][i] == zones[i + 1];
      if |Add(zones[1..], req)| == |zones[1..]| {
        var i :| 0 <= i < |zones[1..]| && zones[1..][i].name == req.name;
        assert zones[i + 1].name == req.name;
      }
    }
  }

  /** Where a name is first asked for; the length of the history if nowhere. */
  function FirstMention(history: seq<Zone>, name: string): nat {
    if history == [] || history[0].name == name then 0 else 1 + FirstMention(history[1..], name)
  }

  lemma {:induction false} FirstMentionSnoc(history: seq<Zone>, req: Zone, name: string)
    ensures FirstMention(history, name) <= |history|
    ensures FirstMention(history + [req], name)
         == if FirstMention(history, name) < |history| then FirstMention(history, name)
            else if req.name == name then |history| else |history| + 1
  {
    if history != [] {
      assert (history + [req])[1..] == history[1..] + [req];
      FirstMentionSnoc(history[1..], req, name);
    }
  }

  predicate HasName(zones: seq<Zone>, name: string) {
    exists i :: 0 <= i < |zones| && zones[i].name == name
  }

  /** The zones have exactly the names in the history, each once, in order of first mention. */
  ghost predicate InOrderOfMention(zones: seq<Zone>, history: seq<Zone>) {
    && (forall name {:trigger HasName(zones, name)} :: HasName(zones, name) <==> FirstMention(history, name) < |history|)
    && (forall i, j :: 0 <= i < j < |zones| ==> FirstMention(history, zones[i].name) < FirstMention(history, zones[j].name))
  }

  /** The zone list has unique names, in order of first appearance, over every run. */
  lemma AddAllInOrder(zones: seq<Zone>, history: seq<Zone>)
    requires UniqueNames(zones)
    ensures InOrderOfMention(AddAll(zones, history), zones + history)
    ensures UniqueNames(AddAll(zones, history))
  {
    StartUpIsHistory(zones);
    AddAllConcat([], zones, history);
    AllInOrder(zones + history);
  }

  lemma {:induction false} AllInOrder(history: seq<Zone>)
    ensures InOrderOfMention(AddAll([], history), history)
  {
    if history != [] {
      var before, newest := history[..|history| - 1], history[|history| - 1];
      AllInOrder(before);
      assert history == before + [newest];
      AddInOrder(AddAll([], before), before, newest);
    }
  }

  lemma AddInOrder(zones: seq<Zone>, history: seq<Zone>, req: Zone)
    requires InOrderOfMention(zones, history)
    ensures InOrderOfMention(Add(zones, req), history + [req])
  {
    var zones', history' := Add(zones, req), history + [req];
    AddKeepsNames(zones, req);
    forall name
      ensures HasName(zones', name) <==> FirstMention(history', name) < |history'|
    {
      FirstMentionSnoc(history, req, name);
      assert HasName(zones, name) <==> FirstMention(history, name) < |history|;
      AddHasName(zones, req, name);
    }
    forall i, j | 0 <= i < j < |zones'|
      ensures FirstMention(history', zones'[i].name) < FirstMention(history', zones'[j].name)
    {
      AddAfter(zones, history, req, i, j);
    }
  }

  lemma AddAfter(zones: seq<Zone>, history: seq<Zone>, req: Zone, i: nat, j: nat)
    requires InOrderOfMention(zones, history) && i < j < |Add(zones, req)|
    ensures var zones', history' := Add(zones, req), history + [req];
            FirstMention(history', zones'[i].name) < FirstMention(history', zones'[j].name)
  {
    AddKeepsNames(zones, req);
    FirstMentionSnoc(history, req, zones[i].name);
    assert HasName(zones, zones[i].name);
    if j < |zones| {
      FirstMentionSnoc(history, req, zones[j].name);
      assert HasName(zones, zones[j].name);
    } else {
      FirstMentionSnoc(history, req, req.name);
      assert !HasName(zones, req.name);
    }
  }

  lemma AddHasName(zones: seq<Zone>, req: Zone, name: string)
    ensures HasName(Add(zones, req), name) <==> HasName(zones, name) || name == req.name
  {
    AddKeepsNames(zones, req);
    if i :| 0 <= i < |zones| && zones[i].name == name {
      assert Add(zones, req)[i].name == name;
    }
    if name == req.name && !HasName(zones, name) {
      assert Add(zones, req)[|zones|].name == name;
    }
  }

  lemma AddAllLength(initial: seq<Zone>)
    requires !UniqueNames(initial)
    ensures AddAll([], initial) != initial
  {
    AllInOrder(initial);
  }

  lemma {:induction false} AddAllConcat(zones: seq<Zone>, a: seq<Zone>, b: seq<Zone>)
    ensures AddAll(zones, a + b) == AddAll(AddAll(zones, a), b)
  {
    if b == [] {
      assert a + b == a;
    } else {
      var n := |b| - 1;
      assert (a + b)[..|a + b| - 1] == a + b[..n];
      AddAllConcat(zones, a, b[..n]);
    }
  }

  /** From uniquely named zones, after any run of additions, every lookup gives what the
      history says: the earliest matching zone decides, its newest records first, then the
      newest default, then a name error. */
  lemma LookupIsHistory(initial: seq<Zone>, added: seq<Zone>, q: string, matches: Matcher)
    requires UniqueNames(initial)
    ensures Lookup(AddAll(initial, added), q, matches) == HistoryAnswer(initial + added, q, matches)
  {
    StartUpIsHistory(initial);
    AddAllConcat([], initial, added);
    AnswersFromHistory(initial + added, q, matches);
  }

  // ----- The answer by positions

  predicate Under(q: string, host: string, zone: string) {
    q == host + "." + zone
  }

  /** A name lies in a zone exactly when it is some host, a dot and the zone's name. */
  lemma InZoneMeans(q: string, zone: string, host: string)
    ensures q == host + "." + zone ==> InZone(q, zone) && TrimSuffix(q, Dotted(zone)) == host
    ensures InZone(q, zone) ==> Under(q, TrimSuffix(q, Dotted(zone)), zone)
  {
    if q == host + "." + zone {
      assert q == host + Dotted(zone);
      assert q[|q| - |Dotted(zone)|..] == Dotted(zone) && q[..|q| - |Dotted(zone)|] == host;
    }
    if InZone(q, zone) {
      assert q == q[..|q| - |Dotted(zone)|] + Dotted(zone);
    }
  }

  /** The record has the host's name, or a pattern that matches it. */
  predicate Answers(records: seq<Record>, i: nat, host: string, matches: Matcher)
    requires i < |records|
  {
    || (records[i].name != "" && records[i].name == host)
    || (records[i].regexp != None && matches(records[i].regexp.value, host))
  }

  /** The first record that answers is found, if there is one. */
  lemma {:induction false} FirstHitIs(records: seq<Record>, host: string, matches: Matcher) returns (i: nat)
    ensures i <= |records| && forall j :: 0 <= j < i ==> !Answers(records, j, host, matches)
    ensures i < |records| ==> Answers(records, i, host, matches)
    ensures FirstHit(records, host, matches) == if i < |records| then Some(records[i].ip) else None
  {
    if records == [] || Hits(records[0], host, matches) {
      i := 0;
    } else {
      i := FirstHitIs(records[1..], host, matches);
      i := i + 1;
      forall j | 0 <= j < i
        ensures !Answers(records, j, host, matches)
      {
        assert j > 0 ==> Answers(records, j, host, matches) == Answers(records[1..], j - 1, host, matches);
      }
      assert i < |records| ==> Answers(records, i, host, matches) == Answers(records[1..], i - 1, host, matches);
    }
  }

  lemma {:induction false} FirstHitConcat(a: seq<Record>, b: seq<Record>, host: string, matches: Matcher)
    ensures FirstHit(a + b, host, matches)
         == if FirstHit(a, host, matches).Some? then FirstHit(a, host, matches) else FirstHit(b, host, matches)
  {
    if a == [] {
      assert a + b == b;
    } else {
      assert (a + b)[1..] == a[1..] + b;
      FirstHitConcat(a[1..], b, host, matches);
    }
  }

  /** Record `i` of request `j`, a request for zone `name`, answers. */
  predicate HitAt(history: seq<Zone>, name: string, host: string, matches: Matcher, j: nat, i: nat) {
    j < |history| && history[j].name == name && i < |history[j].records| && Answers(history[j].records, i, host, matches)
  }

  /** No later request for the zone has a record that answers, and no earlier record of the
      same request does. */
  ghost predicate NewestHit(history: seq<Zone>, name: string, host: string, matches: Matcher, j: nat, i: nat) {
    && HitAt(history, name, host, matches, j, i)
    && forall j': nat, i': nat :: HitAt(history, name, host, matches, j', i') ==> j' < j || (j' == j && i <= i')
  }

  /** The records of a zone answer with the newest hit. */
  lemma {:induction false} RecordsAnswer(history: seq<Zone>, name: string, host: string, matches: Matcher) returns (j: nat, i: nat)
    ensures match FirstHit(RecordsOf(history, name), host, matches)
            case Some(ip) => NewestHit(history, name, host, matches, j, i) && ip == history[j].records[i].ip
            case None => forall j': nat, i': nat :: !HitAt(history, name, host, matches, j', i')
  {
    j, i := 0, 0;
    if history != [] {
      var n := |history| - 1;
      var before, newest := history[..n], history[n];
      var own := if newest.name == name then newest.records else [];
      FirstHitConcat(own, RecordsOf(before, name), host, matches);
      var k := FirstHitIs(own, host, matches);
      if k < |own| {
        j, i := n, k;
      } else {
        j, i := RecordsAnswer(before, name, host, matches);
        forall j': nat, i': nat | HitAt(history, name, host, matches, j', i')
          ensures HitAt(before, name, host, matches, j', i')
        {
        }
      }
    }
  }

  lemma {:induction false} DefaultIs(history: seq<Zone>, name: string, l: nat)
    requires l < |history| && history[l].name == name && forall k :: l < k < |history| ==> history[k].name != name
    ensures DefaultOf(history, name) == history[l].defaultIP
  {
    if l < |history| - 1 {
      DefaultIs(history[..|history| - 1], name, l);
    }
  }

  lemma {:induction false} DeciderIs(history: seq<Zone>, q: string, m: nat)
    requires m < |history| && InZone(q, history[m].name) && forall k :: 0 <= k < m ==> !InZone(q, history[k].name)
    ensures Decider(history, q) == Some(history[m].name)
  {
    if m > 0 {
      DeciderIs(history[1..], q, m - 1);
    }
  }

  /** Request `m` is the earliest whose zone the name `host.zone` lies in, and `l` the latest
      for the same zone. */
  ghost predicate Decided(history: seq<Zone>, q: string, host: string, m: nat, l: nat) {
    && m <= l < |history| && q == host + "." + history[m].name && history[l].name == history[m].name
    && (forall k, h :: 0 <= k < m ==> !Under(q, h, history[k].name))
    && (forall k :: l < k < |history| ==> history[k].name != history[m].name)
  }

  /** From uniquely named zones, after any run of additions: the earliest request whose zone the
      name lies in decides the zone; a record of the zone answers if and only if it is the
      first that matches in the latest request that has a match; without a match the latest
      request's default answers, or there is a name error. */
  lemma LookupByPosition(initial: seq<Zone>, added: seq<Zone>, q: string, host: string, m: nat, l: nat, matches: Matcher)
    requires UniqueNames(initial) && Decided(initial + added, q, host, m, l)
    ensures var history, name := initial + added, (initial + added)[m].name;
            var answer := Lookup(AddAll(initial, added), q, matches);
            && (forall j: nat, i: nat :: NewestHit(history, name, host, matches, j, i) ==> answer == Address(history[j].records[i].ip))
            && ((exists j: nat, i: nat :: HitAt(history, name, host, matches, j, i)) ==>
                  exists j: nat, i: nat :: NewestHit(history, name, host, matches, j, i))
            && ((forall j: nat, i: nat :: !HitAt(history, name, host, matches, j, i)) ==>
                  answer == match history[l].defaultIP case Some(ip) => Address(ip) case None => NameError)
  {
    var history, name := initial + added, (initial + added)[m].name;
    LookupIsHistory(initial, added, q, matches);
    HistoryAnswerIs(history, q, host, m, l, matches);
    var j, i := RecordsAnswer(history, name, host, matches);
  }

  lemma HistoryAnswerIs(history: seq<Zone>, q: string, host: string, m: nat, l: nat, matches: Matcher)
    requires Decided(history, q, host, m, l)
    ensures HistoryAnswer(history, q, matches)
         == match FirstHit(RecordsOf(history, history[m].name), host, matches)
            case Some(ip) => Address(ip)
            case None => match history[l].defaultIP case Some(ip) => Address(ip) case None => NameError
  {
    InZoneMeans(q, history[m].name, host);
    forall k | 0 <= k < m
      ensures !InZone(q, history[k].name)
    {
      InZoneMeans(q, history[k].name, "");
    }
    DeciderIs(history, q, m);
    DefaultIs(history, history[m].name, l);
  }

  /** A name in no zone ever asked for is not answered locally. */
  lemma LookupElsewhere(initial: seq<Zone>, added: seq<Zone>, q: string, matches: Matcher)
    requires UniqueNames(initial)
    requires forall k, h :: 0 <= k < |initial + added| ==> !Under(q, h, (initial + added)[k].name)
    ensures Lookup(AddAll(initial, added), q, matches) == NotLocal
  {
    LookupIsHistory(initial, added, q, matches);
    forall k | 0 <= k < |initial + added|
      ensures !InZone(q, (initial + added)[k].name)
    {
      InZoneMeans(q, (initial + added)[k].name, "");
    }
    NoDecider(initial + added, q);
  }

  lemma {:induction false} NoDecider(history: seq<Zone>, q: string)
    requires forall k :: 0 <= k < |history| ==> !InZone(q, history[k].name)
    ensures Decider(history, q) == None
  {
    if history != [] {
      NoDecider(history[1..], q);
    }
  }

  /** Adding a zone changes no answer for a name that another zone decides, and none for a name
      nobody decides unless it lies in the new zone; merged or appended makes no difference. */
  lemma AddDoesNotInterfere(zones: seq<Zone>, req: Zone, q: string, matches: Matcher)
    requires match Decider(zones, q)
             case Some(name) => name != req.name
             case None => !InZone(q, req.name)
    ensures Lookup(Add(zones, req), q, matches) == Lookup(zones, q, matches)
  {
    AddDecider(zones, req, q);
    DecidedBy(zones, q);
    DecidedBy(Add(zones, req), q);
    if Decider(zones, q).Some? {
      AddNamed(zones, req, Decider(zones, q).value);
    }
  }

  // ----- The handler's code

  datatype Question = Question(name: string, isA: bool)

  datatype RR = ARecord(name: string, ip: Ip) | External(text: string)

  /** The system resolver's answer, or nothing if it fails. */
  type Upstream = Question -> Option<seq<RR>>

  datatype Response = Response(answers: seq<RR>, nameError: bool)

  /** What a local zone contributes: nothing to questions of other types. */
  function LocalResponse(z: Zone, q: Question, matches: Matcher): Response {
    if !q.isA then Response([], false)
    else match ZoneAnswer(z, q.name, matches)
         case Address(ip) => Response([ARecord(q.name, ip)], false)
         case _ => Response([], true)
  }

  /** The whole reply: the first question in a local zone, or the first failed upstream query,
      ends it. */
  function Respond(zones: seq<Zone>, qs: seq<Question>, matches: Matcher, up: Upstream): Response {
    if qs == [] then Response([], false)
    else match FirstZone(zones, qs[0].name)
         case Some(z) => LocalResponse(z, qs[0], matches)
         case None =>
           match up(qs[0])
           case None => Response([], true)
           case Some(rrs) =>
             var later := Respond(zones, qs[1..], matches, up);
             Response(rrs + later.answers, later.nameError)
  }

  // ----- The reply by positions

  /** The name is in none of the zones. */
  ghost predicate Elsewhere(zones: seq<Zone>, q: string) {
    forall z, h :: 0 <= z < |zones| ==> !Under(q, h, zones[z].name)
  }

  /** Zone `z` is the first the name `host.zone` is in. */
  ghost predicate FirstIn(zones: seq<Zone>, q: string, host: string, z: nat) {
    && z < |zones| && q == host + "." + zones[z].name
    && forall y, h :: 0 <= y < z ==> !Under(q, h, zones[y].name)
  }

  /** The first `k` questions are passed on, and the resolver answers each. */
  ghost predicate PassedOn(zones: seq<Zone>, qs: seq<Question>, up: Upstream, k: nat) {
    k <= |qs| && forall i :: 0 <= i < k ==> Elsewhere(zones, qs[i].name) && up(qs[i]).Some?
  }

  /** The resolver's answers to the first `k` questions. */
  function Upstreams(qs: seq<Question>, up: Upstream, k: nat): seq<RR>
    requires k <= |qs| && forall i :: 0 <= i < k ==> up(qs[i]).Some?
  {
    if k == 0 then [] else up(qs[0]).value + Upstreams(qs[1..], up, k - 1)
  }

  lemma {:induction false} FirstZoneIs(zones: seq<Zone>, q: string, host: string, z: nat)
    requires FirstIn(zones, q, host, z)
    ensures FirstZone(zones, q) == Some(zones[z]) && TrimSuffix(q, Dotted(zones[z].name)) == host
  {
    InZoneMeans(q, zones[z].name, host);
    if z > 0 {
      InZoneMeans(q, zones[0].name, "");
      FirstZoneIs(zones[1..], q, host, z - 1);
    }
  }

  lemma {:induction false} NoZone(zones: seq<Zone>, q: string)
    requires Elsewhere(zones, q)
    ensures FirstZone(zones, q) == None
  {
    if zones != [] {
      InZoneMeans(q, zones[0].name, "");
      NoZone(zones[1..], q);
    }
  }

  lemma {:induction false} RespondFrom(zones: seq<Zone>, qs: seq<Question>, matches: Matcher, up: Upstream, k: nat)
    requires PassedOn(zones, qs, up, k)
    ensures var later := Respond(zones, qs[k..], matches, up);
            Respond(zones, qs, matches, up) == Response(Upstreams(qs, up, k) + later.answers, later.nameError)
  {
    if k == 0 {
      assert qs[0..] == qs;
    } else {
      NoZone(zones, qs[0].name);
      RespondFrom(zones, qs[1..], matches, up, k - 1);
      assert qs[1..][k - 1..] == qs[k..];
    }
  }

  /** What the first question in a local zone ends the reply with. */
  ghost predicate EndsLocally(z: Zone, q: Question, host: string, matches: Matcher, r: Response, before: seq<RR>) {
    if !q.isA then r == Response(before, false)
    else
      && (forall i :: 0 <= i < |z.records| && FirstAnswer(z.records, i, host, matches) ==>
            r == Response(before + [ARecord(q.name, z.records[i].ip)], false))
      && ((forall i :: 0 <= i < |z.records| ==> !Answers(z.records, i, host, matches)) ==>
            r == match z.defaultIP
                 case Some(ip) => Response(before + [ARecord(q.name, ip)], false)
                 case None => Response(before, true))
  }

  ghost predicate FirstAnswer(records: seq<Record>, i: nat, host: string, matches: Matcher)
    requires i < |records|
  {
    Answers(records, i, host, matches) && forall j :: 0 <= j < i ==> !Answers(records, j, host, matches)
  }

  lemma LocalQuestion(zones: seq<Zone>, qs: seq<Question>, matches: Matcher, up: Upstream, k: nat, z: nat, host: string)
    requires PassedOn(zones, qs, up, k) && k < |qs| && FirstIn(zones, qs[k].name, host, z)
    ensures EndsLocally(zones[z], qs[k], host, matches, Respond(zones, qs, matches, up), Upstreams(qs, up, k))
  {
    RespondFrom(zones, qs, matches, up, k);
    FirstZoneIs(zones, qs[k].name, host, z);
    var i := FirstHitIs(zones[z].records, host, matches);
  }

  lemma LastQuestion(zones: seq<Zone>, qs: seq<Question>, matches: Matcher, up: Upstream, k: nat)
    requires PassedOn(zones, qs, up, k)
    ensures k == |qs| ==> Respond(zones, qs, matches, up) == Response(Upstreams(qs, up, k), false)
    ensures k < |qs| && Elsewhere(zones, qs[k].name) && up(qs[k]) == None ==>
              Respond(zones, qs, matches, up) == Response(Upstreams(qs, up, k), true)
  {
    RespondFrom(zones, qs, matches, up, k);
    if k < |qs| && Elsewhere(zones, qs[k].name) {
      NoZone(zones, qs[k].name);
    }
  }

  /** The reply, told by positions: questions in no zone are passed on until the resolver
      fails; the first one in a zone ends the reply. */
  ghost predicate ReplyIs(zones: seq<Zone>, qs: seq<Question>, matches: Matcher, up: Upstream, r: Response) {
    && (forall k: nat, z: nat, host :: PassedOn(zones, qs, up, k) && k < |qs| && FirstIn(zones, qs[k].name, host, z) ==>
          EndsLocally(zones[z], qs[k], host, matches, r, Upstreams(qs, up, k)))
    && (forall k: nat :: PassedOn(zones, qs, up, k) && k < |qs| && Elsewhere(zones, qs[k].name) && up(qs[k]) == None ==>
          r == Response(Upstreams(qs, up, k), true))
    && (PassedOn(zones, qs, up, |qs|) ==> r == Response(Upstreams(qs, up, |qs|), false))
  }

  lemma RespondMeans(zones: seq<Zone>, qs: seq<Question>, matches: Matcher, up: Upstream)
    ensures ReplyIs(zones, qs, matches, up, Respond(zones, qs, matches, up))
  {
    var r := Respond(zones, qs, matches, up);
    forall k: nat, z: nat, host | PassedOn(zones, qs, up, k) && k < |qs| && FirstIn(zones, qs[k].name, host, z)
      ensures EndsLocally(zones[z], qs[k], host, matches, r, Upstreams(qs, up, k))
    {
      LocalQuestion(zones, qs, matches, up, k, z, host);
    }
    forall k: nat | PassedOn(zones, qs, up, k) && k < |qs| && Elsewhere(zones, qs[k].name) && up(qs[k]) == None
      ensures r == Response(Upstreams(qs, up, k), true)
    {
      LastQuestion(zones, qs, matches, up, k);
    }
    if PassedOn(zones, qs, up, |qs|) {
      LastQuestion(zones, qs, matches, up, |qs|);
    }
  }

  lemma RespondAt(zones: seq<Zone>, qs: seq<Question>, i: nat, matches: Matcher, up: Upstream)
    requires i < |qs|
    ensures Respond(zones, qs[i..], matches, up)
         == match FirstZone(zones, qs[i].name)
            case Some(z) => LocalResponse(z, qs[i], matches)
            case None =>
              match up(qs[i])
              case None => Response([], true)
              case Some(rrs) =>
                var later := Respond(zones, qs[i + 1..], matches, up);
                Response(rrs + later.answers, later.nameError)
  {
    assert qs[i..][1..] == qs[i + 1..];
  }

  lemma Regroup(a: seq<RR>, b: seq<RR>, c: seq<RR>)
    ensures a + (b + c) == a + b + c
  {
  }

  lemma AddFrom(zones: seq<Zone>, req: Zone, i: nat)
    requires i < |zones|
    ensures zones[i].name == req.name ==> zones[..i] + Add(zones[i..], req) == zones[i := Merge(zones[i], req)]
    ensures zones[i].name != req.name ==> zones[..i] + Add(zones[i..], req) == zones[..i + 1] + Add(zones[i + 1..], req)
  {
    assert zones[i..][1..] == zones[i + 1..];
    assert zones[..i + 1] == zones[..i] + [zones[i]];
  }

  class Handler {
    var zones: seq<Zone>

    constructor (zones: seq<Zone>)
      ensures this.zones == zones
    {
      this.zones := zones;
    }

    method AddZone(req: Zone)
      modifies this
      ensures zones == Add(old(zones), req)
    {
      var i := 0;
      while i < |zones|
        invariant 0 <= i <= |zones| && zones == old(zones)
        invariant Add(zones, req) == zones[..i] + Add(zones[i..], req)
      {
        AddFrom(zones, req, i);
        if zones[i].name == req.name {
          zones := zones[i := req.(records := req.records + zones[i].records)];
          return;
        }
        i := i + 1;
      }
      zones := zones + [req];
    }

    /** The three nested loops of the handler, with the early returns. */
    method AddAnswers(qs: seq<Question>, matches: Matcher, up: Upstream) returns (r: Response)
      ensures r == Respond(zones, qs, matches, up)
    {
      r := Response([], false);
      var i := 0;
      while i < |qs|
        invariant 0 <= i <= |qs| && !r.nameError
        invariant var later := Respond(zones, qs[i..], matches, up);
                  Respond(zones, qs, matches, up) == Response(r.answers + later.answers, later.nameError)
      {
        var q := qs[i];
        var z := FindZone(q.name);
        RespondAt(zones, qs, i, matches, up);
        if z.Some? {
          if q.isA {
            var hit := FindRecord(z.value.records, TrimSuffix(q.name, Dotted(z.value.name)), matches);
            if hit.Some? {
              return r.(answers := r.answers + [ARecord(q.name, hit.value)]);
            }
            if z.value.defaultIP.Some? {
              return r.(answers := r.answers + [ARecord(q.name, z.value.defaultIP.value)]);
            }
            return r.(nameError := true);
          }
          return r;
        }
        match up(q) {
          case None => return r.(nameError := true);
          case Some(rrs) =>
            Regroup(r.answers, rrs, Respond(zones, qs[i + 1..], matches, up).answers);
            r := r.(answers := r.answers + rrs);
        }
        i := i + 1;
      }
    }

    method FindZone(q: string) returns (z: Option<Zone>)
      ensures z == FirstZone(zones, q)
    {
      var i := 0;
      while i < |zones|
        invariant 0 <= i <= |zones| && FirstZone(zones, q) == FirstZone(zones[i..], q)
      {
        if HasSuffix(q, Dotted(zones[i].name)) {
          return Some(zones[i]);
        }
        i := i + 1;
      }
      z := None;
    }

    static method FindRecord(records: seq<Record>, host: string, matches: Matcher) returns (ip: Option<Ip>)
      ensures ip == FirstHit(records, host, matches)
    {
      var i := 0;
      while i < |records|
        invariant 0 <= i <= |records| && FirstHit(records, host, matches) == FirstHit(records[i..], host, matches)
      {
        if Hits(records[i], host, matches) {
          return Some(records[i].ip);
        }
        i := i + 1;
      }
      ip := None;
    }
  }

  /** Questions in a local zone never reach the system resolver: two resolvers that agree on
      all other names give the same reply. */
  lemma {:induction false} LocalNamesStayLocal(zones: seq<Zone>, qs: seq<Question>, matches: Matcher, up: Upstream, up': Upstream)
    requires forall q: Question :: FirstZone(zones, q.name) == None ==> up(q) == up'(q)
    ensures Respond(zones, qs, matches, up) == Respond(zones, qs, matches, up')
  {
    if qs != [] {
      LocalNamesStayLocal(zones, qs[1..], matches, up, up');
    }
  }
}
