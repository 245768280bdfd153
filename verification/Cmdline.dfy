/**
 The command-line printer for gvproxy against the parser gvproxy runs on its arguments.
 */
module Cmdline {
  import opened Options

  // ----- Numbers as text

  function Digit(d: nat): char
    requires d < 10
  {
    d as char + '0'
  }

  function Digits(n: nat): (s: string)
    ensures s != "" && (n > 0 ==> s[0] != '0') && (n == 0 ==> s == "0")
  {
    if n < 10 then [Digit(n)] else Digits(n / 10) + [Digit(n % 10)]
  }

  function Itoa(n: int): string {
    if n < 0 then "-" + Digits(-n) else Digits(n)
  }

  function ParseDigits(s: string): Option<nat> {
    if s == "" then Some(0) else
      var c := s[|s| - 1];
      match ParseDigits(s[..|s| - 1])
      case None => None
      case Some(n) => if '0' <= c <= '9' then Some(10 * n + (c - '0') as nat) else None
  }

  predicate FitsInt64(n: int) {
    -0x8000_0000_0000_0000 <= n < 0x8000_0000_0000_0000
  }

  /** Decimal integers of the machine's width, with an optional sign. */
  function ParseInt(s: string): Option<int> {
    var negative := s != "" && s[0] == '-';
    var digits := if s != "" && (s[0] == '-' || s[0] == '+') then s[1..] else s;
    if digits == "" || (|digits| > 1 && digits[0] == '0') then None
    else match ParseDigits(digits)
         case None => None
         case Some(n) =>
           var m: int := n;
           var v := if negative then -m else m;
           if FitsInt64(v) then Some(v) else None
  }

  lemma {:induction false} DigitsRoundTrip(n: nat)
    ensures ParseDigits(Digits(n)) == Some(n) && Digits(n)[0] != '-' && Digits(n)[0] != '+'
    ensures |Digits(n)| > 1 ==> Digits(n)[0] != '0'
  {
    var s := Digits(n);
    if n >= 10 {
      DigitsRoundTrip(n / 10);
      assert s[..|s| - 1] == Digits(n / 10);
    } else {
      assert s[..0] == "";
    }
  }

  /** The number without its last `k` decimal places. */
  function Shifted(n: nat, k: nat): nat {
    if k == 0 then n else Shifted(n / 10, k - 1)
  }

  /** Numbers are printed in decimal, highest place first, with no leading zero. */
  lemma {:induction false} DecimalPlaces(n: nat, k: nat)
    requires k < |Digits(n)|
    ensures Digits(n)[|Digits(n)| - 1 - k] == '0' + (Shifted(n, k) % 10) as char
    ensures n > 0 ==> Shifted(n, |Digits(n)| - 1) > 0
  {
    if n >= 10 {
      DecimalPlaces(n / 10, if k > 0 then k - 1 else 0);
      assert |Digits(n)| == |Digits(n / 10)| + 1;
    }
  }

  lemma IntRoundTrip(n: int)
    requires FitsInt64(n)
    ensures ParseInt(Itoa(n)) == Some(n)
  {
    DigitsRoundTrip(if n < 0 then -n else n);
    if n < 0 {
      assert Itoa(n)[1..] == Digits(-n);
    }
  }

  // ----- The parser

  const StringFlags: set<string> := {"listen-vpnkit", "listen-qemu", "listen-bess", "listen-stdio", "listen-vfkit", "pid-file"}
  const ListFlags: set<string> := {"listen", "forward-sock", "forward-dest", "forward-user", "forward-identity"}
  const IntFlags: set<string> := {"mtu", "ssh-port"}
  const BoolFlags: set<string> := {"debug", "version"}

  const SocketFlags: set<string> := {"listen-vpnkit", "listen-qemu", "listen-bess", "listen-stdio", "listen-vfkit"}
  const ForwardFlags: set<string> := {"forward-sock", "forward-dest", "forward-user", "forward-identity"}

  /** The variables behind the flags: one value each, or a list for repeatable flags. */
  datatype Flags = Flags(strings: map<string, string>, lists: map<string, seq<string>>, ints: map<string, int>, bools: map<string, bool>)

  const Defaults := Flags(
    map f | f in StringFlags :: "",
    map f | f in ListFlags :: [],
    map["mtu" := 1500, "ssh-port" := 2222],
    map["debug" := false, "version" := false])

  predicate Complete(f: Flags) {
    f.strings.Keys == StringFlags && f.lists.Keys == ListFlags && f.ints.Keys == IntFlags && f.bools.Keys == BoolFlags
  }

  function ParseBool(s: string): Option<bool> {
    if s in {"1", "t", "T", "TRUE", "true", "True"} then Some(true)
    else if s in {"0", "f", "F", "FALSE", "false", "False"} then Some(false)
    else None
  }

  /** Gives a flag its value. */
  function Set(f: Flags, name: string, value: string): (r: Option<Flags>)
    requires Complete(f)
    ensures r.Some? ==> Complete(r.value)
  {
    if name in StringFlags then Some(f.(strings := f.strings[name := value]))
    else if name in ListFlags then Some(f.(lists := f.lists[name := f.lists[name] + [value]]))
    else if name in IntFlags then
      match ParseInt(value)
      case None => None
      case Some(n) => Some(f.(ints := f.ints[name := n]))
    else if name in BoolFlags then
      match ParseBool(value)
      case None => None
      case Some(b) => Some(f.(bools := f.bools[name := b]))
    else None
  }

  /** Position of the first equals sign after the first character, or the length. */
  function FindEquals(s: string, i: nat): (r: nat)
    requires i <= |s|
    ensures i <= r <= |s|
    decreases |s| - i
  {
    if i == |s| || s[i] == '=' then i else FindEquals(s, i + 1)
  }

  datatype Outcome = Parsed(flags: Flags, rest: seq<string>) | Failed

  /** The argument loop: stops at the first argument that is not a flag or after a double
      dash; a boolean flag takes a value only after an equals sign, any other flag takes the
      next argument, whatever it looks like. */
  function Parse(args: seq<string>, f: Flags): Outcome
    requires Complete(f)
    decreases |args|
  {
    if args == [] then Parsed(f, [])
    else
      var s := args[0];
      if |s| < 2 || s[0] != '-' then Parsed(f, args)
      else if s == "--" then Parsed(f, args[1..])
      else
        var body := if s[1] == '-' then s[2..] else s[1..];
        if body == "" || body[0] == '-' || body[0] == '=' then Failed
        else
          var eq := FindEquals(body, 1);
          var name := body[..eq];
          if eq < |body| then
            match Set(f, name, body[eq + 1..])
            case None => Failed
            case Some(f') => Parse(args[1..], f')
          else if name in BoolFlags then
            Parse(args[1..], f.(bools := f.bools[name := true]))
          else if |args| == 1 then Failed
          else
            match Set(f, name, args[1])
            case None => Failed
            case Some(f') => Parse(args[2..], f')
  }

  // ----- The printer

  datatype Command = Command(
    debug: bool,
    mtu: int,
    forwardInfo: map<string, seq<string>>,
    endpoints: seq<string>,
    sockets: map<string, string>,
    pidFile: string,
    sshPort: int)

  /** One flag with its value, or the debug switch. */
  datatype Token = Pair(name: string, value: string) | Debug

  function Render(tokens: seq<Token>): seq<string> {
    if tokens == [] then []
    else (match tokens[0] case Pair(n, v) => ["-" + n, v] case Debug => ["-debug"]) + Render(tokens[1..])
  }

  lemma {:induction false} RenderConcat(a: seq<Token>, b: seq<Token>)
    ensures Render(a + b) == Render(a) + Render(b)
  {
    if a == [] {
      assert a + b == b;
    } else {
      assert (a + b)[1..] == a[1..] + b;
      RenderConcat(a[1..], b);
    }
  }

  /** The non-empty values, each behind the flag. */
  function Pairs(flag: string, values: seq<string>): seq<Token> {
    if values == [] then []
    else (if values[0] != "" then [Pair(flag, values[0])] else []) + Pairs(flag, values[1..])
  }

  function SocketTokens(sockets: map<string, string>, order: seq<string>): seq<Token>
    requires forall f :: f in order ==> f in sockets
  {
    if order == [] then [] else Pairs(order[0], [sockets[order[0]]]) + SocketTokens(sockets, order[1..])
  }

  function ForwardTokens(info: map<string, seq<string>>, order: seq<string>): seq<Token>
    requires forall f :: f in order ==> f in info
  {
    if order == [] then [] else Pairs(order[0], info[order[0]]) + ForwardTokens(info, order[1..])
  }

  /** The order a map iteration visits the keys in: each once. */
  ghost predicate Enumerates(order: seq<string>, keys: set<string>) {
    AllDifferent(order) && forall f :: f in order <==> f in keys
  }

  function Settings(c: Command): seq<Token> {
    (if c.debug then [Debug] else []) + [Pair("mtu", Itoa(c.mtu)), Pair("ssh-port", Itoa(c.sshPort))]
  }

  function SettingsArgs(c: Command): seq<string> {
    (if c.debug then ["-debug"] else []) + ["-mtu", Itoa(c.mtu), "-ssh-port", Itoa(c.sshPort)]
  }

  function Tokens(c: Command, sockets: seq<string>, forwards: seq<string>): seq<Token>
    requires (forall f :: f in sockets ==> f in c.sockets) && (forall f :: f in forwards ==> f in c.forwardInfo)
  {
    Pairs("listen", c.endpoints)
    + Settings(c)
    + SocketTokens(c.sockets, sockets)
    + ForwardTokens(c.forwardInfo, forwards)
    + Pairs("pid-file", [c.pidFile])
  }

  /** The arguments print the command, for some order of each map. */
  ghost predicate Prints(c: Command, args: seq<string>) {
    exists sockets, forwards ::
      Enumerates(sockets, c.sockets.Keys) && Enumerates(forwards, c.forwardInfo.Keys) &&
      args == Render(Tokens(c, sockets, forwards))
  }

  /** The command a fresh object stands for, as text. */
  lemma DefaultCommand()
    ensures Render(Tokens(Command(false, 1500, map[], [], map[], "", 2222), [], []))
         == ["-mtu", "1500", "-ssh-port", "2222"]
  {
    var c := Command(false, 1500, map[], [], map[], "", 2222);
    assert Digits(15) == Digits(1) + ['5'] && Digits(150) == Digits(15) + ['0'];
    assert Digits(1500) == Digits(150) + ['0'] == "1500";
    assert Digits(22) == Digits(2) + ['2'] && Digits(222) == Digits(22) + ['2'];
    assert Digits(2222) == Digits(222) + ['2'] == "2222";
    RenderTokens(c, [], []);
    assert [c.pidFile][1..] == [];
    assert Pairs("pid-file", [c.pidFile]) == [] && Pairs("listen", c.endpoints) == [];
    assert SocketTokens(c.sockets, []) == [] && ForwardTokens(c.forwardInfo, []) == [] && Render([]) == [];
    assert [] + SettingsArgs(c) + [] + [] + [] == SettingsArgs(c);
  }

  /** What the setters can put into a command. */
  predicate Usable(c: Command) {
    c.sockets.Keys <= SocketFlags && c.forwardInfo.Keys <= ForwardFlags && FitsInt64(c.mtu) && FitsInt64(c.sshPort)
  }

  class GvproxyCommand {
    var debug: bool
    var mtu: int
    var forwardInfo: map<string, seq<string>>
    var endpoints: seq<string>
    var sockets: map<string, string>
    var pidFile: string
    var sshPort: int

    ghost function View(): Command
      reads this
    {
      Command(debug, mtu, forwardInfo, endpoints, sockets, pidFile, sshPort)
    }

    ghost predicate Valid()
      reads this
    {
      sockets.Keys <= SocketFlags && forwardInfo.Keys <= ForwardFlags
    }

    constructor ()
      ensures Valid() && View() == Command(false, 1500, map[], [], map[], "", 2222)
    {
      debug, mtu, sshPort, pidFile := false, 1500, 2222, "";
      endpoints, forwardInfo, sockets := [], map[], map[];
    }

    method AddEndpoint(endpoint: string)
      requires Valid()
      modifies this
      ensures Valid() && View() == old(View()).(endpoints := old(endpoints) + [endpoint])
    {
      endpoints := endpoints + [endpoint];
    }

    /** The five socket setters; a later one for the same flag wins. */
    method AddSocket(flag: string, socket: string)
      requires Valid() && flag in SocketFlags
      modifies this
      ensures Valid() && View() == old(View()).(sockets := old(sockets)[flag := socket])
    {
      sockets := sockets[flag := socket];
    }

    /** The four forward setters; values of a flag accumulate in order. */
    method AddForward(flag: string, value: string)
      requires Valid() && flag in ForwardFlags
      modifies this
      ensures Valid()
      ensures View() == old(View()).(forwardInfo :=
                old(forwardInfo)[flag := (if flag in old(forwardInfo) then old(forwardInfo)[flag] else []) + [value]])
    {
      var before := if flag in forwardInfo then forwardInfo[flag] else [];
      forwardInfo := forwardInfo[flag := before + [value]];
    }

    /** The arguments, with the two maps walked in whatever order the runtime picks: the
        parser of gvproxy reads the command back from them. */
    method ToCmdline() returns (args: seq<string>)
      requires Valid()
      ensures Prints(View(), args)
      ensures Usable(View()) ==> ReadsBack(View(), args)
    {
      var listen := PairArgs("listen", endpoints);
      var socketArgs, socketOrder := SocketArgs();
      var forwardArgs, forwardOrder := ForwardArgs();
      var settings := SettingArgs();
      var pid := PairArgs("pid-file", [pidFile]);
      args := listen + settings + socketArgs + forwardArgs + pid;
      RenderTokens(View(), socketOrder, forwardOrder);
      PrintedReadsBack(View(), socketOrder, forwardOrder);
    }

    method SettingArgs() returns (args: seq<string>)
      ensures args == SettingsArgs(View())
    {
      args := [];
      if debug {
        args := args + ["-debug"];
      }
      args := args + ["-mtu", Itoa(mtu)];
      args := args + ["-ssh-port", Itoa(sshPort)];
    }

    static method PairArgs(flag: string, values: seq<string>) returns (args: seq<string>)
      ensures args == Render(Pairs(flag, values))
    {
      args := [];
      var i := 0;
      while i < |values|
        invariant 0 <= i <= |values|
        invariant Render(Pairs(flag, values)) == args + Render(Pairs(flag, values[i..]))
      {
        PairsStep(flag, values, i);
        if values[i] != "" {
          args := args + ["-" + flag, values[i]];
        }
        i := i + 1;
      }
    }

    method SocketArgs() returns (args: seq<string>, ghost order: seq<string>)
      ensures Enumerates(order, sockets.Keys) && args == Render(SocketTokens(sockets, order))
    {
      args, order := [], [];
      var todo := sockets.Keys;
      while todo != {}
        invariant todo <= sockets.Keys && Enumerates(order, sockets.Keys - todo)
        invariant args == Render(SocketTokens(sockets, order))
        decreases todo
      {
        var f :| f in todo;
        var more := PairArgs(f, [sockets[f]]);
        EnumeratesSnoc(order, sockets.Keys - todo, f);
        assert sockets.Keys - (todo - {f}) == sockets.Keys - todo + {f};
        SocketsSnoc(sockets, order, f);
        RenderConcat(SocketTokens(sockets, order), Pairs(f, [sockets[f]]));
        args, order := args + more, order + [f];
        todo := todo - {f};
      }
    }

    method ForwardArgs() returns (args: seq<string>, ghost order: seq<string>)
      ensures Enumerates(order, forwardInfo.Keys) && args == Render(ForwardTokens(forwardInfo, order))
    {
      args, order := [], [];
      var todo := forwardInfo.Keys;
      while todo != {}
        invariant todo <= forwardInfo.Keys && Enumerates(order, forwardInfo.Keys - todo)
        invariant args == Render(ForwardTokens(forwardInfo, order))
        decreases todo
      {
        var f :| f in todo;
        var more := PairArgs(f, forwardInfo[f]);
        EnumeratesSnoc(order, forwardInfo.Keys - todo, f);
        assert forwardInfo.Keys - (todo - {f}) == forwardInfo.Keys - todo + {f};
        ForwardsSnoc(forwardInfo, order, f);
        RenderConcat(ForwardTokens(forwardInfo, order), Pairs(f, forwardInfo[f]));
        args, order := args + more, order + [f];
        todo := todo - {f};
      }
    }
  }

  lemma PairsStep(flag: string, values: seq<string>, i: nat)
    requires i < |values|
    ensures Render(Pairs(flag, values[i..]))
         == (if values[i] != "" then ["-" + flag, values[i]] else []) + Render(Pairs(flag, values[i + 1..]))
  {
    assert values[i..][1..] == values[i + 1..];
    if values[i] != "" {
      var head, rest := Pair(flag, values[i]), Pairs(flag, values[i + 1..]);
      assert ([head] + rest)[1..] == rest;
    } else {
      assert [] + Pairs(flag, values[i + 1..]) == Pairs(flag, values[i + 1..]);
    }
  }

  lemma EnumeratesSnoc(order: seq<string>, keys: set<string>, f: string)
    requires Enumerates(order, keys) && f !in keys
    ensures Enumerates(order + [f], keys + {f})
  {
  }

  lemma {:induction false} SocketsSnoc(sockets: map<string, string>, order: seq<string>, f: string)
    requires f in sockets && forall g :: g in order ==> g in sockets
    ensures SocketTokens(sockets, order + [f]) == SocketTokens(sockets, order) + Pairs(f, [sockets[f]])
  {
    if order != [] {
      assert (order + [f])[1..] == order[1..] + [f];
      SocketsSnoc(sockets, order[1..], f);
    }
  }

  lemma {:induction false} ForwardsSnoc(info: map<string, seq<string>>, order: seq<string>, f: string)
    requires f in info && forall g :: g in order ==> g in info
    ensures ForwardTokens(info, order + [f]) == ForwardTokens(info, order) + Pairs(f, info[f])
  {
    if order != [] {
      assert (order + [f])[1..] == order[1..] + [f];
      ForwardsSnoc(info, order[1..], f);
    }
  }

  lemma RenderSettings(c: Command)
    ensures Render(Settings(c)) == SettingsArgs(c)
  {
    var mtu, port := Pair("mtu", Itoa(c.mtu)), Pair("ssh-port", Itoa(c.sshPort));
    RenderConcat(if c.debug then [Debug] else [], [mtu, port]);
    assert [mtu, port][1..] == [port] && [Debug][1..] == [];
    assert "-" + "mtu" == "-mtu" && "-" + "ssh-port" == "-ssh-port";
    assert Render([port]) == ["-ssh-port", Itoa(c.sshPort)];
    assert Render([mtu, port]) == ["-mtu", Itoa(c.mtu)] + Render([port]);
    assert Render([Debug]) == ["-debug"];
  }

  /** The parts of the command line, in the order they are appended. */
  lemma RenderTokens(c: Command, sockets: seq<string>, forwards: seq<string>)
    requires (forall f :: f in sockets ==> f in c.sockets) && (forall f :: f in forwards ==> f in c.forwardInfo)
    ensures Render(Tokens(c, sockets, forwards))
         == Render(Pairs("listen", c.endpoints)) + SettingsArgs(c)
            + Render(SocketTokens(c.sockets, sockets)) + Render(ForwardTokens(c.forwardInfo, forwards))
            + Render(Pairs("pid-file", [c.pidFile]))
  {
    var a, b := Pairs("listen", c.endpoints), Settings(c);
    var s, f, p := SocketTokens(c.sockets, sockets), ForwardTokens(c.forwardInfo, forwards), Pairs("pid-file", [c.pidFile]);
    RenderFive(a, b, s, f, p);
    RenderSettings(c);
  }

  lemma RenderFive(a: seq<Token>, b: seq<Token>, c: seq<Token>, d: seq<Token>, e: seq<Token>)
    ensures Render(a + b + c + d + e) == Render(a) + Render(b) + Render(c) + Render(d) + Render(e)
  {
    RenderConcat(a + b + c + d, e);
    RenderConcat(a + b + c, d);
    RenderConcat(a + b, c);
    RenderConcat(a, b);
  }

  // ----- The round trip

  /** A flag name that cannot be mistaken for anything else. */
  predicate Plain(name: string) {
    name != "" && name[0] != '-' && '=' !in name
  }

  predicate TakesValue(name: string) {
    name in StringFlags || name in ListFlags || name in IntFlags
  }

  lemma FlagsArePlain(name: string)
    requires TakesValue(name)
    ensures Plain(name) && name !in BoolFlags
  {
  }

  lemma {:induction false} NoEquals(s: string, i: nat)
    requires '=' !in s && i <= |s|
    ensures FindEquals(s, i) == |s|
    decreases |s| - i
  {
    if i < |s| {
      assert s[i] in s;
      NoEquals(s, i + 1);
    }
  }

  /** What the parser makes of a list of tokens. */
  function Apply(f: Flags, tokens: seq<Token>): (r: Option<Flags>)
    requires Complete(f)
    ensures r.Some? ==> Complete(r.value)
    decreases |tokens|
  {
    if tokens == [] then Some(f)
    else match tokens[0]
         case Debug => Apply(f.(bools := f.bools["debug" := true]), tokens[1..])
         case Pair(name, value) =>
           match Set(f, name, value)
           case None => None
           case Some(f') => Apply(f', tokens[1..])
  }

  predicate Proper(tokens: seq<Token>) {
    forall i :: 0 <= i < |tokens| && tokens[i].Pair? ==> TakesValue(tokens[i].name)
  }

  lemma ParsePair(name: string, value: string, rest: seq<string>, f: Flags)
    requires TakesValue(name) && Complete(f)
    ensures Parse(["-" + name, value] + rest, f)
         == match Set(f, name, value) case None => Failed case Some(f') => Parse(rest, f')
  {
    var args := ["-" + name, value] + rest;
    FlagsArePlain(name);
    NoEquals(name, 1);
    assert args[0][1..] == name && args[0][1] == name[0] && name[..|name|] == name;
    assert args[0] != "--";
    assert args[2..] == rest;
  }

  lemma ParseDebug(rest: seq<string>, f: Flags)
    requires Complete(f)
    ensures Parse(["-debug"] + rest, f) == Parse(rest, f.(bools := f.bools["debug" := true]))
  {
    var args := ["-debug"] + rest;
    assert args[0] == "-debug" && "-debug"[1..] == "debug" && "debug"[..5] == "debug";
    NoEquals("debug", 1);
    assert args[1..] == rest;
  }

  /** Printing tokens and parsing them back is applying them. */
  lemma {:induction false} ParseRender(tokens: seq<Token>, f: Flags)
    requires Proper(tokens) && Complete(f)
    ensures Parse(Render(tokens), f) == match Apply(f, tokens) case None => Failed case Some(f') => Parsed(f', [])
    decreases |tokens|
  {
    if tokens != [] {
      var rest := Render(tokens[1..]);
      match tokens[0]
      case Debug =>
        ParseDebug(rest, f);
        ParseRender(tokens[1..], f.(bools := f.bools["debug" := true]));
      case Pair(name, value) =>
        ParsePair(name, value, rest, f);
        var set_ := Set(f, name, value);
        if set_.Some? {
          ParseRender(tokens[1..], set_.value);
        }
    }
  }

  /** The values given to one flag, in order. */
  function Values(tokens: seq<Token>, name: string): seq<string> {
    if tokens == [] then []
    else (if tokens[0].Pair? && tokens[0].name == name then [tokens[0].value] else []) + Values(tokens[1..], name)
  }

  lemma {:induction false} ValuesConcat(a: seq<Token>, b: seq<Token>, name: string)
    ensures Values(a + b, name) == Values(a, name) + Values(b, name)
  {
    if a == [] {
      assert a + b == b;
    } else {
      assert (a + b)[1..] == a[1..] + b;
      ValuesConcat(a[1..], b, name);
    }
  }

  function Last(values: seq<string>, otherwise: string): string {
    if values == [] then otherwise else values[|values| - 1]
  }

  function LastInt(values: seq<string>, otherwise: int): int {
    if values == [] then otherwise
    else match ParseInt(values[|values| - 1]) case None => otherwise case Some(n) => n
  }

  /** How a flag's variable changes when it is given some values: lists collect them all,
      strings and numbers keep the last. */
  ghost predicate Effect(f: Flags, r: Flags, given: seq<string>, name: string)
    requires Complete(f) && Complete(r)
  {
    && (name in ListFlags ==> r.lists[name] == f.lists[name] + given)
    && (name in StringFlags ==> r.strings[name] == Last(given, f.strings[name]))
    && (name in IntFlags ==> AllInts(given) && r.ints[name] == LastInt(given, f.ints[name]))
  }

  predicate AllInts(values: seq<string>) {
    forall i :: 0 <= i < |values| ==> ParseInt(values[i]).Some?
  }

  lemma EffectCompose(f: Flags, m: Flags, r: Flags, a: seq<string>, b: seq<string>, name: string)
    requires Complete(f) && Complete(m) && Complete(r) && Effect(f, m, a, name) && Effect(m, r, b, name)
    ensures Effect(f, r, a + b, name)
  {
    if b == [] {
      assert a + b == a;
    } else {
      assert (a + b)[|a + b| - 1] == b[|b| - 1];
    }
  }

  /** One value of one flag, seen from another. */
  lemma SetOne(f: Flags, n: string, v: string, name: string)
    requires Complete(f) && Set(f, n, v).Some? && TakesValue(n)
    ensures Effect(f, Set(f, n, v).value, if n == name then [v] else [], name)
    ensures Set(f, n, v).value.bools == f.bools
  {
  }

  lemma {:induction false} ApplyCollects(f: Flags, tokens: seq<Token>, name: string)
    requires Complete(f) && Proper(tokens) && Apply(f, tokens).Some? && TakesValue(name)
    ensures Effect(f, Apply(f, tokens).value, Values(tokens, name), name)
    decreases |tokens|
  {
    if tokens != [] {
      var rest, later := tokens[1..], Values(tokens[1..], name);
      if tokens[0].Debug? {
        ApplyCollects(f.(bools := f.bools["debug" := true]), rest, name);
        assert [] + later == later;
      } else {
        var n, v := tokens[0].name, tokens[0].value;
        var m := Set(f, n, v).value;
        SetOne(f, n, v, name);
        ApplyCollects(m, rest, name);
        EffectCompose(f, m, Apply(m, rest).value, if n == name then [v] else [], later, name);
      }
    }
  }

  lemma {:induction false} ApplyDebug(f: Flags, tokens: seq<Token>)
    requires Complete(f) && Proper(tokens) && Apply(f, tokens).Some?
    ensures Apply(f, tokens).value.bools == if Debug in tokens then f.bools["debug" := true] else f.bools
    decreases |tokens|
  {
    if tokens != [] {
      assert tokens == [tokens[0]] + tokens[1..];
      if tokens[0].Debug? {
        ApplyDebug(f.(bools := f.bools["debug" := true]), tokens[1..]);
      } else {
        SetOne(f, tokens[0].name, tokens[0].value, tokens[0].name);
        ApplyDebug(Set(f, tokens[0].name, tokens[0].value).value, tokens[1..]);
      }
    }
  }

  /** Applying fails only on a number that does not parse. */
  lemma {:induction false} ApplySucceeds(f: Flags, tokens: seq<Token>)
    requires Complete(f) && Proper(tokens) && NumbersParse(tokens)
    ensures Apply(f, tokens).Some?
    decreases |tokens|
  {
    if tokens != [] {
      if tokens[0].Debug? {
        ApplySucceeds(f.(bools := f.bools["debug" := true]), tokens[1..]);
      } else {
        ApplySucceeds(Set(f, tokens[0].name, tokens[0].value).value, tokens[1..]);
      }
    }
  }

  predicate NumbersParse(tokens: seq<Token>) {
    forall i :: 0 <= i < |tokens| && tokens[i].Pair? && tokens[i].name in IntFlags ==> ParseInt(tokens[i].value).Some?
  }

  function NonEmpty(values: seq<string>): seq<string> {
    if values == [] then [] else (if values[0] != "" then [values[0]] else []) + NonEmpty(values[1..])
  }

  lemma {:induction false} PairsGive(flag: string, values: seq<string>, name: string)
    ensures Values(Pairs(flag, values), name) == if name == flag then NonEmpty(values) else []
    ensures forall t :: t in Pairs(flag, values) ==> t.Pair? && t.name == flag
  {
    if values != [] {
      var head := if values[0] != "" then [Pair(flag, values[0])] else [];
      ValuesConcat(head, Pairs(flag, values[1..]), name);
      PairsGive(flag, values[1..], name);
      assert head != [] ==> head[1..] == [];
    }
  }

  predicate AllDifferent(order: seq<string>) {
    forall i, j :: 0 <= i < j < |order| ==> order[i] != order[j]
  }

  lemma HeadNotInTail(order: seq<string>)
    requires order != [] && AllDifferent(order)
    ensures order[0] !in order[1..] && AllDifferent(order[1..])
    ensures forall name :: name in order <==> name == order[0] || name in order[1..]
  {
    assert order == [order[0]] + order[1..];
  }

  lemma {:induction false} SocketsGive(sockets: map<string, string>, order: seq<string>, name: string)
    requires (forall f :: f in order ==> f in sockets) && AllDifferent(order)
    ensures Values(SocketTokens(sockets, order), name) == if name in order then NonEmpty([sockets[name]]) else []
  {
    if order != [] {
      var first, rest := order[0], order[1..];
      HeadNotInTail(order);
      PairsGive(first, [sockets[first]], name);
      SocketsGive(sockets, rest, name);
      ValuesConcat(Pairs(first, [sockets[first]]), SocketTokens(sockets, rest), name);
    }
  }

  lemma {:induction false} SocketNames(sockets: map<string, string>, order: seq<string>, t: Token)
    requires (forall f :: f in order ==> f in sockets) && t in SocketTokens(sockets, order)
    ensures t.Pair? && t.name in order
  {
    PairsGive(order[0], [sockets[order[0]]], "");
    if t !in Pairs(order[0], [sockets[order[0]]]) {
      SocketNames(sockets, order[1..], t);
    }
  }

  lemma {:induction false} ForwardsGive(info: map<string, seq<string>>, order: seq<string>, name: string)
    requires (forall f :: f in order ==> f in info) && AllDifferent(order)
    ensures Values(ForwardTokens(info, order), name) == if name in order then NonEmpty(info[name]) else []
  {
    if order != [] {
      var first, rest := order[0], order[1..];
      HeadNotInTail(order);
      PairsGive(first, info[first], name);
      ForwardsGive(info, rest, name);
      ValuesConcat(Pairs(first, info[first]), ForwardTokens(info, rest), name);
    }
  }

  lemma {:induction false} ForwardNames(info: map<string, seq<string>>, order: seq<string>, t: Token)
    requires (forall f :: f in order ==> f in info) && t in ForwardTokens(info, order)
    ensures t.Pair? && t.name in order
  {
    PairsGive(order[0], info[order[0]], "");
    if t !in Pairs(order[0], info[order[0]]) {
      ForwardNames(info, order[1..], t);
    }
  }

  lemma SettingsGive(c: Command, name: string)
    ensures Values(Settings(c), name)
         == if name == "mtu" then [Itoa(c.mtu)] else if name == "ssh-port" then [Itoa(c.sshPort)] else []
  {
    var mtu, port := Pair("mtu", Itoa(c.mtu)), Pair("ssh-port", Itoa(c.sshPort));
    ValuesConcat(if c.debug then [Debug] else [], [mtu, port], name);
    assert [Debug][1..] == [] && [mtu, port][1..] == [port] && [port][1..] == [];
    assert "mtu" != "ssh-port";
  }

  /** The values each flag is given on the command line. */
  function Given(c: Command, name: string): seq<string> {
    if name == "listen" then NonEmpty(c.endpoints)
    else if name == "mtu" then [Itoa(c.mtu)]
    else if name == "ssh-port" then [Itoa(c.sshPort)]
    else if name == "pid-file" then NonEmpty([c.pidFile])
    else if name in c.sockets then NonEmpty([c.sockets[name]])
    else if name in c.forwardInfo then NonEmpty(c.forwardInfo[name])
    else []
  }

  predicate OwnFlag(name: string) {
    name == "listen" || name == "mtu" || name == "ssh-port" || name == "pid-file"
  }

  lemma SocketFlag(name: string)
    requires name in SocketFlags
    ensures !OwnFlag(name) && name !in ForwardFlags && name in StringFlags && name !in IntFlags
  {
  }

  lemma ForwardFlag(name: string)
    requires name in ForwardFlags
    ensures !OwnFlag(name) && name !in SocketFlags && name in ListFlags && name !in IntFlags
  {
  }

  lemma OwnFlags()
    ensures "listen" in ListFlags && "listen" !in IntFlags && "pid-file" in StringFlags && "pid-file" !in IntFlags
    ensures "mtu" in IntFlags && "ssh-port" in IntFlags
  {
  }

  lemma ValuesFive(a: seq<Token>, b: seq<Token>, c: seq<Token>, d: seq<Token>, e: seq<Token>, name: string)
    ensures Values(a + b + c + d + e, name) == Values(a, name) + Values(b, name) + Values(c, name) + Values(d, name) + Values(e, name)
  {
    ValuesConcat(a + b + c + d, e, name);
    ValuesConcat(a + b + c, d, name);
    ValuesConcat(a + b, c, name);
    ValuesConcat(a, b, name);
  }

  /** At most one part of the command line gives values to a flag. */
  lemma OnePart(c: Command, name: string, a: seq<string>, b: seq<string>, s: seq<string>, f: seq<string>, p: seq<string>)
    requires Usable(c)
    requires a == if name == "listen" then NonEmpty(c.endpoints) else []
    requires b == if name == "mtu" then [Itoa(c.mtu)] else if name == "ssh-port" then [Itoa(c.sshPort)] else []
    requires s == if name in c.sockets then NonEmpty([c.sockets[name]]) else []
    requires f == if name in c.forwardInfo then NonEmpty(c.forwardInfo[name]) else []
    requires p == if name == "pid-file" then NonEmpty([c.pidFile]) else []
    ensures a + b + s + f + p == Given(c, name)
  {
    if name in c.sockets {
      SocketFlag(name);
    } else if name in c.forwardInfo {
      ForwardFlag(name);
    }
  }

  lemma TokensGive(c: Command, sockets: seq<string>, forwards: seq<string>, name: string)
    requires Usable(c) && Enumerates(sockets, c.sockets.Keys) && Enumerates(forwards, c.forwardInfo.Keys)
    ensures Values(Tokens(c, sockets, forwards), name) == Given(c, name)
  {
    var a, b := Pairs("listen", c.endpoints), Settings(c);
    var s, f, p := SocketTokens(c.sockets, sockets), ForwardTokens(c.forwardInfo, forwards), Pairs("pid-file", [c.pidFile]);
    ValuesFive(a, b, s, f, p, name);
    PairsGive("listen", c.endpoints, name);
    SettingsGive(c, name);
    SocketsGive(c.sockets, sockets, name);
    ForwardsGive(c.forwardInfo, forwards, name);
    PairsGive("pid-file", [c.pidFile], name);
    OnePart(c, name, Values(a, name), Values(b, name), Values(s, name), Values(f, name), Values(p, name));
  }

  predicate Good(tokens: seq<Token>, debug: bool) {
    Proper(tokens) && NumbersParse(tokens) && (Debug in tokens <==> debug)
  }

  lemma GoodConcat(a: seq<Token>, b: seq<Token>, x: bool, y: bool)
    requires Good(a, x) && Good(b, y)
    ensures Good(a + b, x || y)
  {
  }

  /** Tokens of flags that take text are always accepted. */
  lemma GoodText(tokens: seq<Token>)
    requires forall t :: t in tokens ==> t.Pair? && TakesValue(t.name) && t.name !in IntFlags
    ensures Good(tokens, false)
  {
  }

  lemma GoodSettings(c: Command)
    requires Usable(c)
    ensures Good(Settings(c), c.debug)
  {
    IntRoundTrip(c.mtu);
    IntRoundTrip(c.sshPort);
    OwnFlags();
  }

  lemma TokensGood(c: Command, sockets: seq<string>, forwards: seq<string>)
    requires Usable(c) && Enumerates(sockets, c.sockets.Keys) && Enumerates(forwards, c.forwardInfo.Keys)
    ensures Good(Tokens(c, sockets, forwards), c.debug)
  {
    var a, b := Pairs("listen", c.endpoints), Settings(c);
    var s, f, p := SocketTokens(c.sockets, sockets), ForwardTokens(c.forwardInfo, forwards), Pairs("pid-file", [c.pidFile]);
    OwnFlags();
    PairsGive("listen", c.endpoints, "");
    GoodText(a);
    GoodSettings(c);
    SocketsGood(c, sockets);
    ForwardsGood(c, forwards);
    PairsGive("pid-file", [c.pidFile], "");
    GoodText(p);
    GoodConcat(a, b, false, c.debug);
    GoodConcat(a + b, s, c.debug, false);
    GoodConcat(a + b + s, f, c.debug, false);
    GoodConcat(a + b + s + f, p, c.debug, false);
  }

  lemma SocketsGood(c: Command, order: seq<string>)
    requires Usable(c) && Enumerates(order, c.sockets.Keys)
    ensures Good(SocketTokens(c.sockets, order), false)
  {
    forall t | t in SocketTokens(c.sockets, order)
      ensures t.Pair? && TakesValue(t.name) && t.name !in IntFlags
    {
      SocketNames(c.sockets, order, t);
      SocketFlag(t.name);
    }
    GoodText(SocketTokens(c.sockets, order));
  }

  lemma ForwardsGood(c: Command, order: seq<string>)
    requires Usable(c) && Enumerates(order, c.forwardInfo.Keys)
    ensures Good(ForwardTokens(c.forwardInfo, order), false)
  {
    forall t | t in ForwardTokens(c.forwardInfo, order)
      ensures t.Pair? && TakesValue(t.name) && t.name !in IntFlags
    {
      ForwardNames(c.forwardInfo, order, t);
      ForwardFlag(t.name);
    }
    GoodText(ForwardTokens(c.forwardInfo, order));
  }

  lemma LastNonEmpty(value: string)
    ensures Last(NonEmpty([value]), "") == value
  {
    assert [value][1..] == [];
  }

  /** The parsed flags are the command: the settings, every socket, and the non-empty
      endpoints and forward values of each flag in the order they were added. */
  ghost predicate Recovered(c: Command, got: Flags)
    requires Complete(got)
  {
    && got.bools == map["debug" := c.debug, "version" := false]
    && got.ints["mtu"] == c.mtu && got.ints["ssh-port"] == c.sshPort
    && got.strings["pid-file"] == c.pidFile
    && got.lists["listen"] == NonEmpty(c.endpoints)
    && (forall f :: f in SocketFlags ==> got.strings[f] == if f in c.sockets then c.sockets[f] else "")
    && (forall f :: f in ForwardFlags ==> got.lists[f] == if f in c.forwardInfo then NonEmpty(c.forwardInfo[f]) else [])
  }

  /** For every order the two maps are walked in, gvproxy parses the printed command line to
      the end and recovers the command. */
  lemma CommandRoundTrip(c: Command, sockets: seq<string>, forwards: seq<string>) returns (got: Flags)
    requires Usable(c) && Enumerates(sockets, c.sockets.Keys) && Enumerates(forwards, c.forwardInfo.Keys)
    ensures Parse(Render(Tokens(c, sockets, forwards)), Defaults) == Parsed(got, [])
    ensures Complete(got) && Recovered(c, got)
  {
    var tokens := Tokens(c, sockets, forwards);
    TokensGood(c, sockets, forwards);
    got := ParsedFlags(tokens);
    GivenEffects(c, sockets, forwards, got);
    DebugBack(c.debug);
    ReadBack(c, got);
  }

  /** Parsing the arguments ends with none left over and with the flags of the command. */
  ghost predicate ReadsBack(c: Command, args: seq<string>) {
    var outcome := Parse(args, Defaults);
    outcome.Parsed? && outcome.rest == [] && Complete(outcome.flags) && Recovered(c, outcome.flags)
  }

  lemma PrintedReadsBack(c: Command, sockets: seq<string>, forwards: seq<string>)
    requires Enumerates(sockets, c.sockets.Keys) && Enumerates(forwards, c.forwardInfo.Keys)
    ensures Prints(c, Render(Tokens(c, sockets, forwards)))
    ensures Usable(c) ==> ReadsBack(c, Render(Tokens(c, sockets, forwards)))
  {
    if Usable(c) {
      var got := CommandRoundTrip(c, sockets, forwards);
    }
  }

  lemma GivenEffects(c: Command, sockets: seq<string>, forwards: seq<string>, got: Flags)
    requires Usable(c) && Enumerates(sockets, c.sockets.Keys) && Enumerates(forwards, c.forwardInfo.Keys) && Complete(got)
    requires forall name :: TakesValue(name) ==> Effect(Defaults, got, Values(Tokens(c, sockets, forwards), name), name)
    ensures forall name :: TakesValue(name) ==> Effect(Defaults, got, Given(c, name), name)
  {
    forall name | TakesValue(name)
      ensures Effect(Defaults, got, Given(c, name), name)
    {
      TokensGive(c, sockets, forwards, name);
    }
  }

  lemma DebugBack(debug: bool)
    ensures (if debug then Defaults.bools["debug" := true] else Defaults.bools) == map["debug" := debug, "version" := false]
  {
  }

  lemma ParsedFlags(tokens: seq<Token>) returns (got: Flags)
    requires Proper(tokens) && NumbersParse(tokens)
    ensures Complete(got) && Parse(Render(tokens), Defaults) == Parsed(got, [])
    ensures got.bools == if Debug in tokens then Defaults.bools["debug" := true] else Defaults.bools
    ensures forall name :: TakesValue(name) ==> Effect(Defaults, got, Values(tokens, name), name)
  {
    ParseRender(tokens, Defaults);
    ApplySucceeds(Defaults, tokens);
    got := Apply(Defaults, tokens).value;
    ApplyDebug(Defaults, tokens);
    forall name | TakesValue(name)
      ensures Effect(Defaults, got, Values(tokens, name), name)
    {
      ApplyCollects(Defaults, tokens, name);
    }
  }

  lemma ReadBack(c: Command, got: Flags)
    requires Usable(c) && Complete(got) && got.bools == map["debug" := c.debug, "version" := false]
    requires forall name :: TakesValue(name) ==> Effect(Defaults, got, Given(c, name), name)
    ensures Recovered(c, got)
  {
    OwnFlags();
    assert TakesValue("mtu") && TakesValue("ssh-port") && TakesValue("pid-file") && TakesValue("listen");
    IntRoundTrip(c.mtu);
    IntRoundTrip(c.sshPort);
    LastNonEmpty(c.pidFile);
    forall f | f in SocketFlags
      ensures got.strings[f] == if f in c.sockets then c.sockets[f] else ""
    {
      SocketFlag(f);
      SocketBack(c, got, f);
    }
    forall f | f in ForwardFlags
      ensures got.lists[f] == if f in c.forwardInfo then NonEmpty(c.forwardInfo[f]) else []
    {
      ForwardFlag(f);
      ForwardBack(c, got, f);
    }
  }

  lemma SocketBack(c: Command, got: Flags, f: string)
    requires Usable(c) && Complete(got) && f in SocketFlags && f in StringFlags && Effect(Defaults, got, Given(c, f), f)
    ensures got.strings[f] == if f in c.sockets then c.sockets[f] else ""
  {
    SocketFlag(f);
    if f in c.sockets {
      LastNonEmpty(c.sockets[f]);
    }
  }

  lemma ForwardBack(c: Command, got: Flags, f: string)
    requires Usable(c) && Complete(got) && f in ForwardFlags && f in ListFlags && Effect(Defaults, got, Given(c, f), f)
    ensures got.lists[f] == if f in c.forwardInfo then NonEmpty(c.forwardInfo[f]) else []
  {
    ForwardFlag(f);
  }
}
