/** The polling loop of the program of 18 March 2014 (main2014.03.18.c). It
    connects to Redis until PING answers "pong"; then on every five-minute
    boundary it runs ip.sh for the window's top talkers, and for each of the
    first atoi(ip) of them searches the F5 log. Each of the first atoi(url)
    lines found is decorated with the members of the Redis set named by the
    line's url, and the record is pushed to the window's list when PING still
    answers "pong"; otherwise the program reconnects and the record is lost.
    The clock, the shell and the store's replies are inputs. */
module Ingest0318 {
  import opened CText
  import opened WindowClock
  import opened Effects

  /** The configuration strings read at start-up. */
  datatype Config = Config(
    requestLogLocation: string, f5LogLocation: string, ip: string, url: string,
    redisServer: string, redisPort: string, redisDatabase: string, urlDatabase: string)

  /** The address compiled into the program, used when the configuration gives none. */
  const DEFAULT_HOST: string := "127.0.0.1"
  const DEFAULT_PORT: int := 6379

  function Host(cfg: Config): string
  {
    if cfg.redisServer != "" then cfg.redisServer else DEFAULT_HOST
  }

  function Port(cfg: Config): int
  {
    if cfg.redisPort != "" then Atoi(cfg.redisPort) else DEFAULT_PORT
  }

  /** A reply of hiredis's redisCommand; NoReply is the NULL it returns when
      the connection fails. */
  datatype Reply =
    | NoReply
    | Status(str: string)
    | ErrorReply(str: string)
    | Bulk(str: string)
    | Integer(value: int)
    | Nil
    | Array(elements: seq<string>)

  /** One redisConnectWithTimeout: no context at all, a context carrying an
      error, or a connection together with the reply to the PING sent on it. */
  datatype Attempt = NoContext | ContextError(errstr: string) | Connected(ping: Reply)

  /** strcasecmp(a, b) == 0 in the C locale. */
  predicate SameIgnoringCase(a: string, b: string)
  {
    |a| == |b| && forall i :: 0 <= i < |a| ==> ToLower(a[i]) == ToLower(b[i])
  }

  /** A status reply reading "pong" in any case. */
  predicate IsPong(r: Reply)
  {
    r.Status? && SameIgnoringCase(CStr(r.str), "pong")
  }

  /** What ConnectToRedis returns for an attempt: 0 when the context has no
      error and PING answers pong, -1 otherwise, and nothing when PING's reply
      is NULL, which the function dereferences. */
  function ConnectResult(a: Attempt): (r: Option<int>)
    ensures r == Some(0) <==> a.Connected? && IsPong(a.ping)
    ensures r == Some(-1) <==> a.NoContext? || a.ContextError? || (a.Connected? && a.ping != NoReply && !IsPong(a.ping))
    ensures r == None <==> a == Connected(NoReply)
  {
    match a
    case NoContext => Some(-1)
    case ContextError(_) => Some(-1)
    case Connected(ping) =>
      if ping == NoReply then None else if IsPong(ping) then Some(0) else Some(-1)
  }

  /** The store's side of the run: the replies to the PINGs of the main loop in
      order, the reply to `smembers` for each key, and the connection attempts
      in order. */
  datatype Store = Store(pings: nat -> Reply, members: string -> Reply, attempts: seq<Attempt>)

  datatype Setup = Setup(config: Config, localtime: int -> Tm, store: Store)

  /** The outside world during one pass: the two time() readings and what each
      command started with popen prints (None when popen fails). */
  datatype Tick = Tick(nameNow: int, f5Now: int, shell: string -> Option<string>)

  datatype Window = Window(name: string, dir: string, file: string)

  /** Running; stopped by undefined behaviour (a NULL token or reply); or still
      reconnecting when the script of attempts ends, where the program loops forever. */
  datatype Status = Running | Undefined | Stalled

  /** The loop's state: the events so far, the current connection, how many
      PINGs and connection attempts the script has answered, and the status. */
  datatype Machine = Machine(events: seq<Event>, conn: Attempt, pingsSent: nat, attemptsUsed: nat, status: Status)

  const START: Machine := Machine([], NoContext, 0, 0, Running)

  /** The sizes of SmallBuf and streamSearchF5buf, the fgets buffers. */
  const TOP_LINE_SIZE: nat := 50
  const DETAIL_LINE_SIZE: nat := 1024

  /** The loop bounds atoi(ip) and atoi(url): no pass when not positive. */
  function TopCount(cfg: Config): nat
  {
    var n := Atoi(cfg.ip);
    if n < 0 then 0 else n
  }

  function UrlCount(cfg: Config): nat
  {
    var n := Atoi(cfg.url);
    if n < 0 then 0 else n
  }

  function Emit(m: Machine, es: seq<Event>): Machine
  {
    m.(events := m.events + es)
  }

  // ---------------------------------------------------------------------------
  // The decoration: the set's members, each followed by ';'

  /** What `sprintf(p, "%s;", member); p += strlen(member) + 1` leaves in temp
      after the members so far: each member's C string and a ';', in reply order. */
  function Joined(members: seq<string>): string
  {
    if members == [] then ""
    else Joined(members[..|members| - 1]) + CStr(members[|members| - 1]) + ";"
  }

  /** The decoration of a smembers reply: empty unless it is an array. */
  function Decoration(r: Reply): string
  {
    if r.Array? then Joined(r.elements) else ""
  }

  /** The loop that fills temp[1024], over the reply's members. */
  method JoinMembers(r: Reply) returns (temp: string)
    ensures temp == Decoration(r)
  {
    temp := "";
    if r.Array? {
      var j := 0;
      while j < |r.elements|
        invariant 0 <= j <= |r.elements|
        invariant temp == Joined(r.elements[..j])
      {
        assert r.elements[..j + 1][..j] == r.elements[..j];
        temp := temp + CStr(r.elements[j]) + ";";
        j := j + 1;
      }
      assert r.elements[..|r.elements|] == r.elements;
    }
  }

  lemma {:induction false} JoinedCons(m: string, ms: seq<string>)
    ensures Joined([m] + ms) == CStr(m) + ";" + Joined(ms)
    decreases |ms|
  {
    if ms != [] {
      var all := [m] + ms;
      assert all[..|all| - 1] == [m] + ms[..|ms| - 1];
      JoinedCons(m, ms[..|ms| - 1]);
    }
  }

  /** Splits text in which every field is followed by a ';'. */
  function SplitSemicolons(s: string): seq<string>
    decreases |s|
  {
    if s == [] then []
    else
      var f := CutAt(s, {';'});
      if |f| == |s| then [s] else [f] + SplitSemicolons(s[|f| + 1..])
  }

  /** A field without ';' followed by a ';' splits off first. */
  lemma SplitCons(f: string, rest: string)
    requires ';' !in f
    ensures SplitSemicolons(f + ";" + rest) == [f] + SplitSemicolons(rest)
  {
    var s := f + ";" + rest;
    CutAtUnique(s, {';'}, f);
    assert s[|f| + 1..] == rest;
  }

  /** The members can be read back from the decoration when none of them
      holds a ';' or a NUL. */
  lemma {:induction false} SplitJoined(ms: seq<string>)
    requires forall i :: 0 <= i < |ms| ==> ';' !in ms[i] && NUL !in ms[i]
    ensures SplitSemicolons(Joined(ms)) == ms
    decreases |ms|
  {
    if ms != [] {
      JoinedCons(ms[0], ms[1..]);
      assert [ms[0]] + ms[1..] == ms;
      CStrUnique(ms[0], ms[0]);
      SplitCons(ms[0], Joined(ms[1..]));
      SplitJoined(ms[1..]);
    }
  }

  /** The record pushed for a line: the top-talker count, the F5 line and the decoration. */
  function Payload(count: string, line: string, decoration: string): string
  {
    count + " " + line + " " + decoration
  }

  /** The record's first field is the count, followed by the tokens of the
      line and of the decoration; without a decoration it ends in a space. */
  lemma PayloadFields(count: string, line: string, decoration: string)
    requires count != [] && ' ' !in count
    ensures CutAt(Payload(count, line, decoration), {' '}) == count
    ensures Tokens(Payload(count, line, decoration)) == [count] + Tokens(line) + Tokens(decoration)
    ensures decoration == "" ==> Payload(count, line, decoration)[|Payload(count, line, decoration)| - 1] == ' '
  {
    var p := Payload(count, line, decoration);
    assert p == count + " " + (line + " " + decoration);
    CutAtUnique(p, {' '}, count);
    TokensCons(count, line + " " + decoration);
    TokensAppend(line, decoration);
  }

  // ---------------------------------------------------------------------------
  // Connecting and publishing

  /** One call of ConnectToRedis on attempt `a`: the connection is replaced by
      the new context, and a PING is sent on it when it came up. */
  function ConnectStep(s: Setup, a: Attempt, m: Machine): (r: (Option<int>, Machine))
    ensures r.0 == ConnectResult(a)
    ensures r.1.conn == a && r.1.pingsSent == m.pingsSent && r.1.attemptsUsed == m.attemptsUsed
    ensures r.1.events == m.events + [Connect(Host(s.config), Port(s.config))] + (if a.Connected? then [Ping] else [])
  {
    var es := [Connect(Host(s.config), Port(s.config))] + (if a.Connected? then [Ping] else []);
    (ConnectResult(a), Emit(m, es).(conn := a))
  }

  /** The `for(;;)` around ConnectToRedis, sleeping five seconds after each
      failure, until an attempt succeeds. */
  function AfterReconnect(s: Setup, m: Machine): (r: Machine)
    ensures r.pingsSent == m.pingsSent && m.attemptsUsed <= r.attemptsUsed
    ensures Quiet(m.events, r.events)
    decreases |s.store.attempts| - m.attemptsUsed
  {
    if m.attemptsUsed >= |s.store.attempts| then
      assert m.events[|m.events|..] == [];
      m.(status := Stalled)
    else
      var a := s.store.attempts[m.attemptsUsed];
      var (res, m1) := ConnectStep(s, a, m.(attemptsUsed := m.attemptsUsed + 1));
      ReconnectEvents(m.events, m1.events, a, s.config);
      if res.None? then m1.(status := Undefined)
      else if res.value == 0 then m1
      else
        var m2 := Emit(m1, [Sleep(5)]);
        var r := AfterReconnect(s, m2);
        QuietTrans(m.events, m2.events, r.events);
        r
  }

  /** The reconnect loop stops at the first attempt that succeeds: when it
      leaves the program running, its last attempt succeeded and every one
      before it, from the first, failed; when it stalls, every remaining
      attempt failed. */
  lemma {:induction false} ReconnectStopsAtFirstSuccess(s: Setup, m: Machine)
    requires m.status == Running && m.attemptsUsed <= |s.store.attempts|
    ensures var r := AfterReconnect(s, m);
      m.attemptsUsed <= r.attemptsUsed <= |s.store.attempts|
      && (forall j :: m.attemptsUsed <= j < r.attemptsUsed - 1 ==> ConnectResult(s.store.attempts[j]) == Some(-1))
      && (r.status == Running ==>
            m.attemptsUsed < r.attemptsUsed && ConnectResult(s.store.attempts[r.attemptsUsed - 1]) == Some(0))
      && (r.status == Stalled ==>
            r.attemptsUsed == |s.store.attempts|
            && forall j :: m.attemptsUsed <= j < |s.store.attempts| ==> ConnectResult(s.store.attempts[j]) == Some(-1))
    decreases |s.store.attempts| - m.attemptsUsed
  {
    if m.attemptsUsed < |s.store.attempts| {
      var a := s.store.attempts[m.attemptsUsed];
      var m1 := ConnectStep(s, a, m.(attemptsUsed := m.attemptsUsed + 1)).1;
      if ConnectResult(a) == Some(-1) {
        var m2 := Emit(m1, [Sleep(5)]);
        ReconnectStopsAtFirstSuccess(s, m2);
      }
    }
  }

  /** A connection attempt, and the sleep after it, write nothing to the store. */
  lemma ReconnectEvents(e0: seq<Event>, e1: seq<Event>, a: Attempt, cfg: Config)
    requires e1 == e0 + [Connect(Host(cfg), Port(cfg))] + (if a.Connected? then [Ping] else [])
    ensures Quiet(e0, e1) && Quiet(e0, e1 + [Sleep(5)])
  {
    assert e1[|e0|..] == [Connect(Host(cfg), Port(cfg))] + (if a.Connected? then [Ping] else []);
    assert (e1 + [Sleep(5)])[|e0|..] == e1[|e0|..] + [Sleep(5)];
  }

  /** Start-up: connect until the store answers. */
  function AfterStartup(s: Setup): Machine
  {
    AfterReconnect(s, START)
  }

  /** PING, then rpush the record when the reply is a pong; otherwise
      reconnect, and the record is not pushed. */
  function AfterPublish(s: Setup, key: string, record: string, m: Machine): (r: Machine)
    ensures m.events <= r.events
    ensures var added := r.events[|m.events|..];
      KeyedPushes(added, key) && Zadds(added) == 0 && Pushes(added) <= 1
  {
    var reply := s.store.pings(m.pingsSent);
    var m1 := Emit(m, [Ping]).(pingsSent := m.pingsSent + 1);
    PingQuiet(m.events, m1.events);
    if reply == NoReply then
      QuietKeyed(m.events, m1.events, key);
      m1.(status := Undefined)
    else if IsPong(reply) then
      PongPushes(m.events, key, record);
      Emit(m1, [Rpush(key, record)])
    else
      var r := AfterReconnect(s, m1);
      QuietTrans(m.events, m1.events, r.events);
      QuietKeyed(m.events, r.events, key);
      r
  }

  lemma PingQuiet(e0: seq<Event>, e1: seq<Event>)
    requires e1 == e0 + [Ping]
    ensures Quiet(e0, e1)
  {
    assert e1[|e0|..] == [Ping];
  }

  /** A quiet stretch of the log pushes nothing. */
  lemma QuietKeyed(e0: seq<Event>, e1: seq<Event>, key: string)
    requires Quiet(e0, e1)
    ensures KeyedPushes(e1[|e0|..], key) && Zadds(e1[|e0|..]) == 0 && Pushes(e1[|e0|..]) == 0
  {
    NoWritesCountsNone(e1[|e0|..]);
  }

  /** A PING answered by pong, and the push after it. */
  lemma PongPushes(e0: seq<Event>, key: string, record: string)
    ensures var added := (e0 + [Ping] + [Rpush(key, record)])[|e0|..];
      added == [Ping, Rpush(key, record)]
      && KeyedPushes(added, key) && Zadds(added) == 0 && Pushes(added) == 1
  {
    var added := (e0 + [Ping] + [Rpush(key, record)])[|e0|..];
    assert added == [Ping, Rpush(key, record)];
    assert added[1..][1..] == [];
  }

  /** The log holds no zadd, and every push in it goes to `key`. */
  predicate KeyedPushes(es: seq<Event>, key: string)
  {
    forall i :: 0 <= i < |es| ==> !es[i].Zadd? && (IsPush(es[i]) ==> es[i].key == key)
  }

  // ---------------------------------------------------------------------------
  // One pass of the loop

  /** From `m` to `m2` the log only grows, by pushes to the list of window
      `name` and no zadds, at most `pushes` of them. */
  predicate Appends(m: Machine, m2: Machine, name: string, pushes: nat)
  {
    m.events <= m2.events
    && var added := m2.events[|m.events|..];
       KeyedBy(added, name) && Zadds(added) == 0 && Pushes(added) <= pushes
  }

  lemma AppendsTrans(m: Machine, m1: Machine, m2: Machine, name: string, p1: nat, p2: nat, p: nat)
    requires Appends(m, m1, name, p1) && Appends(m1, m2, name, p2) && p1 + p2 <= p
    ensures Appends(m, m2, name, p)
  {
    var a := m1.events[|m.events|..];
    var b := m2.events[|m1.events|..];
    assert m2.events[|m.events|..] == a + b;
    KeyedByAppend(a, b, name);
    ZaddsAppend(a, b);
    PushesAppend(a, b);
  }

  lemma AppendsNoWrites(m: Machine, es: seq<Event>, name: string)
    requires NoWrites(es)
    ensures Appends(m, Emit(m, es), name, 0)
  {
    assert Emit(m, es).events[|m.events|..] == es;
    NoWritesCountsNone(es);
  }

  /** The three lookup commands and what publishing adds. */
  lemma AppendsDetail(m: Machine, m1: Machine, m2: Machine, name: string, cfg: Config, url: string)
    requires m1 == Emit(m, [SelectDb(cfg.urlDatabase), Smembers(url), SelectDb(cfg.redisDatabase)])
    requires m1.events <= m2.events
    requires var added := m2.events[|m1.events|..];
      KeyedPushes(added, ListKey(name)) && Zadds(added) == 0 && Pushes(added) <= 1
    ensures Appends(m, m2, name, 1)
  {
    AppendsNoWrites(m, [SelectDb(cfg.urlDatabase), Smembers(url), SelectDb(cfg.redisDatabase)], name);
    assert Appends(m1, m2, name, 1);
    AppendsTrans(m, m1, m2, name, 0, 1, 1);
  }

  /** One turn of the url loop: read a line of SearchIpInF5.sh's output, look
      up the set named by its fourth token in the url database, and publish
      the record. */
  function AfterDetail(s: Setup, w: Window, count: string, stream: string, m: Machine): (r: (string, Machine))
    ensures Appends(m, r.1, w.name, 1)
  {
    AppendsNoWrites(m, [], w.name);
    assert Emit(m, []) == m;
    if m.status != Running then (stream, m)
    else match ReadLine(stream, DETAIL_LINE_SIZE)
    case None => (stream, m)
    case Some((line, rest)) =>
      var ts := Tokens(line);
      if |ts| < 4 then
        AppendsNoWrites(m, [SelectDb(s.config.urlDatabase)], w.name);
        (rest, Emit(m, [SelectDb(s.config.urlDatabase)]).(status := Undefined))
      else
        var url := ts[3];
        var m1 := Emit(m, [SelectDb(s.config.urlDatabase), Smembers(url), SelectDb(s.config.redisDatabase)]);
        var reply := s.store.members(url);
        if reply == NoReply then
          AppendsDetail(m, m1, m1, w.name, s.config, url);
          (rest, m1.(status := Undefined))
        else
          var m2 := AfterPublish(s, ListKey(w.name), Payload(count, line, Decoration(reply)), m1);
          AppendsDetail(m, m1, m2, w.name, s.config, url);
          (rest, m2)
  }

  /** `n` turns of the url loop `for (ii = 0; ii < atoi(url); ii++)`. */
  function AfterDetails(s: Setup, w: Window, count: string, n: nat, stream: string, m: Machine): (r: (string, Machine))
    ensures Appends(m, r.1, w.name, n)
    decreases n
  {
    AppendsNoWrites(m, [], w.name);
    assert Emit(m, []) == m;
    if n == 0 then (stream, m)
    else
      var (rest, m1) := AfterDetail(s, w, count, stream, m);
      var r := AfterDetails(s, w, count, n - 1, rest, m1);
      AppendsTrans(m, m1, r.1, w.name, 1, n - 1, n);
      r
  }

  /** One turn of the top-talker loop: read "count ip", search the F5 log for
      the address, and work through the lines found. */
  function AfterTalker(s: Setup, t: Tick, w: Window, stream: string, m: Machine): (r: (string, Machine))
    ensures Appends(m, r.1, w.name, UrlCount(s.config))
  {
    AppendsNoWrites(m, [], w.name);
    assert Emit(m, []) == m;
    if m.status != Running then (stream, m)
    else match ReadLine(stream, TOP_LINE_SIZE)
    case None => (stream, m)
    case Some((line, rest)) =>
      var ts := Tokens(line);
      if |ts| < 2 then (rest, m.(status := Undefined))
      else
        var cmd := SearchScript(s.config.f5LogLocation, w.dir, w.file, ts[1]);
        var m1 := Emit(m, [Spawn(cmd)]);
        AppendsNoWrites(m, [Spawn(cmd)], w.name);
        match t.shell(cmd)
        case None => (rest, m1)
        case Some(out) =>
          var m2 := AfterDetails(s, w, ts[0], UrlCount(s.config), out, m1).1;
          AppendsTrans(m, m1, m2, w.name, 0, UrlCount(s.config), UrlCount(s.config));
          (rest, m2)
  }

  lemma MulStep(n: nat, u: nat)
    requires n > 0
    ensures u + (n - 1) * u == n * u
  {
  }

  /** `n` turns of the top-talker loop. */
  function AfterTopTalkers(s: Setup, t: Tick, w: Window, n: nat, stream: string, m: Machine): (r: (string, Machine))
    ensures Appends(m, r.1, w.name, n * UrlCount(s.config))
    decreases n
  {
    AppendsNoWrites(m, [], w.name);
    assert Emit(m, []) == m;
    if n == 0 then (stream, m)
    else
      var (rest, m1) := AfterTalker(s, t, w, stream, m);
      var r := AfterTopTalkers(s, t, w, n - 1, rest, m1);
      MulStep(n, UrlCount(s.config));
      AppendsTrans(m, m1, r.1, w.name, UrlCount(s.config), (n - 1) * UrlCount(s.config), n * UrlCount(s.config));
      r
  }

  /** The work on a window once both names are built: sleep four seconds, run
      ip.sh, work through its top talkers, and sleep 250 seconds when the
      program is still running. */
  function AfterWindow(s: Setup, t: Tick, w: Window, m: Machine): (r: Machine)
    ensures Appends(m, r, w.name, TopCount(s.config) * UrlCount(s.config))
    ensures |r.events| >= |m.events| + 2
    ensures r.events[|m.events|] == Sleep(4) && r.events[|m.events| + 1] == Spawn(IpScript(s.config.requestLogLocation, w.name))
    ensures r.status == Running && t.shell(IpScript(s.config.requestLogLocation, w.name)).Some? ==>
              r.events[|r.events| - 1] == Sleep(250)
  {
    var n := TopCount(s.config) * UrlCount(s.config);
    var cmd := IpScript(s.config.requestLogLocation, w.name);
    var m1 := Emit(m, [Sleep(4), Spawn(cmd)]);
    AppendsNoWrites(m, [Sleep(4), Spawn(cmd)], w.name);
    match t.shell(cmd)
    case None => m1
    case Some(out) =>
      var m2 := AfterTopTalkers(s, t, w, TopCount(s.config), out, m1).1;
      AppendsTrans(m, m1, m2, w.name, 0, n, n);
      assert m1.events <= m2.events;
      if m2.status != Running then m2
      else
        AppendsNoWrites(m2, [Sleep(250)], w.name);
        AppendsTrans(m, m2, Emit(m2, [Sleep(250)]), w.name, n, 0, n);
        Emit(m2, [Sleep(250)])
  }

  /** One pass of the outer loop: off a boundary it sleeps five seconds;
      every boundary pass processes the window, with no check whether it was
      processed before. */
  function AfterCycle(s: Setup, t: Tick, m: Machine): (r: Machine)
    ensures Appends(m, r, RequestLogName(s.localtime(t.nameNow)), TopCount(s.config) * UrlCount(s.config))
  {
    var key := RequestLogName(s.localtime(t.nameNow));
    var name := GetRequestLogNewName(t.nameNow, s.localtime);
    var f5 := GetF5LogLocationNewName(t.f5Now, MARCH_SKEW, s.localtime);
    if m.status != Running then
      AppendsNoWrites(m, [], key);
      assert Emit(m, []) == m;
      m
    else if name.None? || f5.None? then
      AppendsNoWrites(m, [Sleep(5)], key);
      Emit(m, [Sleep(5)])
    else
      AfterWindow(s, t, Window(name.value, f5.value.0, f5.value.1), m)
  }

  /** Pushes of one pass and of `k` more passes, at most `n` in each. */
  lemma PushesAcrossPasses(e0: seq<Event>, e1: seq<Event>, e2: seq<Event>, k: nat, n: nat)
    requires e0 <= e1 <= e2
    requires Pushes(e1[|e0|..]) <= n && Pushes(e2[|e1|..]) <= k * n
    ensures Pushes(e2[|e0|..]) <= (k + 1) * n
  {
    assert e2[|e0|..] == e1[|e0|..] + e2[|e1|..];
    PushesAppend(e1[|e0|..], e2[|e1|..]);
  }

  /** The passes a finite script of ticks allows: the log is append-only, and
      each pass pushes at most atoi(ip) * atoi(url) records. */
  function AfterRun(s: Setup, ticks: seq<Tick>, m: Machine): (r: Machine)
    ensures m.events <= r.events
    ensures Pushes(r.events[|m.events|..]) <= |ticks| * (TopCount(s.config) * UrlCount(s.config))
    decreases |ticks|
  {
    if ticks == [] then m
    else
      var m1 := AfterCycle(s, ticks[0], m);
      var r := AfterRun(s, ticks[1..], m1);
      PushesAcrossPasses(m.events, m1.events, r.events, |ticks| - 1, TopCount(s.config) * UrlCount(s.config));
      r
  }

  // ---------------------------------------------------------------------------
  // The program: its loop state lives in an object

  class Daemon {
    const setup: Setup
    var events: seq<Event>
    var conn: Attempt
    var pingsSent: nat
    var attemptsUsed: nat
    var status: Status

    ghost function View(): Machine
      reads this
    {
      Machine(events, conn, pingsSent, attemptsUsed, status)
    }

    constructor (setup: Setup)
      ensures this.setup == setup && View() == START
    {
      this.setup := setup;
      events := [];
      conn := NoContext;
      pingsSent := 0;
      attemptsUsed := 0;
      status := Running;
    }

    /** ConnectToRedis: `*c` becomes the new context. */
    method ConnectToRedis(a: Attempt) returns (r: Option<int>)
      modifies this
      ensures (r, View()) == ConnectStep(setup, a, old(View()))
    {
      var sent := [Connect(Host(setup.config), Port(setup.config))];
      if a.Connected? {
        sent := sent + [Ping];
      }
      assert sent == [Connect(Host(setup.config), Port(setup.config))] + (if a.Connected? then [Ping] else []);
      events := events + sent;
      conn := a;
      r := ConnectResult(a);
    }

    /** The loop `for(;;) { if (!ConnectToRedis(...)) break; sleep(5); }`. */
    method ConnectUntilUp()
      modifies this
      ensures View() == AfterReconnect(setup, old(View()))
    {
      while true
        invariant AfterReconnect(setup, old(View())) == AfterReconnect(setup, View())
        decreases |setup.store.attempts| - attemptsUsed
      {
        if attemptsUsed >= |setup.store.attempts| {
          status := Stalled;
          return;
        }
        var a := setup.store.attempts[attemptsUsed];
        attemptsUsed := attemptsUsed + 1;
        var res := ConnectToRedis(a);
        if res.None? {
          status := Undefined;
          return;
        }
        if res.value == 0 {
          return;
        }
        events := events + [Sleep(5)];
      }
    }

    method Publish(key: string, record: string)
      modifies this
      ensures View() == AfterPublish(setup, key, record, old(View()))
    {
      var reply := setup.store.pings(pingsSent);
      events := events + [Ping];
      pingsSent := pingsSent + 1;
      if reply == NoReply {
        status := Undefined;
      } else if IsPong(reply) {
        events := events + [Rpush(key, record)];
      } else {
        ConnectUntilUp();
      }
    }

    method Detail(w: Window, count: string, stream: string) returns (rest: string)
      modifies this
      ensures (rest, View()) == AfterDetail(setup, w, count, stream, old(View()))
    {
      rest := stream;
      if status != Running {
        return;
      }
      var r := ReadLine(stream, DETAIL_LINE_SIZE);
      if r.None? {
        return;
      }
      var line := r.value.0;
      rest := r.value.1;
      var ts := Tokens(line);
      if |ts| < 4 {
        events := events + [SelectDb(setup.config.urlDatabase)];
        status := Undefined;
        return;
      }
      var url := ts[3];
      events := events + [SelectDb(setup.config.urlDatabase), Smembers(url), SelectDb(setup.config.redisDatabase)];
      var reply := setup.store.members(url);
      if reply == NoReply {
        status := Undefined;
        return;
      }
      var temp := JoinMembers(reply);
      Publish(ListKey(w.name), Payload(count, line, temp));
    }

    method Details(w: Window, count: string, n: nat, stream: string) returns (rest: string)
      modifies this
      ensures (rest, View()) == AfterDetails(setup, w, count, n, stream, old(View()))
    {
      rest := stream;
      for ii := 0 to n
        invariant AfterDetails(setup, w, count, n, stream, old(View()))
               == AfterDetails(setup, w, count, n - ii, rest, View())
      {
        rest := Detail(w, count, rest);
      }
    }

    method Talker(t: Tick, w: Window, stream: string) returns (rest: string)
      modifies this
      ensures (rest, View()) == AfterTalker(setup, t, w, stream, old(View()))
    {
      rest := stream;
      if status != Running {
        return;
      }
      var r := ReadLine(stream, TOP_LINE_SIZE);
      if r.None? {
        return;
      }
      var line := r.value.0;
      rest := r.value.1;
      var ts := Tokens(line);
      if |ts| < 2 {
        status := Undefined;
        return;
      }
      var cmd := SearchScript(setup.config.f5LogLocation, w.dir, w.file, ts[1]);
      events := events + [Spawn(cmd)];
      var out := t.shell(cmd);
      if out.Some? {
        var _ := Details(w, ts[0], UrlCount(setup.config), out.value);
      }
    }

    method TopTalkers(t: Tick, w: Window, n: nat, stream: string) returns (rest: string)
      modifies this
      ensures (rest, View()) == AfterTopTalkers(setup, t, w, n, stream, old(View()))
    {
      rest := stream;
      for i := 0 to n
        invariant AfterTopTalkers(setup, t, w, n, stream, old(View()))
               == AfterTopTalkers(setup, t, w, n - i, rest, View())
      {
        rest := Talker(t, w, rest);
      }
    }

    method ProcessWindow(t: Tick, w: Window)
      modifies this
      ensures View() == AfterWindow(setup, t, w, old(View()))
    {
      var cmd := IpScript(setup.config.requestLogLocation, w.name);
      events := events + [Sleep(4), Spawn(cmd)];
      var out := t.shell(cmd);
      if out.None? {
        return;
      }
      var _ := TopTalkers(t, w, TopCount(setup.config), out.value);
      if status != Running {
        return;
      }
      events := events + [Sleep(250)];
    }

    method Cycle(t: Tick)
      modifies this
      ensures View() == AfterCycle(setup, t, old(View()))
    {
      if status != Running {
        return;
      }
      var name := GetRequestLogNewName(t.nameNow, setup.localtime);
      if name.None? {
        events := events + [Sleep(5)];
        return;
      }
      var f5 := GetF5LogLocationNewName(t.f5Now, MARCH_SKEW, setup.localtime);
      if f5.None? {
        events := events + [Sleep(5)];
        return;
      }
      ProcessWindow(t, Window(name.value, f5.value.0, f5.value.1));
    }

    method Run(ticks: seq<Tick>)
      modifies this
      ensures View() == AfterRun(setup, ticks, old(View()))
    {
      var i := 0;
      while i < |ticks|
        invariant 0 <= i <= |ticks|
        invariant AfterRun(setup, ticks, old(View())) == AfterRun(setup, ticks[i..], View())
      {
        assert ticks[i..][1..] == ticks[i + 1..];
        Cycle(ticks[i]);
        i := i + 1;
      }
    }
  }

  // ---------------------------------------------------------------------------
  // What the program promises

  /** Start-up first tries the configured address, or 127.0.0.1:6379 when the
      configuration names none. */
  lemma StartupAddress(s: Setup)
    requires s.store.attempts != []
    ensures AfterStartup(s).events[0] == Connect(Host(s.config), Port(s.config))
    ensures s.config.redisServer == "" && s.config.redisPort == "" ==>
              AfterStartup(s).events[0] == Connect("127.0.0.1", 6379)
  {
    var a := s.store.attempts[0];
    var m1 := ConnectStep(s, a, START.(attemptsUsed := 1)).1;
    assert m1.events[0] == Connect(Host(s.config), Port(s.config));
    assert m1.events <= AfterStartup(s).events;
  }

  /** A record is pushed exactly when PING answers pong; after any other
      non-NULL reply the program reconnects and pushes nothing for it. */
  lemma PublishOnlyOnPong(s: Setup, key: string, record: string, m: Machine)
    ensures IsPong(s.store.pings(m.pingsSent)) ==>
              AfterPublish(s, key, record, m).events == m.events + [Ping, Rpush(key, record)]
    ensures !IsPong(s.store.pings(m.pingsSent)) ==>
              Pushes(AfterPublish(s, key, record, m).events[|m.events|..]) == 0
  {
    var r := AfterPublish(s, key, record, m);
    var m1 := Emit(m, [Ping]).(pingsSent := m.pingsSent + 1);
    if !IsPong(s.store.pings(m.pingsSent)) {
      if s.store.pings(m.pingsSent) == NoReply {
        assert r.events[|m.events|..] == [Ping];
      } else {
        var r1 := AfterReconnect(s, m1);
        assert r.events[|m.events|..] == [Ping] + r1.events[|m1.events|..];
        NoWritesCountsNone(r1.events[|m1.events|..]);
        PushesAppend([Ping], r1.events[|m1.events|..]);
      }
    }
  }

  /** Every boundary pass processes its window, whatever was processed before:
      it sleeps four seconds and starts ip.sh, and ends with the 250-second
      sleep once the window is worked through. */
  lemma EveryBoundaryProcessed(s: Setup, t: Tick, m: Machine)
    requires m.status == Running
    requires OnBoundary(s.localtime(t.nameNow).tmMin) && OnBoundary(s.localtime(t.f5Now).tmMin)
    ensures var r := AfterCycle(s, t, m);
      |r.events| >= |m.events| + 2
      && r.events[|m.events|] == Sleep(4)
      && r.events[|m.events| + 1] == Spawn(IpScript(s.config.requestLogLocation, RequestLogName(s.localtime(t.nameNow))))
    ensures var r := AfterCycle(s, t, m);
      r.status == Running && t.shell(IpScript(s.config.requestLogLocation, RequestLogName(s.localtime(t.nameNow)))).Some? ==>
      r.events[|r.events| - 1] == Sleep(250)
  {
    var (dir, file) := GetF5LogLocationNewName(t.f5Now, MARCH_SKEW, s.localtime).value;
    assert AfterCycle(s, t, m) == AfterWindow(s, t, Window(RequestLogName(s.localtime(t.nameNow)), dir, file), m);
  }

  /** A whole top-talker line "count ip" searches the F5 log for the address. */
  lemma TalkerSearchesAddress(s: Setup, t: Tick, w: Window, line: string, rest: string, m: Machine)
    requires m.status == Running
    requires |line| + 1 <= TOP_LINE_SIZE - 1 && NUL !in line && '\n' !in line && '\r' !in line
    requires |Tokens(line)| >= 2
    ensures var r := AfterTalker(s, t, w, line + "\n" + rest, m);
      r.0 == rest && |r.1.events| > |m.events|
      && r.1.events[|m.events|] == Spawn(SearchScript(s.config.f5LogLocation, w.dir, w.file, Tokens(line)[1]))
  {
    ReadLineWhole(line, rest, TOP_LINE_SIZE);
  }

  /** A whole detail line with at least four tokens looks up its fourth token,
      not cut at '?', in the url database and returns to the record database,
      then publishes the count, the line and the decoration. */
  lemma DetailLooksUpFourthToken(s: Setup, w: Window, count: string, line: string, rest: string, m: Machine)
    requires m.status == Running
    requires |line| + 1 <= DETAIL_LINE_SIZE - 1 && NUL !in line && '\n' !in line && '\r' !in line
    requires |Tokens(line)| >= 4
    requires s.store.members(Tokens(line)[3]) != NoReply
    ensures var url := Tokens(line)[3];
      AfterDetail(s, w, count, line + "\n" + rest, m)
      == (rest, AfterPublish(s, ListKey(w.name), Payload(count, line, Decoration(s.store.members(url))),
                             Emit(m, [SelectDb(s.config.urlDatabase), Smembers(url), SelectDb(s.config.redisDatabase)])))
  {
    ReadLineWhole(line, rest, DETAIL_LINE_SIZE);
  }

  /** A whole detail line with fewer than four tokens gets as far as selecting
      the url database; the lookup of its missing url token is undefined. */
  lemma ShortDetailLineStops(s: Setup, w: Window, count: string, line: string, rest: string, m: Machine)
    requires m.status == Running
    requires |line| + 1 <= DETAIL_LINE_SIZE - 1 && NUL !in line && '\n' !in line && '\r' !in line
    requires |Tokens(line)| < 4
    ensures AfterDetail(s, w, count, line + "\n" + rest, m)
         == (rest, Machine(m.events + [SelectDb(s.config.urlDatabase)], m.conn, m.pingsSent, m.attemptsUsed, Undefined))
  {
    ReadLineWhole(line, rest, DETAIL_LINE_SIZE);
  }

  /** Two members give "users;logs;"; a reply that is not an array gives nothing. */
  lemma DecorationExample()
    ensures Decoration(Array(["users", "logs"])) == "users;logs;"
    ensures Decoration(Status("OK")) == ""
  {
    var ms := ["users", "logs"];
    assert ms[..1] == ["users"];
    assert ms[..0] == [];
    CStrUnique("users", "users");
    CStrUnique("logs", "logs");
    assert Joined(ms[..1]) == "users;";
  }
}
