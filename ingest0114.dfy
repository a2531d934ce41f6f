/** The polling loop of the two programs of 14 January 2014
    (main2014.01.14.c and main2014.01.14.16.c). Each pass reads the clock; on a
    five-minute boundary whose request log was not processed yet it runs
    ip.sh for the window's top talkers, and for each of the first atoi(ip)
    of them adds it to the window's sorted set, looks up its first F5 log
    line, asks MySQL for the statement behind the line's url, and pushes a
    record to the window's list. The clock, the shell and MySQL are inputs. */
module Ingest0114 {
  import opened CText
  import opened WindowClock
  import opened Effects

  /** main2014.01.14.c sleeps five more seconds after each processed window,
      and formats its records after clearing the buffer that holds the
      address; main2014.01.14.16.c does neither. */
  datatype Snapshot = Jan14 | Jan14At16

  /** The configuration strings read at start-up: where the request logs and
      the F5 logs live, and how many top talkers to follow (`ip`). */
  datatype Config = Config(requestLogLocation: string, f5LogLocation: string, ip: string)

  /** What mysql_query and mysql_store_result give back: a failed query, no
      result set, or the `sql` column of each row. */
  datatype SqlReply = QueryError | NoResultSet | ResultSet(sqlColumn: seq<string>)

  /** The outside world during one pass of the loop: the time() readings taken
      by the two name builders, what each command started with popen prints
      (None when popen fails), and MySQL's answer to each query. */
  datatype Tick = Tick(nameNow: int, f5Now: int, shell: string -> Option<string>, mysql: string -> SqlReply)

  datatype Setup = Setup(snapshot: Snapshot, config: Config, localtime: int -> Tm)

  /** The window a pass works on: its request-log name and F5 directory and file. */
  datatype Window = Window(name: string, dir: string, file: string)

  /** The loop's state: the last processed request-log name, the events so
      far, and whether the program has run into undefined behaviour (a NULL
      token from strtok), after which the model says nothing more. */
  datatype Machine = Machine(mark: string, events: seq<Event>, undefined: bool)

  const START: Machine := Machine("", [], false)

  /** The sizes of SmallBuf and streamSearchF5buf, the fgets buffers. */
  const TOP_LINE_SIZE: nat := 30
  const DETAIL_LINE_SIZE: nat := 1024

  /** The bound of the top-talker loop, `i < atoi(ip)`: no pass when it is not positive. */
  function TopCount(cfg: Config): nat
  {
    var n := Atoi(cfg.ip);
    if n < 0 then 0 else n
  }

  /** The query for the statements logged against a url. */
  function UrlQuery(url: string): string
  {
    "select `sql` from mysql_log where url like '%" + url + "%'"
  }

  /** The record pushed for an address: the address, its F5 log line, and the
      statement found for the line's url, cut before "where", when there is one. */
  function Payload(ip: string, line: string, sql: Option<string>): string
  {
    match sql
    case None => ip + " " + line
    case Some(q) => ip + " " + line + " " + q
  }

  /** The record main2014.01.14.c formats: it clears SmallBuf, which still
      holds the address token, before formatting, so the address prints as "". */
  function PayloadAsWritten(ip: string, line: string, sql: Option<string>): string
  {
    Payload("", line, sql)
  }

  /** The record each snapshot formats. */
  function Record(snapshot: Snapshot, ip: string, line: string, sql: Option<string>): string
  {
    match snapshot
    case Jan14 => PayloadAsWritten(ip, line, sql)
    case Jan14At16 => Payload(ip, line, sql)
  }

  /** What is pushed for a line, given MySQL's answer: nothing after a failed
      query or without a result set, the bare record for zero rows, and the
      record with the first row's statement otherwise. */
  function RecordFor(snapshot: Snapshot, reply: SqlReply, ip: string, line: string): (r: Option<string>)
    ensures r.None? <==> !reply.ResultSet?
    ensures reply.ResultSet? && reply.sqlColumn == [] ==> r == Some(Record(snapshot, ip, line, None))
    ensures reply.ResultSet? && reply.sqlColumn != [] ==>
              r == Some(Record(snapshot, ip, line, Some(SqlBeforeWhere(CStr(reply.sqlColumn[0])))))
  {
    match reply
    case QueryError => None
    case NoResultSet => None
    case ResultSet(rows) =>
      if rows == [] then Some(Record(snapshot, ip, line, None))
      else Some(Record(snapshot, ip, line, Some(SqlBeforeWhere(CStr(rows[0])))))
  }

  function Emit(m: Machine, es: seq<Event>): Machine
  {
    m.(events := m.events + es)
  }

  /** From `m` to `m2` the log only grows, by writes to the keys of window
      `name`: at most `zadds` zadds, and no more record pushes than zadds. */
  predicate Appends(m: Machine, m2: Machine, name: string, zadds: nat)
  {
    m.events <= m2.events
    && var added := m2.events[|m.events|..];
       KeyedBy(added, name) && Zadds(added) <= zadds && Pushes(added) <= Zadds(added)
  }

  lemma AppendsTrans(m: Machine, m1: Machine, m2: Machine, name: string, z1: nat, z2: nat)
    requires Appends(m, m1, name, z1) && Appends(m1, m2, name, z2)
    ensures Appends(m, m2, name, z1 + z2)
  {
    var a := m1.events[|m.events|..];
    var b := m2.events[|m1.events|..];
    assert m2.events[|m.events|..] == a + b;
    KeyedByAppend(a, b, name);
    ZaddsAppend(a, b);
    PushesAppend(a, b);
  }

  /** Events that write nothing to the store. */
  lemma AppendsNoWrites(m: Machine, es: seq<Event>, name: string)
    requires NoWrites(es)
    ensures Appends(m, Emit(m, es), name, 0)
  {
    assert Emit(m, es).events[|m.events|..] == es;
    NoWritesCountsNone(es);
  }

  /** A zadd and a spawn followed by what the detail step writes. */
  lemma AppendsTalker(m: Machine, m1: Machine, m2: Machine, name: string, score: string, member: string, cmd: string)
    requires m1 == Emit(m, [Zadd(SetKey(name), score, member), Spawn(cmd)])
    requires m1.events <= m2.events
    requires var added := m2.events[|m1.events|..];
      KeyedBy(added, name) && Zadds(added) == 0 && Pushes(added) <= 1
    ensures Appends(m, m2, name, 1)
  {
    var a := m1.events[|m.events|..];
    var b := m2.events[|m1.events|..];
    assert m2.events[|m.events|..] == a + b;
    KeyedByAppend(a, b, name);
    ZaddsAppend(a, b);
    PushesAppend(a, b);
  }

  // ---------------------------------------------------------------------------
  // One pass of the loop, as functions of the state before it

  /** The first line SearchIpInF5.sh prints for an address: its fourth token,
      cut at '?', is the url looked up in MySQL. */
  function AfterDetail(s: Setup, t: Tick, w: Window, ip: string, out: string, m: Machine): (r: Machine)
    ensures r.mark == m.mark && m.events <= r.events
    ensures var added := r.events[|m.events|..];
      KeyedBy(added, w.name) && Zadds(added) == 0 && Pushes(added) <= 1
  {
    match ReadLine(out, DETAIL_LINE_SIZE)
    case None => m
    case Some((line, _)) =>
      var ts := Tokens(line);
      if |ts| < 4 then m.(undefined := true)
      else
        var q := UrlQuery(UrlBeforeQuestionMark(ts[3]));
        match RecordFor(s.snapshot, t.mysql(q), ip, line)
        case None => Emit(m, [Query(q)])
        case Some(p) => Emit(m, [Query(q), Lpush(ListKey(w.name), p)])
  }

  /** One turn of the top-talker loop: read a line of ip.sh's output ("count ip"),
      add it to the window's sorted set, and search the F5 log for the address. */
  function AfterTalker(s: Setup, t: Tick, w: Window, stream: string, m: Machine): (r: (string, Machine))
    ensures r.1.mark == m.mark && Appends(m, r.1, w.name, 1)
  {
    if m.undefined then (stream, m)
    else match ReadLine(stream, TOP_LINE_SIZE)
    case None => (stream, m)
    case Some((line, rest)) =>
      var ts := Tokens(line);
      if |ts| < 2 then (rest, m.(undefined := true))
      else
        var cmd := SearchScript(s.config.f5LogLocation, w.dir, w.file, ts[1]);
        var m1 := Emit(m, [Zadd(SetKey(w.name), ts[0], ts[1]), Spawn(cmd)]);
        match t.shell(cmd)
        case None => (rest, m1)
        case Some(out) =>
          var m2 := AfterDetail(s, t, w, ts[1], out, m1);
          AppendsTalker(m, m1, m2, w.name, ts[0], ts[1], cmd);
          (rest, m2)
  }

  /** `n` turns of the top-talker loop. */
  function AfterTopTalkers(s: Setup, t: Tick, w: Window, n: nat, stream: string, m: Machine): (r: (string, Machine))
    ensures r.1.mark == m.mark && Appends(m, r.1, w.name, n)
    decreases n
  {
    if n == 0 then (stream, m)
    else
      var (rest, m1) := AfterTalker(s, t, w, stream, m);
      var r := AfterTopTalkers(s, t, w, n - 1, rest, m1);
      AppendsTrans(m, m1, r.1, w.name, 1, n - 1);
      r
  }

  /** What follows a processed window. */
  function Pause(snapshot: Snapshot): seq<Event>
  {
    match snapshot
    case Jan14 => [Sleep(250), Sleep(5)]
    case Jan14At16 => [Sleep(250)]
  }

  /** A new window: sleep four seconds, run ip.sh on its request log, work
      through the top talkers, and once that loop is done without undefined
      behaviour make the window's name the mark and pause. */
  function AfterWindow(s: Setup, t: Tick, w: Window, m: Machine): (r: Machine)
    ensures r.mark == m.mark || r.mark == w.name
    ensures Appends(m, r, w.name, TopCount(s.config))
  {
    var cmd := IpScript(s.config.requestLogLocation, w.name);
    var m1 := Emit(m, [Sleep(4), Spawn(cmd)]);
    AppendsNoWrites(m, [Sleep(4), Spawn(cmd)], w.name);
    match t.shell(cmd)
    case None => m1
    case Some(out) =>
      var m2 := AfterTopTalkers(s, t, w, TopCount(s.config), out, m1).1;
      AppendsTrans(m, m1, m2, w.name, 0, TopCount(s.config));
      if m2.undefined then m2
      else
        var m3 := m2.(mark := w.name);
        AppendsNoWrites(m3, Pause(s.snapshot), w.name);
        AppendsTrans(m, m3, Emit(m3, Pause(s.snapshot)), w.name, TopCount(s.config), 0);
        Emit(m3, Pause(s.snapshot))
  }

  /** One pass of the outer loop. Off a boundary it sleeps five seconds; a
      window whose name equals the mark is skipped at once; a new window is
      processed, and the mark becomes its name once the top-talker loop is done. */
  function AfterCycle(s: Setup, t: Tick, m: Machine): (r: Machine)
    ensures r.mark == m.mark || r.mark == RequestLogName(s.localtime(t.nameNow))
    ensures Appends(m, r, RequestLogName(s.localtime(t.nameNow)), TopCount(s.config))
  {
    var key := RequestLogName(s.localtime(t.nameNow));
    AppendsNoWrites(m, [], key);
    assert Emit(m, []) == m;
    if m.undefined then m
    else match GetRequestLogNewName(t.nameNow, s.localtime)
    case None => AppendsNoWrites(m, [Sleep(5)], key); Emit(m, [Sleep(5)])
    case Some(name) =>
      match GetF5LogLocationNewName(t.f5Now, JANUARY_SKEW, s.localtime)
      case None => AppendsNoWrites(m, [Sleep(5)], key); Emit(m, [Sleep(5)])
      case Some((dir, file)) =>
        if name == m.mark then m else AfterWindow(s, t, Window(name, dir, file), m)
  }

  /** Zadds of one pass and of `k` more passes, at most `n` in each. */
  lemma ZaddsAcrossPasses(e0: seq<Event>, e1: seq<Event>, e2: seq<Event>, k: nat, n: nat)
    requires e0 <= e1 <= e2
    requires Zadds(e1[|e0|..]) <= n && Zadds(e2[|e1|..]) <= k * n
    ensures Zadds(e2[|e0|..]) <= (k + 1) * n
  {
    assert e2[|e0|..] == e1[|e0|..] + e2[|e1|..];
    ZaddsAppend(e1[|e0|..], e2[|e1|..]);
  }

  /** The passes a finite script of ticks allows. The log is append-only,
      and each pass adds at most atoi(ip) zadds. */
  function AfterRun(s: Setup, ticks: seq<Tick>, m: Machine): (r: Machine)
    ensures m.events <= r.events
    ensures Zadds(r.events[|m.events|..]) <= |ticks| * TopCount(s.config)
    decreases |ticks|
  {
    if ticks == [] then m
    else
      var m1 := AfterCycle(s, ticks[0], m);
      var r := AfterRun(s, ticks[1..], m1);
      ZaddsAcrossPasses(m.events, m1.events, r.events, |ticks| - 1, TopCount(s.config));
      r
  }

  // ---------------------------------------------------------------------------
  // The program: its loop state lives in an object

  class Poller {
    const setup: Setup
    var requestLogName: string
    var events: seq<Event>
    var undefined: bool

    ghost function View(): Machine
      reads this
    {
      Machine(requestLogName, events, undefined)
    }

    /** RequestLogName starts out all zeros: the empty C string. */
    constructor (setup: Setup)
      ensures this.setup == setup && View() == START
    {
      this.setup := setup;
      requestLogName := "";
      events := [];
      undefined := false;
    }

    method Detail(t: Tick, w: Window, ip: string, out: string)
      modifies this
      ensures View() == AfterDetail(setup, t, w, ip, out, old(View()))
    {
      var r := ReadLine(out, DETAIL_LINE_SIZE);
      if r.None? {
        return;
      }
      var line := r.value.0;
      var ts := Tokens(line);
      if |ts| < 4 {
        undefined := true;
        return;
      }
      var q := UrlQuery(UrlBeforeQuestionMark(ts[3]));
      events := events + [Query(q)];
      var rec := RecordFor(setup.snapshot, t.mysql(q), ip, line);
      if rec.Some? {
        events := events + [Lpush(ListKey(w.name), rec.value)];
      }
    }

    method Talker(t: Tick, w: Window, stream: string) returns (rest: string)
      modifies this
      ensures (rest, View()) == AfterTalker(setup, t, w, stream, old(View()))
    {
      rest := stream;
      if undefined {
        return;
      }
      var r := ReadLine(stream, TOP_LINE_SIZE);
      if r.None? {
        return;
      }
      var line := r.value.0;
      rest := r.value.1;
      var ts := Tokens(line);
      if |ts| < 2 {
        undefined := true;
        return;
      }
      var cmd := SearchScript(setup.config.f5LogLocation, w.dir, w.file, ts[1]);
      events := events + [Zadd(SetKey(w.name), ts[0], ts[1]), Spawn(cmd)];
      var out := t.shell(cmd);
      if out.Some? {
        Detail(t, w, ts[1], out.value);
      }
    }

    /** The counted loop `for (i = 0; i < atoi(ip); i++)`. */
    method TopTalkers(t: Tick, w: Window, n: nat, stream: string) returns (rest: string)
      modifies this
      ensures (rest, View()) == AfterTopTalkers(setup, t, w, n, stream, old(View()))
    {
      rest := stream;
      for i := 0 to n
        invariant AfterTopTalkers(setup, t, w, n, stream, old(View()))
               == AfterTopTalkers(setup, t, w, n - i, rest, View())
      {
        rest := Talker(t, w, rest);
      }
    }

    method Cycle(t: Tick)
      modifies this
      ensures View() == AfterCycle(setup, t, old(View()))
    {
      if undefined {
        return;
      }
      var name := GetRequestLogNewName(t.nameNow, setup.localtime);
      if name.None? {
        events := events + [Sleep(5)];
        return;
      }
      var f5 := GetF5LogLocationNewName(t.f5Now, JANUARY_SKEW, setup.localtime);
      if f5.None? {
        events := events + [Sleep(5)];
        return;
      }
      if name.value == requestLogName {
        return;
      }
      var cmd := IpScript(setup.config.requestLogLocation, name.value);
      events := events + [Sleep(4), Spawn(cmd)];
      var out := t.shell(cmd);
      if out.None? {
        return;
      }
      var w := Window(name.value, f5.value.0, f5.value.1);
      var _ := TopTalkers(t, w, TopCount(setup.config), out.value);
      if undefined {
        return;
      }
      requestLogName := name.value;
      events := events + Pause(setup.snapshot);
    }

    /** The endless outer loop, over the passes a finite script of ticks allows. */
    method Run(ticks: seq<Tick>)
      modifies this
      ensures View() == AfterRun(setup, ticks, old(View()))
    {
      var i := 0;
      while i < |ticks|
        invariant 0 <= i <= |ticks|
        invariant AfterRun(setup, ticks, old(View())) == AfterRun(setup, ticks[i..], View())
      {
        assert ticks[i..][1..] == ticks[i + 1..];
        Cycle(ticks[i]);
        i := i + 1;
      }
    }
  }

  // ---------------------------------------------------------------------------
  // What a pass promises

  /** Off a five-minute boundary, on either clock reading, the pass only sleeps five seconds. */
  lemma OffBoundarySleeps(s: Setup, t: Tick, m: Machine)
    requires !m.undefined
    requires !OnBoundary(s.localtime(t.nameNow).tmMin) || !OnBoundary(s.localtime(t.f5Now).tmMin)
    ensures AfterCycle(s, t, m) == Machine(m.mark, m.events + [Sleep(5)], false)
  {
  }

  /** A window whose request-log name equals the mark is not processed again:
      the pass changes nothing, not even by sleeping. */
  lemma SameWindowSkipped(s: Setup, t: Tick, m: Machine)
    requires OnBoundary(s.localtime(t.nameNow).tmMin) && OnBoundary(s.localtime(t.f5Now).tmMin)
    requires RequestLogName(s.localtime(t.nameNow)) == m.mark
    ensures AfterCycle(s, t, m) == m
  {
  }

  /** When popen of ip.sh fails the mark stays, so the next pass retries the window. */
  lemma PopenFailureKeepsMark(s: Setup, t: Tick, m: Machine)
    requires !m.undefined
    requires OnBoundary(s.localtime(t.nameNow).tmMin) && OnBoundary(s.localtime(t.f5Now).tmMin)
    requires RequestLogName(s.localtime(t.nameNow)) != m.mark
    requires t.shell(IpScript(s.config.requestLogLocation, RequestLogName(s.localtime(t.nameNow)))) == None
    ensures AfterCycle(s, t, m).mark == m.mark
    ensures AfterCycle(s, t, m).events
         == m.events + [Sleep(4), Spawn(IpScript(s.config.requestLogLocation, RequestLogName(s.localtime(t.nameNow))))]
  {
  }

  /** The mark moves exactly when a new window is processed to its end: both
      clock readings on a boundary, a name other than the mark, ip.sh started,
      and no undefined behaviour on the way. It then becomes the window's name,
      which is what keeps each window from being processed twice. */
  lemma MarkSetOnProcessedWindow(s: Setup, t: Tick, m: Machine)
    ensures var name := RequestLogName(s.localtime(t.nameNow));
      var r := AfterCycle(s, t, m);
      (r.mark != m.mark <==>
         !m.undefined && OnBoundary(s.localtime(t.nameNow).tmMin) && OnBoundary(s.localtime(t.f5Now).tmMin)
         && name != m.mark && t.shell(IpScript(s.config.requestLogLocation, name)).Some? && !r.undefined)
      && (r.mark != m.mark ==> r.mark == name)
  {
  }

  /** A new window on a boundary is started: four seconds of sleep, then ip.sh. */
  lemma NewWindowStartsIpScript(s: Setup, t: Tick, m: Machine)
    requires !m.undefined
    requires OnBoundary(s.localtime(t.nameNow).tmMin) && OnBoundary(s.localtime(t.f5Now).tmMin)
    requires RequestLogName(s.localtime(t.nameNow)) != m.mark
    ensures m.events + [Sleep(4), Spawn(IpScript(s.config.requestLogLocation, RequestLogName(s.localtime(t.nameNow))))]
         <= AfterCycle(s, t, m).events
  {
  }

  /** Passes with their clock inside the window last processed write nothing
      and leave the state as it was: each window is processed once. */
  lemma {:induction false} RunInProcessedWindow(s: Setup, ticks: seq<Tick>, m: Machine)
    requires forall i :: 0 <= i < |ticks| ==>
      OnBoundary(s.localtime(ticks[i].nameNow).tmMin) && OnBoundary(s.localtime(ticks[i].f5Now).tmMin)
      && RequestLogName(s.localtime(ticks[i].nameNow)) == m.mark
    ensures AfterRun(s, ticks, m) == m
    decreases |ticks|
  {
    if ticks != [] {
      SameWindowSkipped(s, ticks[0], m);
      RunInProcessedWindow(s, ticks[1..], m);
    }
  }

  /** A whole top-talker line "count ip" adds the address to the window's
      sorted set with the count as its score, then searches the F5 log for it. */
  lemma TalkerAddsToSet(s: Setup, t: Tick, w: Window, line: string, rest: string, m: Machine)
    requires !m.undefined
    requires |line| + 1 <= TOP_LINE_SIZE - 1 && NUL !in line && '\n' !in line && '\r' !in line
    requires |Tokens(line)| >= 2
    ensures var r := AfterTalker(s, t, w, line + "\n" + rest, m);
      r.0 == rest && |r.1.events| >= |m.events| + 2
      && r.1.events[|m.events|] == Zadd(SetKey(w.name), Tokens(line)[0], Tokens(line)[1])
      && r.1.events[|m.events| + 1] == Spawn(SearchScript(s.config.f5LogLocation, w.dir, w.file, Tokens(line)[1]))
  {
    ReadLineWhole(line, rest, TOP_LINE_SIZE);
    var ts := Tokens(line);
    var cmd := SearchScript(s.config.f5LogLocation, w.dir, w.file, ts[1]);
    var m1 := Emit(m, [Zadd(SetKey(w.name), ts[0], ts[1]), Spawn(cmd)]);
    var r := AfterTalker(s, t, w, line + "\n" + rest, m);
    if t.shell(cmd).Some? {
      assert r.1 == AfterDetail(s, t, w, ts[1], t.shell(cmd).value, m1);
    } else {
      assert r.1 == m1;
    }
    assert m1.events <= r.1.events;
  }

  /** A whole detail line with at least four tokens queries MySQL for its
      fourth token cut at '?', and pushes what RecordFor makes of the answer. */
  lemma DetailQueriesUrl(s: Setup, t: Tick, w: Window, ip: string, line: string, rest: string, m: Machine)
    requires |line| + 1 <= DETAIL_LINE_SIZE - 1 && NUL !in line && '\n' !in line && '\r' !in line
    requires |Tokens(line)| >= 4
    ensures var q := UrlQuery(UrlBeforeQuestionMark(Tokens(line)[3]));
      AfterDetail(s, t, w, ip, line + "\n" + rest, m).events
      == m.events + [Query(q)] + (match RecordFor(s.snapshot, t.mysql(q), ip, line)
                                  case None => []
                                  case Some(p) => [Lpush(ListKey(w.name), p)])
  {
    ReadLineWhole(line, rest, DETAIL_LINE_SIZE);
  }

  // ---------------------------------------------------------------------------
  // The record

  /** The record's first field is the address, then come the tokens of the F5
      line, then those of the statement. */
  lemma PayloadFields(ip: string, line: string, sql: Option<string>)
    requires ip != [] && ' ' !in ip
    ensures CutAt(Payload(ip, line, sql), {' '}) == ip
    ensures sql.None? ==> Tokens(Payload(ip, line, sql)) == [ip] + Tokens(line)
    ensures sql.Some? ==> Tokens(Payload(ip, line, sql)) == [ip] + Tokens(line) + Tokens(sql.value)
  {
    var p := Payload(ip, line, sql);
    var rest := if sql.None? then line else line + " " + sql.value;
    assert p == ip + " " + rest;
    CutAtUnique(p, {' '}, ip);
    TokensCons(ip, rest);
    if sql.Some? {
      TokensAppend(line, sql.value);
    }
  }

  /** As written, main2014.01.14.c's record starts with an empty field and
      does not depend on the address at all. */
  lemma PayloadAsWrittenDropsAddress(ip: string, line: string, sql: Option<string>)
    ensures CutAt(PayloadAsWritten(ip, line, sql), {' '}) == ""
    ensures PayloadAsWritten(ip, line, sql) == PayloadAsWritten("", line, sql)
  {
  }

  /** The field a snapshot's record starts with. */
  lemma RecordFirstField(snapshot: Snapshot, reply: SqlReply, ip: string, line: string)
    ensures var r := RecordFor(snapshot, reply, ip, line);
      ip != [] && ' ' !in ip && r.Some? ==> CutAt(r.value, {' '}) == (if snapshot == Jan14 then "" else ip)
  {
    if ip != [] && ' ' !in ip && reply.ResultSet? {
      var sql := if reply.sqlColumn == [] then None else Some(SqlBeforeWhere(CStr(reply.sqlColumn[0])));
      PayloadFields(ip, line, sql);
      PayloadAsWrittenDropsAddress(ip, line, sql);
    }
  }

  /** Each pushed record starts with the field the snapshot formats first:
      the address for main2014.01.14.16.c, an empty field for main2014.01.14.c. */
  lemma DetailRecordFirstField(s: Setup, t: Tick, w: Window, ip: string, out: string, m: Machine)
    requires ip != [] && ' ' !in ip
    ensures var r := AfterDetail(s, t, w, ip, out, m);
      forall i :: |m.events| <= i < |r.events| && r.events[i].Lpush? ==>
        CutAt(r.events[i].value, {' '}) == (if s.snapshot == Jan14 then "" else ip)
  {
    match ReadLine(out, DETAIL_LINE_SIZE)
    case None =>
    case Some((line, _)) =>
      if |Tokens(line)| >= 4 {
        var q := UrlQuery(UrlBeforeQuestionMark(Tokens(line)[3]));
        RecordFirstField(s.snapshot, t.mysql(q), ip, line);
      }
  }

  /** The F5 line "a b c /x" of address 222.73.133.32, with no statement in
      MySQL for url "/x": main2014.01.14.c pushes " a b c /x". */
  lemma DetailPushAsWrittenExample(s: Setup, t: Tick, w: Window, m: Machine)
    requires s.snapshot == Jan14 && t.mysql(UrlQuery("/x")) == ResultSet([])
    ensures AfterDetail(s, t, w, "222.73.133.32", "a b c /x\n", m).events
         == m.events + [Query(UrlQuery("/x")), Lpush(ListKey(w.name), " a b c /x")]
  {
    DetailExampleLine(s, t, w, "222.73.133.32", m);
    ExampleRecords();
  }

  /** The same input on main2014.01.14.16.c pushes the address first. */
  lemma DetailPushExample(s: Setup, t: Tick, w: Window, m: Machine)
    requires s.snapshot == Jan14At16 && t.mysql(UrlQuery("/x")) == ResultSet([])
    ensures AfterDetail(s, t, w, "222.73.133.32", "a b c /x\n", m).events
         == m.events + [Query(UrlQuery("/x")), Lpush(ListKey(w.name), "222.73.133.32 a b c /x")]
  {
    DetailExampleLine(s, t, w, "222.73.133.32", m);
    ExampleRecords();
  }

  /** The two records formatted for the example line. */
  lemma ExampleRecords()
    ensures PayloadAsWritten("222.73.133.32", "a b c /x", None) == " a b c /x"
    ensures Payload("222.73.133.32", "a b c /x", None) == "222.73.133.32 a b c /x"
  {
  }

  /** The line "a b c /x" has the url "/x" as its fourth token. */
  lemma DetailExampleLine(s: Setup, t: Tick, w: Window, ip: string, m: Machine)
    ensures AfterDetail(s, t, w, ip, "a b c /x\n", m).events
         == m.events + [Query(UrlQuery("/x"))]
            + (match RecordFor(s.snapshot, t.mysql(UrlQuery("/x")), ip, "a b c /x")
               case None => []
               case Some(p) => [Lpush(ListKey(w.name), p)])
  {
    ExampleTokens();
    CutAtUnique("/x", {'?'}, "/x");
    ExampleLineWhole();
    DetailQueriesUrl(s, t, w, ip, "a b c /x", "", m);
  }

  /** The example line is one whole line of SearchIpInF5.sh's output. */
  lemma ExampleLineWhole()
    ensures "a b c /x\n" == "a b c /x" + "\n" + ""
    ensures NUL !in "a b c /x" && '\n' !in "a b c /x" && '\r' !in "a b c /x"
  {
  }

  /** strtok splits the example line into four tokens. */
  lemma ExampleTokens()
    ensures Tokens("a b c /x") == ["a", "b", "c", "/x"]
  {
    var ws := ["a", "b", "c", "/x"];
    assert JoinWords(ws) == "a b c /x";
    TokensJoinWords(ws);
  }
}
