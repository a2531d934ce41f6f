/** What one polling cycle does to the outside world, recorded in order:
    sleeps, shell commands started with popen, MySQL queries, and the
    commands sent to the Redis store. The store writes are append-only,
    so a run is described by the list of these events. */
module Effects {

  datatype Event =
    | Sleep(seconds: nat)
    | Spawn(command: string)
    | Query(sql: string)
    | Zadd(key: string, score: string, member: string)
    | Lpush(key: string, value: string)
    | Rpush(key: string, value: string)
    | SelectDb(db: string)
    | Smembers(key: string)
    | Ping
    | Connect(host: string, port: int)

  /** A command that changes what the store holds. */
  predicate IsWrite(e: Event) { e.Zadd? || e.Lpush? || e.Rpush? }

  /** A write to the window's list of records. */
  predicate IsPush(e: Event) { e.Lpush? || e.Rpush? }

  /** The sorted set of a window's top talkers, and the list of its records. */
  function SetKey(name: string): string { "ipset" + name }
  function ListKey(name: string): string { "iplist" + name }

  /** Every store write goes to the key of window `name`: the sorted set for a
      zadd, the list for a push. */
  predicate KeyedBy(es: seq<Event>, name: string)
  {
    forall i :: 0 <= i < |es| ==>
      (es[i].Zadd? ==> es[i].key == SetKey(name)) && (IsPush(es[i]) ==> es[i].key == ListKey(name))
  }

  /** Nothing in the log is written to the store. */
  predicate NoWrites(es: seq<Event>) { forall i :: 0 <= i < |es| ==> !IsWrite(es[i]) }

  /** Logs written to the same window's keys stay so when joined. */
  lemma KeyedByAppend(a: seq<Event>, b: seq<Event>, name: string)
    requires KeyedBy(a, name) && KeyedBy(b, name)
    ensures KeyedBy(a + b, name)
  {
    forall i | 0 <= i < |a + b|
      ensures ((a + b)[i].Zadd? ==> (a + b)[i].key == SetKey(name))
          && (IsPush((a + b)[i]) ==> (a + b)[i].key == ListKey(name))
    {
      if i >= |a| {
        assert (a + b)[i] == b[i - |a|];
      }
    }
  }

  /** From `e0` to `e1` the log only grows, by events that write nothing. */
  predicate Quiet(e0: seq<Event>, e1: seq<Event>)
  {
    e0 <= e1 && NoWrites(e1[|e0|..])
  }

  lemma QuietTrans(e0: seq<Event>, e1: seq<Event>, e2: seq<Event>)
    requires Quiet(e0, e1) && Quiet(e1, e2)
    ensures Quiet(e0, e2)
  {
    assert e2[|e0|..] == e1[|e0|..] + e2[|e1|..];
    forall i | 0 <= i < |e2[|e0|..]|
      ensures !IsWrite(e2[|e0|..][i])
    {
      if i >= |e1[|e0|..]| {
        assert e2[|e0|..][i] == e2[|e1|..][i - |e1[|e0|..]|];
      }
    }
  }

  function Zadds(es: seq<Event>): (n: nat)
    ensures n <= |es|
  {
    if es == [] then 0 else (if es[0].Zadd? then 1 else 0) + Zadds(es[1..])
  }

  function Pushes(es: seq<Event>): (n: nat)
    ensures n <= |es|
  {
    if es == [] then 0 else (if IsPush(es[0]) then 1 else 0) + Pushes(es[1..])
  }

  lemma {:induction false} ZaddsAppend(a: seq<Event>, b: seq<Event>)
    ensures Zadds(a + b) == Zadds(a) + Zadds(b)
  {
    if a != [] {
      assert (a + b)[1..] == a[1..] + b;
      ZaddsAppend(a[1..], b);
    } else {
      assert a + b == b;
    }
  }

  lemma {:induction false} PushesAppend(a: seq<Event>, b: seq<Event>)
    ensures Pushes(a + b) == Pushes(a) + Pushes(b)
  {
    if a != [] {
      assert (a + b)[1..] == a[1..] + b;
      PushesAppend(a[1..], b);
    } else {
      assert a + b == b;
    }
  }

  /** A log without writes counts none. */
  lemma {:induction false} NoWritesCountsNone(es: seq<Event>)
    requires NoWrites(es)
    ensures Zadds(es) == 0 && Pushes(es) == 0
  {
    if es != [] {
      NoWritesCountsNone(es[1..]);
    }
  }

  // ---------------------------------------------------------------------------
  // The commands the programs build with sprintf

  /** "bash ip.sh %s%s": the top-talker script over the window's request log. */
  function IpScript(requestLogLocation: string, name: string): string
  {
    "bash ip.sh " + requestLogLocation + name
  }

  /** "nohup bash SearchIpInF5.sh %s%s/%s %s": the F5 log lines of one address. */
  function SearchScript(f5LogLocation: string, dir: string, file: string, ip: string): string
  {
    "nohup bash SearchIpInF5.sh " + f5LogLocation + dir + "/" + file + " " + ip
  }
}
