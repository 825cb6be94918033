/**
  Expiry of idle sessions against a clock (app/server/sessions.go:158-189, app/server/server.go:53-78, 184-193).
  Time is in nanoseconds and the ticker is on time: the clock never passes a tick whose sweep has not run.
 */
module Expiry {
  import opened Endpoints
  import opened Sessions

  const TICK := 10_000_000_000

  datatype Timed = Timed(now: int, lastTick: int, sessions: Table)

  datatype Label =
    | Advance(t: int)
    | Tick
    | Hello(key: AgentKey, endpoints: seq<Endpoint>)
    | Ping(key: AgentKey)
    | Remove(key: AgentKey)

  predicate Enabled(s: Timed, l: Label) {
    match l
    case Advance(t) => s.now <= t <= s.lastTick + TICK
    case Tick => s.now == s.lastTick + TICK
    case Ping(k) => k in s.sessions
    case _ => true
  }

  function Apply(s: Timed, l: Label, idle: nat): Timed
    requires Enabled(s, l)
  {
    match l
    case Advance(t) => s.(now := t)
    case Tick => s.(lastTick := s.now, sessions := Unexpired(s.sessions, s.now, idle))
    case Hello(k, eps) => s.(sessions := s.sessions[k := Session(eps, s.now)])
    case Ping(k) => s.(sessions := s.sessions[k := s.sessions[k].(lastUse := s.now)])
    case Remove(k) => s.(sessions := s.sessions - {k})
  }

  ghost predicate Run(s: Timed, ls: seq<Label>, idle: nat, t: Timed)
    decreases |ls|
  {
    if ls == [] then s == t else Enabled(s, ls[0]) && Run(Apply(s, ls[0], idle), ls[1..], idle, t)
  }

  function Start(t: int): Timed {
    Timed(t, t, map[])
  }

  // ------------------------------------------------------------------------

  ghost predicate Swept(s: Timed, idle: nat) {
    && s.lastTick <= s.now <= s.lastTick + TICK
    && forall k :: k in s.sessions ==> s.lastTick <= s.sessions[k].lastUse + idle && s.sessions[k].lastUse <= s.now
  }

  lemma {:induction false} SweptRun(s: Timed, ls: seq<Label>, idle: nat, t: Timed)
    requires Swept(s, idle) && Run(s, ls, idle, t)
    ensures Swept(t, idle)
    decreases |ls|
  {
    if ls != [] {
      SweptRun(Apply(s, ls[0], idle), ls[1..], idle, t);
    }
  }

  /** At no time is a session in the table that has been idle for longer than the timeout and one tick. */
  lemma IdleBound(start: int, ls: seq<Label>, idle: nat, t: Timed, k: AgentKey)
    requires Run(Start(start), ls, idle, t) && k in t.sessions
    ensures 0 <= t.now - t.sessions[k].lastUse <= idle + 10_000_000_000
  {
    SweptRun(Start(start), ls, idle, t);
  }

  // ------------------------------------------------------------------------

  /** `n` ticks on time. */
  function Ticks(now: int, n: nat): seq<Label>
    decreases n
  {
    if n == 0 then [] else [Advance(now + TICK), Tick] + Ticks(now + TICK, n - 1)
  }

  lemma {:induction false} TicksRun(s: Timed, n: nat, idle: nat, k: AgentKey) returns (t: Timed)
    requires s.now == s.lastTick && k in s.sessions && s.now + n * TICK <= s.sessions[k].lastUse + idle
    ensures Run(s, Ticks(s.now, n), idle, t)
    ensures t.now == t.lastTick == s.now + n * TICK && k in t.sessions && t.sessions[k] == s.sessions[k]
    decreases n
  {
    if n == 0 {
      t := s;
    } else {
      var s1 := Apply(s, Advance(s.now + TICK), idle);
      var s2 := Apply(s1, Tick, idle);
      t := TicksRun(s2, n - 1, idle, k);
      var ls := Ticks(s.now, n);
      assert ls[1..][1..] == Ticks(s2.now, n - 1);
      assert Run(s1, ls[1..], idle, t);
    }
  }

  lemma {:induction false} RunConcat(s: Timed, a: seq<Label>, t: Timed, b: seq<Label>, u: Timed, idle: nat)
    requires Run(s, a, idle, t) && Run(t, b, idle, u)
    ensures Run(s, a + b, idle, u)
    decreases |a|
  {
    if a == [] {
      assert a + b == b;
    } else {
      RunConcat(Apply(s, a[0], idle), a[1..], t, b, u, idle);
      assert (a + b)[1..] == a[1..] + b;
    }
  }

  /** The bound cannot be improved: for a timeout of whole ticks a session can reach it. */
  lemma IdleBoundIsReached(n: nat, k: AgentKey) returns (ls: seq<Label>, t: Timed)
    ensures Run(Start(0), ls, n * 10_000_000_000, t) && k in t.sessions
    ensures t.now - t.sessions[k].lastUse == n * 10_000_000_000 + 10_000_000_000
  {
    var idle := n * TICK;
    var s1 := Apply(Start(0), Hello(k, []), idle);
    var s2 := TicksRun(s1, n, idle, k);
    t := Apply(s2, Advance(s2.now + TICK), idle);
    assert Run(s2, [Advance(s2.now + TICK)], idle, t);
    RunConcat(s1, Ticks(0, n), s2, [Advance(s2.now + TICK)], t, idle);
    var rest := Ticks(0, n) + [Advance(s2.now + TICK)];
    ls := [Hello(k, [])] + rest;
    assert ls[1..] == rest;
  }

  // ------------------------------------------------------------------------

  /** Nobody removes session `k` by hand or registers it anew. */
  ghost predicate OnlyUsed(ls: seq<Label>, k: AgentKey) {
    forall i :: 0 <= i < |ls| ==> ls[i] != Remove(k) && !(ls[i].Hello? && ls[i].key == k)
  }

  /** By the schedule alone: at every tick the last use of `k` is at most the timeout ago. */
  predicate InTime(now: int, last: int, ls: seq<Label>, idle: nat, k: AgentKey)
    decreases |ls|
  {
    ls == [] || match ls[0]
      case Advance(t) => InTime(t, last, ls[1..], idle, k)
      case Tick => now - last <= idle && InTime(now, last, ls[1..], idle, k)
      case Ping(k') => InTime(now, if k' == k then now else last, ls[1..], idle, k)
      case _ => InTime(now, last, ls[1..], idle, k)
  }

  /** By the schedule alone: the clock never gets further than the timeout past the last use of `k`. */
  predicate Paced(now: int, last: int, ls: seq<Label>, idle: nat, k: AgentKey)
    decreases |ls|
  {
    now - last <= idle && (ls == [] || match ls[0]
      case Advance(t) => Paced(t, last, ls[1..], idle, k)
      case Ping(k') => Paced(now, if k' == k then now else last, ls[1..], idle, k)
      case _ => Paced(now, last, ls[1..], idle, k))
  }

  lemma {:induction false} GoneStaysGone(s: Timed, ls: seq<Label>, idle: nat, t: Timed, k: AgentKey)
    requires Run(s, ls, idle, t) && OnlyUsed(ls, k) && k !in s.sessions
    ensures k !in t.sessions
    decreases |ls|
  {
    if ls != [] {
      assert forall i :: 0 <= i < |ls[1..]| ==> ls[1..][i] == ls[i + 1];
      GoneStaysGone(Apply(s, ls[0], idle), ls[1..], idle, t, k);
    }
  }

  /** Expiry spares a session exactly when every sweep finds it used within the timeout. */
  lemma {:induction false} SurvivesExactlyWhen(s: Timed, ls: seq<Label>, idle: nat, t: Timed, k: AgentKey)
    requires Run(s, ls, idle, t) && OnlyUsed(ls, k) && k in s.sessions
    ensures k in t.sessions <==> InTime(s.now, s.sessions[k].lastUse, ls, idle, k)
    decreases |ls|
  {
    if ls != [] {
      assert forall i :: 0 <= i < |ls[1..]| ==> ls[1..][i] == ls[i + 1];
      var s' := Apply(s, ls[0], idle);
      if k in s'.sessions {
        SurvivesExactlyWhen(s', ls[1..], idle, t, k);
      } else {
        GoneStaysGone(s', ls[1..], idle, t, k);
      }
    }
  }

  /** Nothing but time and sweeps happens to session `k`. */
  predicate LeftAlone(ls: seq<Label>, k: AgentKey) {
    ls == [] || (ls[0] != Ping(k) && ls[0] != Remove(k) && !(ls[0].Hello? && ls[0].key == k) && LeftAlone(ls[1..], k))
  }

  /** A session that is removed is in the table no more until it is registered anew, whatever else happens. */
  lemma {:induction false} RemovedIsGone(s: Timed, ls: seq<Label>, idle: nat, t: Timed, k: AgentKey)
    requires Run(s, [Remove(k)] + ls, idle, t) && forall i :: 0 <= i < |ls| ==> !(ls[i].Hello? && ls[i].key == k)
    ensures k !in t.sessions
  {
    assert ([Remove(k)] + ls)[1..] == ls;
    NotBack(Apply(s, Remove(k), idle), ls, idle, t, k);
  }

  lemma {:induction false} NotBack(s: Timed, ls: seq<Label>, idle: nat, t: Timed, k: AgentKey)
    requires Run(s, ls, idle, t) && k !in s.sessions
    requires forall i :: 0 <= i < |ls| ==> !(ls[i].Hello? && ls[i].key == k)
    ensures k !in t.sessions
    decreases |ls|
  {
    if ls != [] {
      assert forall i :: 0 <= i < |ls[1..]| ==> ls[1..][i] == ls[i + 1];
      NotBack(Apply(s, ls[0], idle), ls[1..], idle, t, k);
    }
  }

  lemma {:induction false} TicksAdvance(s: Timed, ls: seq<Label>, idle: nat, t: Timed)
    requires Run(s, ls, idle, t)
    ensures s.lastTick <= t.lastTick
    decreases |ls|
  {
    if ls != [] {
      TicksAdvance(Apply(s, ls[0], idle), ls[1..], idle, t);
    }
  }

  lemma {:induction false} GoneWhileLeftAlone(s: Timed, ls: seq<Label>, idle: nat, t: Timed, k: AgentKey)
    requires Run(s, ls, idle, t) && LeftAlone(ls, k) && k !in s.sessions
    ensures k !in t.sessions
    decreases |ls|
  {
    if ls != [] {
      GoneWhileLeftAlone(Apply(s, ls[0], idle), ls[1..], idle, t, k);
    }
  }

  /**
    Between the two lookups of a Ping, in which nothing but sweeps happens to its session, the session is lost
    exactly when there was a sweep and the last one came later than the timeout after the session's last use.
    As sweeps come every ten seconds, two readings of the clock tell.
   */
  lemma {:induction false} LostExactlyWhen(s: Timed, ls: seq<Label>, idle: nat, t: Timed, k: AgentKey)
    requires Run(s, ls, idle, t) && LeftAlone(ls, k) && k in s.sessions
    ensures k !in t.sessions <==> s.lastTick < t.lastTick && s.sessions[k].lastUse + idle < t.lastTick
    decreases |ls|
  {
    if ls != [] {
      var s' := Apply(s, ls[0], idle);
      TicksAdvance(s', ls[1..], idle, t);
      if k in s'.sessions {
        LostExactlyWhen(s', ls[1..], idle, t, k);
      } else {
        GoneWhileLeftAlone(s', ls[1..], idle, t, k);
      }
    }
  }

  /** A session registered or touched, then left alone, is lost to the first tick later than the timeout after that. */
  lemma LostAfter(s: Timed, l: Label, ls: seq<Label>, idle: nat, t: Timed, k: AgentKey)
    requires Enabled(s, l) && (l == Ping(k) || (l.Hello? && l.key == k))
    requires Run(Apply(s, l, idle), ls, idle, t) && LeftAlone(ls, k)
    ensures k !in t.sessions <==> s.lastTick < t.lastTick && s.now + idle < t.lastTick
    ensures k in t.sessions ==> t.sessions[k].lastUse == s.now
  {
    var s' := Apply(s, l, idle);
    LostExactlyWhen(s', ls, idle, t, k);
    LastUseStays(s', ls, idle, t, k);
  }

  lemma {:induction false} LastUseStays(s: Timed, ls: seq<Label>, idle: nat, t: Timed, k: AgentKey)
    requires Run(s, ls, idle, t) && LeftAlone(ls, k)
    ensures k in t.sessions ==> k in s.sessions && t.sessions[k] == s.sessions[k]
    decreases |ls|
  {
    if ls != [] {
      LastUseStays(Apply(s, ls[0], idle), ls[1..], idle, t, k);
    }
  }

  lemma {:induction false} PacedIsInTime(now: int, last: int, ls: seq<Label>, idle: nat, k: AgentKey)
    requires Paced(now, last, ls, idle, k)
    ensures InTime(now, last, ls, idle, k)
    decreases |ls|
  {
    if ls != [] {
      match ls[0] {
        case Advance(t) => PacedIsInTime(t, last, ls[1..], idle, k);
        case Ping(k') => PacedIsInTime(now, if k' == k then now else last, ls[1..], idle, k);
        case _ => PacedIsInTime(now, last, ls[1..], idle, k);
      }
    }
  }

  /** A session touched at gaps of at most the timeout is never removed by expiry, in any run. */
  lemma PacedSurvives(s: Timed, ls: seq<Label>, idle: nat, t: Timed, k: AgentKey)
    requires Run(s, ls, idle, t) && OnlyUsed(ls, k) && k in s.sessions
    requires Paced(s.now, s.sessions[k].lastUse, ls, idle, k)
    ensures k in t.sessions
  {
    PacedIsInTime(s.now, s.sessions[k].lastUse, ls, idle, k);
    SurvivesExactlyWhen(s, ls, idle, t, k);
  }
}
