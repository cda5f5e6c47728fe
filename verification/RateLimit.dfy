/**
 The token bucket, said without tokens: a frame that passes every other check is accepted exactly when no
 window since the connection opened would carry more than its burst of 40 calls and 12 a second.
 */
module RateLimit {
  import opened Prelude
  import opened RpcGate

  /** The connection after a history. */
  function After(start: real, events: seq<Event>): Conn {
    RunEvents(NewConn(start), events)
  }

  /** The calls accepted from event i on. */
  function AcceptedSince(start: real, events: seq<Event>, i: nat): nat
    requires i <= |events|
  {
    AcceptedCalls(After(start, events[..i]), events[i..])
  }

  /** A window opens at time `from` with event i: the connection's first moment, or a frame of the client. */
  predicate Opens(start: real, events: seq<Event>, i: nat, from: real)
    requires i <= |events|
  {
    (i == 0 && from == start) || (i < |events| && events[i].FromClient? && events[i].now == from)
  }

  /** n more calls at `now` keep every such window within 40 calls and 12 a second. */
  ghost predicate RateAllows(start: real, events: seq<Event>, now: real, n: nat) {
    forall i: nat, from: real | i <= |events| && Opens(start, events, i, from) ::
      (AcceptedSince(start, events, i) + n) as real <= 40.0 + 12.0 * ((now - from) / 1000.0)
  }

  // ---------------------------------------------------------------- histories, one event longer

  lemma {:induction false} RunsOn(c: Conn, a: seq<Event>, b: seq<Event>)
    ensures RunEvents(c, a + b) == RunEvents(RunEvents(c, a), b)
    ensures AcceptedCalls(c, a + b) == AcceptedCalls(c, a) + AcceptedCalls(RunEvents(c, a), b)
    decreases |a|
  {
    hide Step, Cost;
    if a == [] {
      assert a + b == b;
    } else {
      assert (a + b)[0] == a[0] && (a + b)[1..] == a[1..] + b;
      RunsOn(Step(c, a[0]), a[1..], b);
    }
  }

  lemma LastStep(start: real, events: seq<Event>, e: Event)
    ensures After(start, events + [e]) == Step(After(start, events), e)
  {
    hide Step;
    RunsOn(NewConn(start), events, [e]);
    assert [e][1..] == [];
  }

  lemma OneMore(start: real, events: seq<Event>, e: Event, i: nat)
    requires i <= |events|
    ensures AcceptedSince(start, events + [e], i) == AcceptedSince(start, events, i) + Cost(After(start, events), e)
    ensures AcceptedSince(start, events + [e], |events|) == Cost(After(start, events), e)
  {
    hide Step, Cost;
    var c := After(start, events[..i]);
    assert (events + [e])[..i] == events[..i] && (events + [e])[i..] == events[i..] + [e];
    assert events[..i] + events[i..] == events;
    RunsOn(NewConn(start), events[..i], events[i..]);
    RunsOn(c, events[i..], [e]);
    assert (events + [e])[..|events|] == events && (events + [e])[|events|..] == [e];
    assert [e][1..] == [];
  }

  // ---------------------------------------------------------------- the bucket's level is a window's room

  /** What window (i, from) has left at the bucket's last reading. */
  function Room(start: real, events: seq<Event>, i: nat, from: real): real
    requires i <= |events|
  {
    40.0 + 12.0 * ((After(start, events).lastRefill - from) / 1000.0) - AcceptedSince(start, events, i) as real
  }

  ghost predicate SomeWindow(start: real, events: seq<Event>) {
    exists i: nat, from: real ::
      i <= |events| && Opens(start, events, i, from) && After(start, events).tokens == Room(start, events, i, from)
  }

  /** A step that does not read the clock leaves the bucket, and costs nothing. */
  lemma IdleStep(c: Conn, e: Event)
    requires !e.FromClient? || Gatekeep(c.gate, e.frame).Refuse?
    ensures Step(c, e).tokens == c.tokens && Step(c, e).lastRefill == c.lastRefill && Cost(c, e) == 0
  {
    hide Gatekeep, TrackAll, NoteAll;
  }

  /** One that does refills the bucket to 40 at most, and takes what is accepted. */
  lemma ReadingStep(c: Conn, e: Event)
    requires e.FromClient? && Gatekeep(c.gate, e.frame).Clear?
    ensures Step(c, e).lastRefill == e.now
    ensures var refilled := c.tokens + (e.now - c.lastRefill) / 1000.0 * 12.0;
            Step(c, e).tokens == (if 40.0 <= refilled then 40.0 else refilled) - Cost(c, e) as real
  {
    hide Gatekeep, TrackAll;
  }

  lemma {:induction false} LevelIsRoom(start: real, events: seq<Event>)
    ensures SomeWindow(start, events)
    decreases |events|
  {
    if events == [] {
      StartWindow(start);
    } else {
      var before, e := events[..|events| - 1], events[|events| - 1];
      assert events == before + [e];
      LevelIsRoom(start, before);
      hide *;
      NextWindow(start, before, e);
    }
  }

  lemma StartWindow(start: real)
    ensures SomeWindow(start, [])
  {
    assert Opens(start, [], 0, start) && After(start, []).tokens == Room(start, [], 0, start);
  }

  lemma NextWindow(start: real, events: seq<Event>, e: Event)
    requires SomeWindow(start, events)
    ensures SomeWindow(start, events + [e])
  {
    hide Step, Cost, AcceptedSince, After, Gatekeep;
    var c := After(start, events);
    var i: nat, from: real :| i <= |events| && Opens(start, events, i, from) && c.tokens == Room(start, events, i, from);
    LastStep(start, events, e);
    OneMore(start, events, e, i);
    assert Opens(start, events + [e], i, from);
    if !e.FromClient? || Gatekeep(c.gate, e.frame).Refuse? {
      IdleStep(c, e);
      assert After(start, events + [e]).tokens == Room(start, events + [e], i, from);
    } else {
      ReadingStep(c, e);
      if 40.0 <= c.tokens + (e.now - c.lastRefill) / 1000.0 * 12.0 {
        assert Opens(start, events + [e], |events|, e.now);
        assert After(start, events + [e]).tokens == Room(start, events + [e], |events|, e.now);
      } else {
        assert After(start, events + [e]).tokens == Room(start, events + [e], i, from);
      }
    }
  }

  // ---------------------------------------------------------------- both directions

  lemma {:induction false} ClockSplits(events: seq<Event>, last: real, until: real, i: nat)
    requires i <= |events| && ClockRuns(events, last, until)
    ensures last <= until
    ensures i < |events| && events[i].FromClient? ==>
              ClockRuns(events[..i], last, events[i].now) && ClockRuns(events[i..], events[i].now, until)
    decreases |events|
  {
    if events != [] {
      var next := if events[0].FromClient? then events[0].now else last;
      if i == 0 {
        assert events[..0] == [] && events[0..] == events;
        ClockSplits(events[1..], next, until, 0);
      } else {
        ClockSplits(events[1..], next, until, i - 1);
        assert events[..i][1..] == events[1..][..i - 1] && events[i..] == events[1..][i - 1..];
        if i < |events| && events[i].FromClient? {
          ClockSplits(events[1..][..i - 1], next, events[i].now, 0);
        }
      }
    }
  }

  lemma {:induction false} ClockGoesOn(events: seq<Event>, last: real, e: Event)
    requires e.FromClient? && ClockRuns(events, last, e.now)
    ensures ClockRuns(events + [e], last, e.now)
    decreases |events|
  {
    if events == [] {
      assert events + [e] == [e] && [e][1..] == [];
    } else {
      assert (events + [e])[1..] == events[1..] + [e];
      ClockGoesOn(events[1..], if events[0].FromClient? then events[0].now else last, e);
    }
  }

  /** An accepted frame fits every window. */
  lemma AcceptedFits(start: real, events: seq<Event>, e: Event, i: nat, from: real)
    requires e.FromClient? && ClockRuns(events, start, e.now) && i <= |events| && Opens(start, events, i, from)
    ensures (AcceptedSince(start, events, i) + Cost(After(start, events), e)) as real <= 40.0 + 12.0 * ((e.now - from) / 1000.0)
  {
    hide Step, Cost;
    ClockSplits(events, start, e.now, i);
    var window := events[i..] + [e];
    assert (events + [e])[..i] == events[..i] && (events + [e])[i..] == window;
    if i == 0 {
      assert events[..0] == [] && events[0..] == events;
    }
    if i == 0 && from == start {
      ClockGoesOn(events, start, e);
    } else {
      ClockGoesOn(events[i..], from, e);
    }
    OneMore(start, events, e, i);
    RateBound(start, events[..i], window, from, (e.now - from) / 1000.0);
  }

  /** A frame refused for rate overfills the window the bucket's level stands for. */
  lemma RefusedOverfills(start: real, events: seq<Event>, f: Frame, now: real, io: Sockets)
    requires Gatekeep(After(start, events).gate, f).Clear? && |f.calls.value| <= 10
    requires ClientFrame(After(start, events), f, now, io).verdict != Accepted
    ensures !RateAllows(start, events, now, |f.calls.value|)
  {
    LevelIsRoom(start, events);
    var c := After(start, events);
    var i: nat, from: real :| i <= |events| && Opens(start, events, i, from) && c.tokens == Room(start, events, i, from);
    assert c.tokens + (now - c.lastRefill) / 1000.0 * 12.0 < |f.calls.value| as real by {
      hide After, Gatekeep, TrackAll;
    }
    hide After, AcceptedSince, Gatekeep, ClientFrame;
    assert (AcceptedSince(start, events, i) + |f.calls.value|) as real > 40.0 + 12.0 * ((now - from) / 1000.0);
  }

  /** What every frame must be, whatever the rate: said without reference to the order of the checks. */
  predicate Conforms(g: Gate, f: Frame) {
    && !f.binary && f.bytes <= 65_536 && f.calls.Some? && 1 <= |f.calls.value| <= 10
    && WellFormed(g.inflight.Keys, f.calls.value)
    && |g.subs| + g.pendingSubs + CountSubs(f.calls.value) <= 32
    && |g.inflight| + |Ids(f.calls.value)| <= 50
  }

  /**
   After any history of client frames, upstream messages and socket failures: a frame is accepted if and only
   if it conforms and the rate allows its calls in every window.
   */
  lemma AcceptedExactly(start: real, events: seq<Event>, f: Frame, now: real, io: Sockets)
    requires ClockRuns(events, start, now)
    ensures ClientFrame(After(start, events), f, now, io).verdict == Accepted <==>
            Conforms(After(start, events).gate, f) && RateAllows(start, events, now, |f.calls.value|)
  {
    var c := After(start, events);
    NewConnInv(start);
    RunKeepsInv(NewConn(start), events);
    assert Sound(c.gate);
    GatekeepMeaning(c.gate, f);
    if Gatekeep(c.gate, f).Clear? {
      if ClientFrame(c, f, now, io).verdict == Accepted {
        var e := FromClient(f, now, io);
        assert Cost(c, e) == |f.calls.value|;
        forall i: nat, from: real | i <= |events| && Opens(start, events, i, from)
          ensures (AcceptedSince(start, events, i) + |f.calls.value|) as real <= 40.0 + 12.0 * ((now - from) / 1000.0)
        {
          AcceptedFits(start, events, e, i, from);
        }
      } else {
        RefusedOverfills(start, events, f, now, io);
      }
    }
  }
}
