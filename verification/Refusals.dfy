/**
 What a refused client is told, and when a connection ends: the one-pass screen answers the first call at
 fault with that call's own fault, and a connection closes for four reasons and no other.
 */
module Refusals {
  import opened Prelude
  import opened RpcGate

  /** The ids and subscribes of the calls before a call are taken when its turn comes. */
  function Fault(g: Gate, before: seq<Call>, c: Call): Option<int> {
    if c.name.None? || c.name.value !in WS_ALLOWED_METHODS then Some(-32_601)
    else if c.id == NoId && IsSubscribe(c.name.value) then Some(-32_600)
    else if c.id != NoId && (c.id in g.inflight || exists i | 0 <= i < |before| :: before[i].id == c.id) then Some(-32_600)
    else if IsSubscribe(c.name.value) && |g.subs| + g.pendingSubs + CountSubs(before) >= 32 then Some(-32_005)
    else None
  }

  /** Call i is the first at fault. */
  predicate FirstFault(g: Gate, calls: seq<Call>, i: nat)
    requires i < |calls|
  {
    Fault(g, calls[..i], calls[i]).Some? && forall j | 0 <= j < i :: Fault(g, calls[..j], calls[j]).None?
  }

  lemma {:induction false} CountSubsLast(calls: seq<Call>, c: Call)
    ensures CountSubs(calls + [c]) == CountSubs(calls) + if c.name.Some? && IsSubscribe(c.name.value) then 1 else 0
    decreases |calls|
  {
    hide IsSubscribe;
    if calls == [] {
      assert [] + [c] == [c] && [c][1..] == [];
    } else {
      assert (calls + [c])[1..] == calls[1..] + [c];
      CountSubsLast(calls[1..], c);
    }
  }

  lemma IdsLast(calls: seq<Call>, c: Call)
    ensures Ids(calls + [c]) == if c.id == NoId then Ids(calls) else Ids(calls) + {c.id}
    ensures c.id != NoId ==> (c.id in Ids(calls) <==> exists i | 0 <= i < |calls| :: calls[i].id == c.id)
  {
    assert forall d | d in calls :: d in calls + [c];
  }

  /** One call of the screen. */
  lemma ScreenOne(g: Gate, calls: seq<Call>, k: nat)
    requires k < |calls| && |g.subs| + g.pendingSubs + CountSubs(calls[..k]) <= 32
    ensures var fault, r := Fault(g, calls[..k], calls[k]), Screen(g, calls[k..], Ids(calls[..k]), CountSubs(calls[..k]));
            && (fault.Some? ==> r == Refuse(calls[k].id, fault.value))
            && (fault.None? ==>
                  && r == Screen(g, calls[k + 1..], Ids(calls[..k + 1]), CountSubs(calls[..k + 1]))
                  && |g.subs| + g.pendingSubs + CountSubs(calls[..k + 1]) <= 32)
  {
    hide IsSubscribe;
    IdsLast(calls[..k], calls[k]);
    CountSubsLast(calls[..k], calls[k]);
    assert calls[..k + 1] == calls[..k] + [calls[k]] && calls[k..][0] == calls[k] && calls[k..][1..] == calls[k + 1..];
  }

  /** The outcome of a screen: the first call at fault answered with its own fault, or none at fault. */
  predicate AnswersFirst(g: Gate, calls: seq<Call>, r: Screened) {
    && (forall i | 0 <= i < |calls| && FirstFault(g, calls, i) :: r == Refuse(calls[i].id, Fault(g, calls[..i], calls[i]).value))
    && (r.Refuse? ==> exists i | 0 <= i < |calls| :: FirstFault(g, calls, i))
  }

  /** The calls before k are not at fault. */
  predicate CleanTo(g: Gate, calls: seq<Call>, k: nat)
    requires k <= |calls|
  {
    forall j | 0 <= j < k :: Fault(g, calls[..j], calls[j]).None?
  }

  lemma FaultHere(g: Gate, calls: seq<Call>, k: nat)
    requires k < |calls| && CleanTo(g, calls, k) && Fault(g, calls[..k], calls[k]).Some?
    ensures AnswersFirst(g, calls, Refuse(calls[k].id, Fault(g, calls[..k], calls[k]).value))
  {
    hide Fault;
    assert FirstFault(g, calls, k);
  }

  lemma NoneAtFault(g: Gate, calls: seq<Call>, r: Screened)
    requires CleanTo(g, calls, |calls|) && r.Clear?
    ensures AnswersFirst(g, calls, r)
  {
    hide Fault;
  }

  lemma CleanOneMore(g: Gate, calls: seq<Call>, k: nat)
    requires k < |calls| && CleanTo(g, calls, k) && Fault(g, calls[..k], calls[k]).None?
    ensures CleanTo(g, calls, k + 1)
  {
    hide Fault;
  }

  /** From call k on, the screen stops at the first call at fault and nowhere else. */
  lemma {:induction false} ScreenStops(g: Gate, calls: seq<Call>, k: nat)
    requires k <= |calls| && |g.subs| + g.pendingSubs + CountSubs(calls[..k]) <= 32 && CleanTo(g, calls, k)
    ensures AnswersFirst(g, calls, Screen(g, calls[k..], Ids(calls[..k]), CountSubs(calls[..k])))
    decreases |calls| - k
  {
    if k < |calls| {
      hide *;
      ScreenOne(g, calls, k);
      if Fault(g, calls[..k], calls[k]).Some? {
        FaultHere(g, calls, k);
      } else {
        CleanOneMore(g, calls, k);
        ScreenStops(g, calls, k + 1);
      }
    } else {
      assert Screen(g, calls[k..], Ids(calls[..k]), CountSubs(calls[..k])).Clear? by { assert calls[k..] == []; }
      NoneAtFault(g, calls, Screen(g, calls[k..], Ids(calls[..k]), CountSubs(calls[..k])));
      hide *;
    }
  }

  /** The answer to a refused frame: nobody's id for the frame itself, the first call at fault, or the first call. */
  lemma RefusalNamesTheFault(c: Conn, f: Frame, now: real, io: Sockets)
    requires Sound(c.gate)
    ensures var verdict := ClientFrame(c, f, now, io).verdict;
            && (f.binary || f.bytes > 65_536 ==> verdict == Refused(NoId, -32_600))
            && (!f.binary && f.bytes <= 65_536 ==>
                  && (f.calls.None? ==> verdict == Refused(NoId, -32_700))
                  && (f.calls.Some? ==>
                        var calls := f.calls.value;
                        && (|calls| == 0 || |calls| > 10 ==> verdict == Refused(NoId, -32_600))
                        && (1 <= |calls| <= 10 ==>
                              && (forall i | 0 <= i < |calls| && FirstFault(c.gate, calls, i) ::
                                    verdict == Refused(calls[i].id, Fault(c.gate, calls[..i], calls[i]).value))
                              && ((forall i | 0 <= i < |calls| :: !FirstFault(c.gate, calls, i)) ==>
                                    verdict in {Accepted, Refused(calls[0].id, -32_005)}))))
  {
    hide Fault, Sound, FirstFault, Refill, TrackAll;
    if f.calls.Some? && !f.binary && f.bytes <= 65_536 && 1 <= |f.calls.value| <= 10 {
      var calls := f.calls.value;
      FromTheFirst(c.gate, calls);
    }
  }

  lemma FromTheFirst(g: Gate, calls: seq<Call>)
    requires Sound(g)
    ensures AnswersFirst(g, calls, Screen(g, calls, {}, 0))
  {
    hide AnswersFirst, Fault;
    assert calls[..0] == [] && calls[0..] == calls && Ids([]) == {} && CountSubs([]) == 0;
    ScreenStops(g, calls, 0);
  }

  // ---------------------------------------------------------------- the end of a connection

  /** Why a connection ends: a socket goes, the client stops reading, a send fails, or too much waits for upstream. */
  predicate Ends(c: Conn, e: Event) {
    match e
    case Hangup => true
    case UpstreamOpen => false
    case FromUpstream(_, io) => io.backedUp || io.sendFails
    case FromClient(f, now, io) =>
      if ClientFrame(c, f, now, io).verdict != Accepted then io.backedUp
      else if c.upstreamOpen then io.sendFails else |c.buffered| >= 50
  }

  lemma ClosesExactly(c: Conn, e: Event)
    requires !c.closed
    ensures Step(c, e).closed <==> Ends(c, e)
  {
    hide Gatekeep, TrackAll, NoteAll, Refill;
  }
}
