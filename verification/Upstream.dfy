/**
 The other end of the gate: an upstream that answers what it was asked, over an ordered channel.
 What the connection believes is then what upstream holds, and the subscription cap is upstream's too.
 */
module Upstream {
  import opened Sums
  import opened RpcGate

  /** Upstream's unanswered requests and live subscriptions, and its messages still on the way. */
  datatype World = World(gate: Gate, asked: map<RpcId, Entry>, live: set<Value>, channel: seq<Message>)

  datatype Action =
    | Forward(calls: seq<Call>)                  // the gate admits a batch
    | Serve(id: RpcId, result: Value, error: Value)
    | Finish(subscription: Value)                // the final signature notification
    | Received(subscription: Value)              // an early signature notification
    | Drop(subscription: Value)                  // an unsubscribe that carried no id
    | Deliver                                    // the oldest message reaches the gate

  const NOTHING: World := World(Gate(map[], {}, 0), map[], {}, [])

  predicate Fits(g: Gate, calls: seq<Call>) {
    && Named(calls)
    && WellFormed(g.inflight.Keys, calls)
    && |g.subs| + g.pendingSubs + CountSubs(calls) <= RPC_MAX_SUBSCRIPTIONS
    && |g.inflight| + |Ids(calls)| <= RPC_MAX_PENDING
  }

  /** What a call asks of upstream: an unsubscribe names its subscription as the first parameter. */
  function Asking(c: Call): Entry
    requires c.name.Some?
  {
    var first := if c.params.Some? && c.params.value != [] then c.params.value[0] else Undefined;
    Entry(c.name.value, if IsUnsubscribe(c.name.value) then first else Undefined)
  }

  /** Upstream answers the calls that carry an id. */
  function Ask(asked: map<RpcId, Entry>, calls: seq<Call>): map<RpcId, Entry>
    requires Named(calls)
    decreases |calls|
  {
    if calls == [] then asked
    else Ask(if calls[0].id == NoId then asked else asked[calls[0].id := Asking(calls[0])], calls[1..])
  }

  /** What serving one request does to the live subscriptions. */
  function Serving(e: Entry, live: set<Value>, result: Value, error: Value): set<Value> {
    if IsUnsubscribe(e.name) && result == True then live - {e.unsubId}
    else if IsSubscribe(e.name) && error == Undefined && result != Undefined then live + {result}
    else live
  }

  predicate Possible(w: World, a: Action) {
    match a
    case Forward(calls) => Fits(w.gate, calls)
    case Serve(id, _, _) => id in w.asked
    case Deliver => w.channel != []
    case _ => true
  }

  function Act(w: World, a: Action): World
    requires Possible(w, a)
  {
    match a
    case Forward(calls) => w.(gate := TrackAll(w.gate, calls), asked := Ask(w.asked, calls))
    case Serve(id, result, error) =>
      w.(asked := w.asked - {id}, live := Serving(w.asked[id], w.live, result, error),
         channel := w.channel + [Answer(id, result, error)])
    case Finish(v) => w.(live := w.live - {v}, channel := w.channel + [SignatureNotification(false, v)])
    case Received(v) => w.(channel := w.channel + [SignatureNotification(true, v)])
    case Drop(v) => w.(live := w.live - {v})
    case Deliver => w.(gate := Note(w.gate, w.channel[0]), channel := w.channel[1..])
  }

  // ---------------------------------------------------------------- what the gate will believe

  /** The gate once every message on the way has arrived. */
  function Settled(w: World): Gate {
    NoteAll(w.gate, w.channel)
  }

  /** Each answer on the way finds its call in flight when it arrives. */
  predicate Matched(g: Gate, ms: seq<Message>)
    decreases |ms|
  {
    ms != [] ==> (ms[0].Answer? ==> ms[0].id in g.inflight) && Matched(Note(g, ms[0]), ms[1..])
  }

  ghost predicate Agrees(w: World) {
    && Sound(w.gate)
    && Matched(w.gate, w.channel)
    && Settled(w).inflight == w.asked
    && w.live <= Settled(w).subs
  }

  /** Upstream holds exactly what the gate will have counted. */
  predicate Exact(w: World) {
    w.live == Settled(w).subs
  }

  lemma {:induction false} NoteAllAppend(g: Gate, ms: seq<Message>, m: Message)
    ensures NoteAll(g, ms + [m]) == Note(NoteAll(g, ms), m)
    ensures Matched(g, ms) && (m.Answer? ==> m.id in NoteAll(g, ms).inflight) ==> Matched(g, ms + [m])
    decreases |ms|
  {
    hide Note;
    if ms == [] {
      assert [m][1..] == [];
    } else {
      assert (ms + [m])[1..] == ms[1..] + [m];
      NoteAllAppend(Note(g, ms[0]), ms[1..], m);
    }
  }

  /** A call with a new id and a message about another commute. */
  lemma TrackThenNote(g: Gate, c: Call, m: Message)
    requires c.name.Some? && NoId !in g.inflight && (m.Answer? ==> m.id in g.inflight) && c.id !in g.inflight
    ensures Note(Track(g, c), m) == Track(Note(g, m), c)
  {
    hide IsSubscribe, IsUnsubscribe;
    if m.Answer? && c.id != NoId {
      var e := Entry(c.name.value, UnsubId(c));
      assert g.inflight[c.id := e] - {m.id} == (g.inflight - {m.id})[c.id := e];
    }
  }

  lemma {:induction false} TrackThenNoteAll(g: Gate, c: Call, ms: seq<Message>)
    requires c.name.Some? && NoId !in g.inflight && Matched(g, ms) && c.id !in g.inflight
    ensures NoteAll(Track(g, c), ms) == Track(NoteAll(g, ms), c) && Matched(Track(g, c), ms)
    ensures NoteAll(g, ms).inflight.Keys <= g.inflight.Keys
    decreases |ms|
  {
    hide IsSubscribe, IsUnsubscribe;
    if ms != [] {
      TrackThenNote(g, c, ms[0]);
      TrackThenNoteAll(Note(g, ms[0]), c, ms[1..]);
    }
  }

  lemma {:induction false} TrackAllThenNoteAll(g: Gate, calls: seq<Call>, ms: seq<Message>)
    requires Named(calls) && NoId !in g.inflight && WellFormed(g.inflight.Keys, calls) && Matched(g, ms)
    ensures NoteAll(TrackAll(g, calls), ms) == TrackAll(NoteAll(g, ms), calls) && Matched(TrackAll(g, calls), ms)
    decreases |calls|
  {
    hide IsSubscribe, IsUnsubscribe, WellFormed, Matched, NoteAll, Note;
    if calls != [] {
      var c := calls[0];
      WellFormedStep(g.inflight.Keys, calls);
      assert Track(g, c).inflight.Keys == g.inflight.Keys + (if c.id == NoId then {} else {c.id});
      TrackThenNoteAll(g, c, ms);
      TrackAllThenNoteAll(Track(g, c), calls[1..], ms);
    }
  }

  /** The gate's entries are what upstream was asked. */
  lemma {:induction false} AskIsTrack(g: Gate, calls: seq<Call>)
    requires Named(calls)
    ensures TrackAll(g, calls).inflight == Ask(g.inflight, calls) && TrackAll(g, calls).subs == g.subs
    decreases |calls|
  {
    hide IsSubscribe, IsUnsubscribe;
    if calls != [] {
      AskIsTrack(Track(g, calls[0]), calls[1..]);
    }
  }

  // ---------------------------------------------------------------- every step, every run

  lemma ForwardAgrees(w: World, calls: seq<Call>)
    requires Agrees(w) && Fits(w.gate, calls)
    ensures Agrees(Act(w, Forward(calls))) && (Exact(w) ==> Exact(Act(w, Forward(calls))))
  {
    hide WellFormed, Matched, NoteAll, TrackAll, CountSubs, Ask;
    assert NoId !in w.gate.inflight;
    TrackAllKeepsSound(w.gate, calls);
    TrackAllThenNoteAll(w.gate, calls, w.channel);
    AskIsTrack(Settled(w), calls);
  }

  lemma SendAgrees(w: World, a: Action)
    requires Agrees(w) && Possible(w, a) && (a.Serve? || a.Finish? || a.Received?)
    ensures Agrees(Act(w, a)) && (Exact(w) ==> Exact(Act(w, a)))
  {
    hide Sound, Matched, NoteAll, IsSubscribe, IsUnsubscribe;
    var t := Act(w, a);
    var m := t.channel[|w.channel|];
    NoteAllAppend(w.gate, w.channel, m);
    assert t.channel == w.channel + [m];
    SettledHasNoNoId(w);
    match a {
      case Serve(id, _, _) => NeverBoth(w.asked[id].name);
      case _ =>
    }
  }

  lemma SettledHasNoNoId(w: World)
    requires Agrees(w)
    ensures NoId !in w.asked
  {
    NoteAllKeepsSound(w.gate, w.channel);
  }

  lemma ActAgrees(w: World, a: Action)
    requires Agrees(w) && Possible(w, a)
    ensures Agrees(Act(w, a)) && (Exact(w) && !a.Drop? ==> Exact(Act(w, a)))
  {
    hide Sound, Fits, TrackAll, Note;
    match a {
      case Forward(calls) => ForwardAgrees(w, calls);
      case Serve(_, _, _) => SendAgrees(w, a);
      case Finish(_) => SendAgrees(w, a);
      case Received(_) => SendAgrees(w, a);
      case Drop(_) =>
      case Deliver => NoteKeepsSound(w.gate, w.channel[0]);
    }
  }

  predicate AllPossible(w: World, actions: seq<Action>)
    decreases |actions|
  {
    actions != [] ==> Possible(w, actions[0]) && AllPossible(Act(w, actions[0]), actions[1..])
  }

  function ActAll(w: World, actions: seq<Action>): World
    requires AllPossible(w, actions)
    decreases |actions|
  {
    if actions == [] then w else ActAll(Act(w, actions[0]), actions[1..])
  }

  lemma {:induction false} RunAgrees(w: World, actions: seq<Action>)
    requires Agrees(w) && AllPossible(w, actions)
    ensures Agrees(ActAll(w, actions))
    ensures Exact(w) && (forall a | a in actions :: !a.Drop?) ==> Exact(ActAll(w, actions))
    decreases |actions|
  {
    hide Agrees, Exact, Possible, Act;
    if actions != [] {
      ActAgrees(w, actions[0]);
      RunAgrees(Act(w, actions[0]), actions[1..]);
    }
  }

  /**
   However requests, answers and notifications interleave, upstream never holds more than 32
   subscriptions for one connection, those it has yet to open included.
   */
  lemma UpstreamHoldsAtMost32(actions: seq<Action>)
    requires AllPossible(NOTHING, actions)
    ensures var w := ActAll(NOTHING, actions);
            |w.live| + Sum<RpcId, Entry>(w.asked, SubWeight) <= RPC_MAX_SUBSCRIPTIONS
  {
    assert Agrees(NOTHING);
    RunAgrees(NOTHING, actions);
    var w := ActAll(NOTHING, actions);
    hide ActAll, AllPossible;
    NoteAllKeepsSound(w.gate, w.channel);
    Smaller(w.live, Settled(w).subs);
  }

  lemma {:induction false} Smaller(a: set<Value>, b: set<Value>)
    requires a <= b
    ensures |a| <= |b|
  {
    assert b == a + (b - a);
  }

  /** Once the channel is quiet and every unsubscribe carried an id, the gate's set is upstream's. */
  lemma QuietMeansExact(actions: seq<Action>)
    requires AllPossible(NOTHING, actions) && forall a | a in actions :: !a.Drop?
    ensures var w := ActAll(NOTHING, actions);
            w.channel == [] ==> w.gate.subs == w.live && w.gate.inflight == w.asked
  {
    assert Agrees(NOTHING) && Exact(NOTHING);
    RunAgrees(NOTHING, actions);
  }

  // ---------------------------------------------------------------- the connection is this gate

  /** A frame the connection accepts is one the gate may forward, and is accounted for as forwarded. */
  lemma ConnectionForwards(w: World, c: Conn, f: Frame, now: real, io: Sockets)
    requires Agrees(w) && w.gate == c.gate
    ensures var r := ClientFrame(c, f, now, io);
            if r.verdict == Accepted
            then Possible(w, Forward(f.calls.value)) && Act(w, Forward(f.calls.value)).gate == r.conn.gate
            else r.conn.gate == w.gate
  {
    hide Gatekeep, Refill, Sound, WellFormed, TrackAll, Matched, NoteAll, Ask;
    GatekeepMeaning(c.gate, f);
    if Gatekeep(c.gate, f).Clear? {
      ClearedFrameIsNamed(c.gate, f);
    }
  }

  /** A message from upstream reaches the gate whenever the client is there to read it. */
  lemma ConnectionDelivers(w: World, c: Conn, io: Sockets)
    requires w.gate == c.gate && w.channel != [] && !c.closed && !io.backedUp
    ensures UpstreamFrame(c, [w.channel[0]], io).gate == Act(w, Deliver).gate
  {
    hide Note;
    var m, g := w.channel[0], w.gate;
    assert [m][1..] == [] && NoteAll(Note(g, m), []) == Note(g, m);
    assert NoteAll(g, [m]) == NoteAll(Note(g, m), [m][1..]);
  }
}
