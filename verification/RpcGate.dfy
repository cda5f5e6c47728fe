/**
 The gate in front of the paid upstream: which client frames pass, what is counted for them, and
 how upstream's answers are matched back. One value per connection; RpcConnection runs it in place.
 */
module RpcGate {
  import opened Prelude
  import opened Sums

  const RPC_PER_SEC: real := 12.0
  const RPC_BURST: real := 40.0
  const RPC_MAX_FRAME_BYTES: nat := 65_536
  const RPC_MAX_BATCH: nat := 10
  const RPC_MAX_PENDING: nat := 50
  const RPC_MAX_SUBSCRIPTIONS: nat := 32

  const INVALID_REQUEST: int := -32_600
  const METHOD_NOT_ALLOWED: int := -32_601
  const PARSE_ERROR: int := -32_700
  const LIMITED: int := -32_005

  const WS_ALLOWED_METHODS: set<string> := {
    "accountSubscribe", "accountUnsubscribe", "signatureSubscribe", "signatureUnsubscribe",
    "logsSubscribe", "logsUnsubscribe", "programSubscribe", "programUnsubscribe",
    "slotSubscribe", "slotUnsubscribe", "rootSubscribe", "rootUnsubscribe",
    "getAccountInfo", "getMultipleAccounts", "getBalance", "getBlockHeight", "getSlot",
    "getLatestBlockhash", "getFeeForMessage", "getRecentPrioritizationFees",
    "getSignatureStatuses", "getSignaturesForAddress", "getTransaction",
    "getMinimumBalanceForRentExemption", "getEpochInfo", "getVersion", "getHealth"
  }

  predicate Allowed(name: string) { name in WS_ALLOWED_METHODS }

  function EndsWith(s: string, suffix: string): bool {
    |suffix| <= |s| && s[|s| - |suffix|..] == suffix
  }

  predicate IsSubscribe(name: string) { EndsWith(name, "Subscribe") }

  predicate IsUnsubscribe(name: string) { EndsWith(name, "Unsubscribe") }

  /** The two suffixes differ in a letter's case, so no method is both. */
  lemma NeverBoth(name: string)
    ensures IsSubscribe(name) ==> !IsUnsubscribe(name)
  {
    if IsSubscribe(name) {
      assert name[|name| - 9..][0] == 'S';
      if |name| >= 11 {
        assert name[|name| - 11..][2] == name[|name| - 9];
      }
    }
  }

  // ---------------------------------------------------------------- messages

  /** A call's id. Numbers and strings can be matched to an answer; anything else cannot. */
  datatype RpcId = NumId(n: real) | StrId(s: string) | NoId

  /** A JSON value as a set element: all that matters is which values are the same one. */
  datatype Value = Undefined | True | Other(identity: nat)

  /** `name` is absent when the method is not a string. */
  datatype Call = Call(id: RpcId, name: Option<string>, params: Option<seq<Value>>)

  /** `calls` is absent when the bytes are not JSON. */
  datatype Frame = Frame(bytes: nat, binary: bool, calls: Option<seq<Call>>)

  datatype Message =
    | Null
    | SignatureNotification(received: bool, subscription: Value)
    | Answer(id: RpcId, result: Value, error: Value)

  datatype Entry = Entry(name: string, unsubId: Value)

  // ---------------------------------------------------------------- accounting

  datatype Gate = Gate(inflight: map<RpcId, Entry>, subs: set<Value>, pendingSubs: int)

  function SubWeight(id: RpcId, e: Entry): nat {
    if IsSubscribe(e.name) then 1 else 0
  }

  /** pendingSubs is the number of Subscribe calls in flight, and neither cap is exceeded. */
  ghost predicate Sound(g: Gate) {
    && g.pendingSubs == Sum<RpcId, Entry>(g.inflight, SubWeight)
    && NoId !in g.inflight
    && |g.subs| + g.pendingSubs <= RPC_MAX_SUBSCRIPTIONS
    && |g.inflight| <= RPC_MAX_PENDING
  }

  function UnsubId(c: Call): Value
    requires c.name.Some?
  {
    if IsUnsubscribe(c.name.value) && c.params.Some? && |c.params.value| > 0 then c.params.value[0] else Undefined
  }

  function Track(g: Gate, c: Call): Gate
    requires c.name.Some?
  {
    if c.id == NoId then g
    else Gate(
      g.inflight[c.id := Entry(c.name.value, UnsubId(c))], g.subs,
      g.pendingSubs + if IsSubscribe(c.name.value) then 1 else 0)
  }

  predicate Named(calls: seq<Call>) {
    forall c | c in calls :: c.name.Some?
  }

  function TrackAll(g: Gate, calls: seq<Call>): Gate
    requires Named(calls)
    decreases |calls|
  {
    if calls == [] then g else TrackAll(Track(g, calls[0]), calls[1..])
  }

  function Note(g: Gate, m: Message): Gate {
    match m
    case Null => g
    case SignatureNotification(received, subscription) =>
      if received then g else g.(subs := g.subs - {subscription})
    case Answer(id, result, error) =>
      if id == NoId || id !in g.inflight then g
      else
        var call, rest := g.inflight[id], g.inflight - {id};
        if IsUnsubscribe(call.name) then
          Gate(rest, if result == True then g.subs - {call.unsubId} else g.subs, g.pendingSubs)
        else if IsSubscribe(call.name) then
          Gate(rest, if error == Undefined && result != Undefined then g.subs + {result} else g.subs, g.pendingSubs - 1)
        else g.(inflight := rest)
  }

  function NoteAll(g: Gate, ms: seq<Message>): Gate
    decreases |ms|
  {
    if ms == [] then g else NoteAll(Note(g, ms[0]), ms[1..])
  }

  /** Whatever upstream says, an answer turns at most one pending subscription into a live one. */
  lemma NoteKeepsSound(g: Gate, m: Message)
    requires Sound(g)
    ensures Sound(Note(g, m))
  {
    match m {
      case Answer(id, result, error) =>
        if id in g.inflight {
          NeverBoth(g.inflight[id].name);
          SumRemove<RpcId, Entry>(g.inflight, SubWeight, id);
          assert g.inflight.Keys == (g.inflight - {id}).Keys + {id};
          Fewer(g.subs, g.inflight[id].unsubId);
        }
      case SignatureNotification(received, subscription) => Fewer(g.subs, subscription);
      case Null =>
    }
  }

  lemma Fewer(s: set<Value>, v: Value)
    ensures |s - {v}| <= |s| && |s + {v}| <= |s| + 1
  {
    if v in s {
      assert s + {v} == s;
    } else {
      assert s - {v} == s;
    }
  }

  lemma {:induction false} NoteAllKeepsSound(g: Gate, ms: seq<Message>)
    requires Sound(g)
    ensures Sound(NoteAll(g, ms))
    decreases |ms|
  {
    if ms != [] {
      NoteKeepsSound(g, ms[0]);
      NoteAllKeepsSound(Note(g, ms[0]), ms[1..]);
    }
  }

  // ---------------------------------------------------------------- what passes

  datatype Screened = Clear(keys: set<RpcId>, newSubs: nat) | Refuse(id: RpcId, code: int)

  /** The call-by-call check: the first call at fault is the one answered. */
  function Screen(g: Gate, calls: seq<Call>, keys: set<RpcId>, newSubs: nat): Screened {
    if calls == [] then Clear(keys, newSubs)
    else
      var c := calls[0];
      if c.name.None? || !Allowed(c.name.value) then Refuse(c.id, METHOD_NOT_ALLOWED)
      else
        var isSub := IsSubscribe(c.name.value);
        if (if c.id == NoId then isSub else c.id in g.inflight || c.id in keys) then Refuse(c.id, INVALID_REQUEST)
        else
          var subsNow := if isSub then newSubs + 1 else newSubs;
          if isSub && |g.subs| + g.pendingSubs + subsNow > RPC_MAX_SUBSCRIPTIONS then Refuse(c.id, LIMITED)
          else Screen(g, calls[1..], if c.id == NoId then keys else keys + {c.id}, subsNow)
  }

  function Ids(calls: seq<Call>): set<RpcId> {
    set c | c in calls && c.id != NoId :: c.id
  }

  function CountSubs(calls: seq<Call>): nat {
    if calls == [] then 0
    else CountSubs(calls[1..]) + if calls[0].name.Some? && IsSubscribe(calls[0].name.value) then 1 else 0
  }

  /** Every call allowlisted, every subscribe matchable, every id new to the connection and to the batch. */
  predicate WellFormed(taken: set<RpcId>, calls: seq<Call>) {
    && (forall i | 0 <= i < |calls| :: calls[i].name.Some? && Allowed(calls[i].name.value))
    && (forall i | 0 <= i < |calls| :: calls[i].id == NoId ==> !IsSubscribe(calls[i].name.value))
    && (forall i | 0 <= i < |calls| :: calls[i].id != NoId ==> calls[i].id !in taken)
    && (forall i, j | 0 <= i < j < |calls| :: calls[i].id != NoId ==> calls[i].id != calls[j].id)
  }

  lemma WellFormedStep(taken: set<RpcId>, calls: seq<Call>)
    requires calls != [] && NoId !in taken
    ensures WellFormed(taken, calls) <==>
            && calls[0].name.Some? && Allowed(calls[0].name.value)
            && (calls[0].id == NoId ==> !IsSubscribe(calls[0].name.value))
            && calls[0].id !in taken
            && WellFormed(taken + (if calls[0].id == NoId then {} else {calls[0].id}), calls[1..])
  {
    hide IsSubscribe, Allowed;
    var rest := calls[1..];
    var taken' := taken + (if calls[0].id == NoId then {} else {calls[0].id});
    assert forall i | 0 <= i < |rest| :: rest[i] == calls[i + 1];
    if && calls[0].name.Some? && Allowed(calls[0].name.value)
       && (calls[0].id == NoId ==> !IsSubscribe(calls[0].name.value))
       && calls[0].id !in taken && WellFormed(taken', rest)
    {
      forall i | 0 <= i < |calls|
        ensures calls[i].name.Some? && Allowed(calls[i].name.value)
        ensures calls[i].id == NoId ==> !IsSubscribe(calls[i].name.value)
        ensures calls[i].id != NoId ==> calls[i].id !in taken
      {
        assert i > 0 ==> calls[i] == rest[i - 1];
      }
      forall i, j | 0 <= i < j < |calls| && calls[i].id != NoId
        ensures calls[i].id != calls[j].id
      {
        assert calls[j] == rest[j - 1];
        assert i > 0 ==> calls[i] == rest[i - 1];
      }
    }
  }

  /** The call itself passes: allowlisted, matchable where it must be, and new. */
  predicate CallPasses(taken: set<RpcId>, c: Call) {
    && c.name.Some? && Allowed(c.name.value)
    && (c.id == NoId ==> !IsSubscribe(c.name.value)) && c.id !in taken
  }

  function NewSubs(c: Call): nat {
    if c.name.Some? && IsSubscribe(c.name.value) then 1 else 0
  }

  lemma ScreenStep(g: Gate, calls: seq<Call>, keys: set<RpcId>, newSubs: nat)
    requires calls != [] && NoId !in g.inflight && NoId !in keys
    requires |g.subs| + g.pendingSubs + newSubs <= RPC_MAX_SUBSCRIPTIONS
    ensures var subsNow := newSubs + NewSubs(calls[0]);
            if CallPasses(g.inflight.Keys + keys, calls[0]) && |g.subs| + g.pendingSubs + subsNow <= RPC_MAX_SUBSCRIPTIONS
            then Screen(g, calls, keys, newSubs) == Screen(g, calls[1..], With(keys, calls[0]), subsNow)
            else Screen(g, calls, keys, newSubs).Refuse?
  {
    hide IsSubscribe, Allowed;
  }

  lemma WellFormedFirst(taken: set<RpcId>, calls: seq<Call>)
    requires calls != [] && NoId !in taken
    ensures WellFormed(taken, calls) <==> CallPasses(taken, calls[0]) && WellFormed(With(taken, calls[0]), calls[1..])
  {
    hide IsSubscribe, Allowed, WellFormed;
    WellFormedStep(taken, calls);
    assert taken + {} == taken;
  }

  lemma CountStep(calls: seq<Call>)
    requires calls != []
    ensures CountSubs(calls) == NewSubs(calls[0]) + CountSubs(calls[1..])
  {
    hide IsSubscribe;
  }

  /** The screen clears a batch exactly when it is well-formed and within the subscription cap. */
  predicate ScreensRight(g: Gate, taken: set<RpcId>, calls: seq<Call>, keys: set<RpcId>, newSubs: nat) {
    var screened := Screen(g, calls, keys, newSubs);
    && (screened.Clear? <==>
          WellFormed(taken, calls) && |g.subs| + g.pendingSubs + newSubs + CountSubs(calls) <= RPC_MAX_SUBSCRIPTIONS)
    && (screened.Clear? ==> screened == Clear(keys + Ids(calls), newSubs + CountSubs(calls)))
  }

  /** One call of the screen, given the rest. */
  lemma ScreensRightStep(g: Gate, taken: set<RpcId>, calls: seq<Call>, keys: set<RpcId>, newSubs: nat)
    requires calls != [] && NoId !in g.inflight && NoId !in keys && taken == g.inflight.Keys + keys
    requires |g.subs| + g.pendingSubs + newSubs <= RPC_MAX_SUBSCRIPTIONS
    requires |g.subs| + g.pendingSubs + newSubs + NewSubs(calls[0]) <= RPC_MAX_SUBSCRIPTIONS ==>
               ScreensRight(g, With(taken, calls[0]), calls[1..], With(keys, calls[0]), newSubs + NewSubs(calls[0]))
    ensures ScreensRight(g, taken, calls, keys, newSubs)
  {
    hide Screen, WellFormed, Ids, CountSubs, CallPasses, NewSubs, With;
    ScreenStep(g, calls, keys, newSubs);
    WellFormedFirst(taken, calls);
    CountStep(calls);
    IdsStep(g.inflight.Keys, keys, calls);
  }

  lemma {:induction false} ScreenIsRight(g: Gate, taken: set<RpcId>, calls: seq<Call>, keys: set<RpcId>, newSubs: nat)
    requires NoId !in g.inflight && NoId !in keys && taken == g.inflight.Keys + keys
    requires |g.subs| + g.pendingSubs + newSubs <= RPC_MAX_SUBSCRIPTIONS
    ensures ScreensRight(g, taken, calls, keys, newSubs)
    decreases |calls|
  {
    hide ScreensRight, NewSubs, With;
    if calls == [] {
      ScreenNothing(g, keys, newSubs);
      assert ScreensRight(g, taken, [], keys, newSubs);
    } else {
      WithNoId(keys, calls[0]);
      IdsStep(g.inflight.Keys, keys, calls);
      if |g.subs| + g.pendingSubs + newSubs + NewSubs(calls[0]) <= RPC_MAX_SUBSCRIPTIONS {
        ScreenIsRight(g, With(taken, calls[0]), calls[1..], With(keys, calls[0]), newSubs + NewSubs(calls[0]));
      }
      ScreensRightStep(g, taken, calls, keys, newSubs);
    }
  }

  /** The one-pass screen clears exactly the well-formed batches within the subscription cap. */
  lemma ScreenMeaning(g: Gate, calls: seq<Call>)
    requires NoId !in g.inflight && |g.subs| + g.pendingSubs <= RPC_MAX_SUBSCRIPTIONS
    ensures var screened := Screen(g, calls, {}, 0);
            && (screened.Clear? <==> WellFormed(g.inflight.Keys, calls)
                                     && |g.subs| + g.pendingSubs + CountSubs(calls) <= RPC_MAX_SUBSCRIPTIONS)
            && (screened.Clear? ==> screened == Clear(Ids(calls), CountSubs(calls)))
  {
    hide Screen, WellFormed, Ids, CountSubs;
    assert g.inflight.Keys == g.inflight.Keys + {} && {} + Ids(calls) == Ids(calls);
    ScreenIsRight(g, g.inflight.Keys, calls, {}, 0);
  }

  lemma ScreenNothing(g: Gate, keys: set<RpcId>, newSubs: nat)
    requires |g.subs| + g.pendingSubs + newSubs <= RPC_MAX_SUBSCRIPTIONS
    ensures ScreensRight(g, g.inflight.Keys + keys, [], keys, newSubs)
  {
    assert keys + Ids([]) == keys;
  }

  /** The batch's ids once a call has been seen. */
  function With(keys: set<RpcId>, c: Call): set<RpcId> {
    if c.id == NoId then keys else keys + {c.id}
  }

  lemma WithNoId(keys: set<RpcId>, c: Call)
    requires NoId !in keys
    ensures NoId !in With(keys, c)
  {}

  lemma IdsStep(taken: set<RpcId>, keys: set<RpcId>, calls: seq<Call>)
    requires calls != []
    ensures keys + Ids(calls) == With(keys, calls[0]) + Ids(calls[1..])
    ensures taken + With(keys, calls[0]) == With(taken + keys, calls[0])
  {
    assert calls == [calls[0]] + calls[1..];
  }

  /** What a cleared batch adds to the accounting. */
  lemma {:induction false} TrackAllCounts(g: Gate, calls: seq<Call>)
    requires NoId !in g.inflight && WellFormed(g.inflight.Keys, calls) && Named(calls)
    ensures var g' := TrackAll(g, calls);
            && g'.subs == g.subs
            && g'.pendingSubs == g.pendingSubs + CountSubs(calls)
            && g'.inflight.Keys == g.inflight.Keys + Ids(calls)
            && Sum<RpcId, Entry>(g'.inflight, SubWeight) == Sum<RpcId, Entry>(g.inflight, SubWeight) + CountSubs(calls)
    decreases |calls|
  {
    hide IsSubscribe, Allowed, WellFormed;
    if calls == [] {
      assert Ids(calls) == {};
    } else {
      var c, g1 := calls[0], Track(g, calls[0]);
      WellFormedStep(g.inflight.Keys, calls);
      assert g1.inflight.Keys == g.inflight.Keys + (if c.id == NoId then {} else {c.id});
      assert calls == [c] + calls[1..];
      if c.id != NoId {
        SumUpdate<RpcId, Entry>(g.inflight, SubWeight, c.id, Entry(c.name.value, UnsubId(c)));
      }
      TrackAllCounts(g1, calls[1..]);
    }
  }

  /** A batch that fits is admitted without breaking either cap. */
  lemma TrackAllKeepsSound(g: Gate, calls: seq<Call>)
    requires Sound(g) && WellFormed(g.inflight.Keys, calls) && Named(calls)
    requires |g.subs| + g.pendingSubs + CountSubs(calls) <= RPC_MAX_SUBSCRIPTIONS
    requires |g.inflight| + |Ids(calls)| <= RPC_MAX_PENDING
    ensures Sound(TrackAll(g, calls))
  {
    TrackAllCounts(g, calls);
    var keys := TrackAll(g, calls).inflight.Keys;
    assert |keys| <= |g.inflight.Keys| + |Ids(calls)|;
  }

  // ---------------------------------------------------------------- the connection

  datatype Conn = Conn(
    gate: Gate, tokens: real, lastRefill: real,
    upstreamOpen: bool, closed: bool, buffered: seq<Frame>, sent: seq<Frame>)

  function NewConn(now: real): Conn {
    Conn(Gate(map[], {}, 0), RPC_BURST, now, false, false, [], [])
  }

  function Refill(tokens: real, lastRefill: real, now: real): real {
    var refilled := tokens + (now - lastRefill) / 1000.0 * RPC_PER_SEC;
    if RPC_BURST <= refilled then RPC_BURST else refilled
  }

  datatype Verdict = Accepted | Refused(id: RpcId, code: int)

  /** What the sockets do during one event: the client has stopped reading, a send throws. */
  datatype Sockets = Sockets(backedUp: bool, sendFails: bool)

  /** An error reply to a client that no longer reads closes both sides; one that fails is dropped. */
  function Reply(c: Conn, io: Sockets): Conn {
    if !c.closed && io.backedUp then c.(closed := true) else c
  }

  /** The checks before the rate limit. */
  function Gatekeep(g: Gate, f: Frame): Screened {
    if f.binary || f.bytes > RPC_MAX_FRAME_BYTES then Refuse(NoId, INVALID_REQUEST)
    else if f.calls.None? then Refuse(NoId, PARSE_ERROR)
    else if |f.calls.value| == 0 || |f.calls.value| > RPC_MAX_BATCH then Refuse(NoId, INVALID_REQUEST)
    else
      var screened := Screen(g, f.calls.value, {}, 0);
      if screened.Clear? && |g.inflight| + |screened.keys| > RPC_MAX_PENDING then Refuse(f.calls.value[0].id, LIMITED)
      else screened
  }

  lemma {:induction false} ClearedAreNamed(g: Gate, calls: seq<Call>, keys: set<RpcId>, newSubs: nat)
    requires Screen(g, calls, keys, newSubs).Clear?
    ensures Named(calls)
    decreases |calls|
  {
    hide IsSubscribe, Allowed;
    if calls != [] {
      var c := calls[0];
      var isSub := IsSubscribe(c.name.value);
      ClearedAreNamed(g, calls[1..], if c.id == NoId then keys else keys + {c.id}, if isSub then newSubs + 1 else newSubs);
      assert calls == [c] + calls[1..];
    }
  }

  datatype Handled = Handled(conn: Conn, verdict: Verdict)

  /** One frame from the client at a given clock reading. */
  function ClientFrame(c: Conn, f: Frame, now: real, io: Sockets): Handled {
    var screened := Gatekeep(c.gate, f);
    if screened.Refuse? then Handled(Reply(c, io), Refused(screened.id, screened.code))
    else
      ClearedAreNamed(c.gate, f.calls.value, {}, 0);
      var tokens := Refill(c.tokens, c.lastRefill, now);
      var refilled := c.(tokens := tokens, lastRefill := now);
      var calls := f.calls.value;
      if tokens < |calls| as real then Handled(Reply(refilled, io), Refused(calls[0].id, LIMITED))
      else Handled(Send(refilled.(tokens := tokens - |calls| as real, gate := TrackAll(c.gate, calls)), f, io), Accepted)
  }

  /** Forward, or hold until the upstream socket opens; a failed send or too many held frames close the connection. */
  function Send(c: Conn, f: Frame, io: Sockets): Conn {
    if c.upstreamOpen then (if io.sendFails then c.(closed := true) else c.(sent := c.sent + [f]))
    else if |c.buffered| >= RPC_MAX_PENDING then c.(closed := true)
    else c.(buffered := c.buffered + [f])
  }

  /** One frame from upstream: counted, then passed on, unless the client is gone or no longer reads. */
  function UpstreamFrame(c: Conn, ms: seq<Message>, io: Sockets): Conn {
    if c.closed then c
    else if io.backedUp then c.(closed := true)
    else c.(gate := NoteAll(c.gate, ms), closed := io.sendFails)
  }

  datatype Event =
    | FromClient(frame: Frame, now: real, io: Sockets)
    | FromUpstream(messages: seq<Message>, io: Sockets)
    | UpstreamOpen
    | Hangup                                     // either socket closes or fails

  function Step(c: Conn, e: Event): Conn {
    match e
    case FromClient(f, now, io) => ClientFrame(c, f, now, io).conn
    case FromUpstream(ms, io) => UpstreamFrame(c, ms, io)
    case UpstreamOpen => c.(upstreamOpen := true, sent := c.sent + c.buffered, buffered := [])
    case Hangup => c.(closed := true)
  }

  function RunEvents(c: Conn, events: seq<Event>): Conn
    decreases |events|
  {
    if events == [] then c else RunEvents(Step(c, events[0]), events[1..])
  }

  // ---------------------------------------------------------------- admission

  /** When a frame is let through, said without reference to the order of the checks. */
  predicate Admissible(c: Conn, f: Frame, now: real) {
    && !f.binary && f.bytes <= RPC_MAX_FRAME_BYTES
    && f.calls.Some? && 1 <= |f.calls.value| <= RPC_MAX_BATCH
    && WellFormed(c.gate.inflight.Keys, f.calls.value)
    && |c.gate.subs| + c.gate.pendingSubs + CountSubs(f.calls.value) <= RPC_MAX_SUBSCRIPTIONS
    && |c.gate.inflight| + |Ids(f.calls.value)| <= RPC_MAX_PENDING
    && |f.calls.value| as real <= Refill(c.tokens, c.lastRefill, now)
  }

  lemma GatekeepMeaning(g: Gate, f: Frame)
    requires Sound(g)
    ensures Gatekeep(g, f).Clear? <==>
            && !f.binary && f.bytes <= RPC_MAX_FRAME_BYTES
            && f.calls.Some? && 1 <= |f.calls.value| <= RPC_MAX_BATCH
            && WellFormed(g.inflight.Keys, f.calls.value)
            && |g.subs| + g.pendingSubs + CountSubs(f.calls.value) <= RPC_MAX_SUBSCRIPTIONS
            && |g.inflight| + |Ids(f.calls.value)| <= RPC_MAX_PENDING
  {
    hide Screen, WellFormed, CountSubs, Ids;
    if f.calls.Some? {
      ScreenMeaning(g, f.calls.value);
    }
  }

  /** A frame is accepted exactly when it is admissible. */
  lemma AcceptedMeaning(c: Conn, f: Frame, now: real, io: Sockets)
    requires Sound(c.gate)
    ensures ClientFrame(c, f, now, io).verdict == Accepted <==> Admissible(c, f, now)
  {
    hide Gatekeep, Refill, Sound;
    GatekeepMeaning(c.gate, f);
  }

  /** A refused frame or batch changes no accounting, forwards nothing and costs nothing; it may find the client gone. */
  lemma RefusedChangesNothing(c: Conn, f: Frame, now: real, io: Sockets)
    requires ClientFrame(c, f, now, io).verdict.Refused?
    ensures var c' := ClientFrame(c, f, now, io).conn;
            && c' == c.(tokens := c'.tokens, lastRefill := c'.lastRefill, closed := c.closed || io.backedUp)
            && ((c'.tokens, c'.lastRefill) == (c.tokens, c.lastRefill)
                || (c'.lastRefill == now && c'.tokens == Refill(c.tokens, c.lastRefill, now)))
  {
    hide Gatekeep, Refill;
  }

  // ---------------------------------------------------------------- every interleaving

  ghost predicate Inv(c: Conn) {
    Sound(c.gate) && (c.upstreamOpen ==> c.buffered == []) && |c.buffered| <= RPC_MAX_PENDING && c.tokens <= RPC_BURST
  }

  lemma StepKeepsInv(c: Conn, e: Event)
    requires Inv(c)
    ensures Inv(Step(c, e))
  {
    hide Sound, Gatekeep, NoteAll, TrackAll;
    match e {
      case FromClient(f, now, io) =>
        AcceptedMeaning(c, f, now, io);
        GatekeepMeaning(c.gate, f);
        if ClientFrame(c, f, now, io).verdict.Accepted? {
          ClearedFrameIsNamed(c.gate, f);
          TrackAllKeepsSound(c.gate, f.calls.value);
        }
      case FromUpstream(ms, _) => NoteAllKeepsSound(c.gate, ms);
      case UpstreamOpen =>
      case Hangup =>
    }
  }

  lemma ClearedFrameIsNamed(g: Gate, f: Frame)
    requires Gatekeep(g, f).Clear?
    ensures Named(f.calls.value)
  {
    ClearedAreNamed(g, f.calls.value, {}, 0);
  }

  /**
   Under any interleaving of client frames and upstream messages, honest or not: pendingSubs is the
   number of Subscribe calls in flight, at most 32 subscriptions are live or pending, at most 50
   calls are in flight.
   */
  lemma {:induction false} RunKeepsInv(c: Conn, events: seq<Event>)
    requires Inv(c)
    ensures Inv(RunEvents(c, events))
    decreases |events|
  {
    hide Inv, Step;
    if events != [] {
      StepKeepsInv(c, events[0]);
      RunKeepsInv(Step(c, events[0]), events[1..]);
    }
  }

  lemma NewConnInv(now: real)
    ensures Inv(NewConn(now))
  {}

  // ---------------------------------------------------------------- nothing lost, nothing reordered

  function AcceptedFrames(c: Conn, events: seq<Event>): seq<Frame>
    decreases |events|
  {
    if events == [] then []
    else (if events[0].FromClient? && ClientFrame(c, events[0].frame, events[0].now, events[0].io).verdict == Accepted
          then [events[0].frame] else [])
         + AcceptedFrames(Step(c, events[0]), events[1..])
  }

  /** While the connection lasts, upstream has received the accepted frames in order, up to those still held. */
  lemma {:induction false} ForwardedInOrder(c: Conn, events: seq<Event>)
    requires Inv(c) && !RunEvents(c, events).closed
    ensures var t := RunEvents(c, events);
            t.sent + t.buffered == c.sent + c.buffered + AcceptedFrames(c, events) && (t.upstreamOpen ==> t.buffered == [])
    decreases |events|
  {
    hide Inv;
    if events == [] {
      RunKeepsInv(c, events);
      OpenHoldsNothing(c);
    } else {
      StepKeepsInv(c, events[0]);
      ClosedStays(Step(c, events[0]), events[1..]);
      StepForwards(c, events[0]);
      ForwardedInOrder(Step(c, events[0]), events[1..]);
    }
  }

  lemma OpenHoldsNothing(c: Conn)
    requires Inv(c)
    ensures c.upstreamOpen ==> c.buffered == []
  {}

  lemma StepForwards(c: Conn, e: Event)
    requires Inv(c) && !Step(c, e).closed
    ensures var t := Step(c, e);
            t.sent + t.buffered == c.sent + c.buffered +
              if e.FromClient? && ClientFrame(c, e.frame, e.now, e.io).verdict == Accepted then [e.frame] else []
  {
    hide Gatekeep, TrackAll, NoteAll, Refill, Sound;
  }

  lemma {:induction false} ClosedStays(c: Conn, events: seq<Event>)
    ensures c.closed ==> RunEvents(c, events).closed
    decreases |events|
  {
    hide Gatekeep, TrackAll, NoteAll, Refill;
    if events != [] {
      ClosedStays(Step(c, events[0]), events[1..]);
    }
  }

  // ---------------------------------------------------------------- the rate bound

  /** The clock readings of a run's client frames, from `last` on, never go back and never pass `until`. */
  predicate ClockRuns(events: seq<Event>, last: real, until: real)
    decreases |events|
  {
    if events == [] then last <= until
    else if events[0].FromClient? then
      last <= events[0].now <= until && ClockRuns(events[1..], events[0].now, until)
    else ClockRuns(events[1..], last, until)
  }

  function Cost(c: Conn, e: Event): nat {
    if e.FromClient? && ClientFrame(c, e.frame, e.now, e.io).verdict == Accepted then |e.frame.calls.value| else 0
  }

  /** Calls forwarded or held over a run. */
  function AcceptedCalls(c: Conn, events: seq<Event>): nat
    decreases |events|
  {
    if events == [] then 0 else Cost(c, events[0]) + AcceptedCalls(Step(c, events[0]), events[1..])
  }

  /** Tokens the bucket could pay out by a given time. */
  function Credit(c: Conn, until: real): real {
    c.tokens + (until - c.lastRefill) / 1000.0 * RPC_PER_SEC
  }

  lemma StepSpends(c: Conn, e: Event, until: real)
    ensures Cost(c, e) as real + Credit(Step(c, e), until) <= Credit(c, until)
    ensures c.lastRefill <= until && e.FromClient? && e.now <= until ==> Step(c, e).lastRefill <= until
    ensures c.tokens >= 0.0 && e.FromClient? && c.lastRefill <= e.now ==>
              Step(c, e).tokens >= 0.0 && Step(c, e).lastRefill <= e.now
    ensures !e.FromClient? ==> Step(c, e).tokens == c.tokens && Step(c, e).lastRefill == c.lastRefill
  {
    hide Gatekeep, TrackAll, NoteAll;
  }

  lemma {:induction false} RunSpends(c: Conn, events: seq<Event>, last: real, until: real)
    requires 0.0 <= c.tokens && c.lastRefill <= last && ClockRuns(events, last, until)
    ensures AcceptedCalls(c, events) as real <= Credit(c, until)
    decreases |events|
  {
    hide Step, Cost;
    if events != [] {
      StepSpends(c, events[0], until);
      RunSpends(Step(c, events[0]), events[1..], if events[0].FromClient? then events[0].now else last, until);
    }
  }

  /** Every step leaves the bucket non-negative and filled no later than the clock. */
  lemma {:induction false} RunKeepsBucket(c: Conn, events: seq<Event>, last: real, until: real)
    requires 0.0 <= c.tokens && c.lastRefill <= last && ClockRuns(events, last, until)
    ensures 0.0 <= RunEvents(c, events).tokens && RunEvents(c, events).lastRefill <= until
    decreases |events|
  {
    hide Step;
    if events != [] {
      StepSpends(c, events[0], until);
      RunKeepsBucket(Step(c, events[0]), events[1..], if events[0].FromClient? then events[0].now else last, until);
    }
  }

  /** The first frame of a window starts with at most a full bucket, however long the silence before it. */
  lemma {:induction false} WindowSpends(c: Conn, events: seq<Event>, from: real, until: real)
    requires 0.0 <= c.tokens && c.lastRefill <= from && c.tokens <= RPC_BURST && ClockRuns(events, from, until)
    ensures AcceptedCalls(c, events) as real <= RPC_BURST + (until - from) / 1000.0 * RPC_PER_SEC
    decreases |events|
  {
    hide Gatekeep, TrackAll, NoteAll;
    if events == [] {
    } else if !events[0].FromClient? {
      WindowSpends(Step(c, events[0]), events[1..], from, until);
    } else {
      var now := events[0].now;
      var full := c.(tokens := Refill(c.tokens, c.lastRefill, now), lastRefill := now);
      StepSpends(c, events[0], until);
      var next := Step(c, events[0]);
      if next.lastRefill == now && next != c {
        RunSpends(next, events[1..], now, until);
        assert Cost(c, events[0]) as real + next.tokens <= RPC_BURST;
      } else {
        WindowSpends(next, events[1..], now, until);
      }
    }
  }

  /**
   In any window of d seconds at most 40 + 12 * d calls are accepted, whatever came before and
   whatever mix of accepted, refused and batched frames arrives.
   */
  lemma RateBound(start: real, before: seq<Event>, window: seq<Event>, from: real, d: real)
    requires ClockRuns(before, start, from) && ClockRuns(window, from, from + 1000.0 * d)
    ensures AcceptedCalls(RunEvents(NewConn(start), before), window) as real <= 40.0 + 12.0 * d
  {
    var c := NewConn(start);
    RunKeepsBucket(c, before, start, from);
    NewConnInv(start);
    RunKeepsInv(c, before);
    WindowSpends(RunEvents(c, before), window, from, from + 1000.0 * d);
  }
}
