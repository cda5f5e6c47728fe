/** One proxied connection as it runs: its maps, counters and buffer updated by the event handlers. */
module RpcConnection {
  import opened RpcGate

  class Connection {
    var inflight: map<RpcId, Entry>
    var subs: set<Value>
    var pendingSubs: int
    var tokens: real
    var lastRefill: real
    var upstreamOpen: bool
    var closed: bool
    var buffered: seq<Frame>
    var sent: seq<Frame>

    function Accounting(): Gate
      reads this
    {
      Gate(inflight, subs, pendingSubs)
    }

    function View(): Conn
      reads this
    {
      Conn(Accounting(), tokens, lastRefill, upstreamOpen, closed, buffered, sent)
    }

    constructor (now: real)
      ensures View() == NewConn(now)
    {
      inflight, subs, pendingSubs := map[], {}, 0;
      tokens, lastRefill := RPC_BURST, now;
      upstreamOpen, closed, buffered, sent := false, false, [], [];
    }

    /** The first loop over a batch. */
    method ScreenBatch(calls: seq<Call>) returns (r: Screened)
      ensures r == Screen(Accounting(), calls, {}, 0)
    {
      hide Allowed, IsSubscribe;
      var batchKeys: set<RpcId> := {};
      var newSubs := 0;
      for i := 0 to |calls|
        invariant Screen(Accounting(), calls, {}, 0) == Screen(Accounting(), calls[i..], batchKeys, newSubs)
      {
        var call := calls[i];
        assert calls[i..][0] == call && calls[i..][1..] == calls[i + 1..];
        if call.name.None? || !Allowed(call.name.value) {
          return Refuse(call.id, METHOD_NOT_ALLOWED);
        }
        var isSub := IsSubscribe(call.name.value);
        if if call.id == NoId then isSub else call.id in inflight || call.id in batchKeys {
          return Refuse(call.id, INVALID_REQUEST);
        }
        if call.id != NoId {
          batchKeys := batchKeys + {call.id};
        }
        if isSub {
          newSubs := newSubs + 1;
          if |subs| + pendingSubs + newSubs > RPC_MAX_SUBSCRIPTIONS {
            return Refuse(call.id, LIMITED);
          }
        }
      }
      return Clear(batchKeys, newSubs);
    }

    /** The second loop: every matchable call is now in flight. */
    method TrackBatch(calls: seq<Call>)
      requires Named(calls)
      modifies this`inflight, this`pendingSubs
      ensures Accounting() == TrackAll(old(Accounting()), calls)
    {
      hide IsSubscribe, IsUnsubscribe;
      for i := 0 to |calls|
        invariant TrackAll(Accounting(), calls[i..]) == TrackAll(old(Accounting()), calls)
      {
        var call := calls[i];
        assert calls[i..][0] == call && calls[i..][1..] == calls[i + 1..];
        if call.id != NoId {
          if IsSubscribe(call.name.value) {
            pendingSubs := pendingSubs + 1;
          }
          inflight := inflight[call.id := Entry(call.name.value, UnsubId(call))];
        }
      }
    }

    /** `rpcError`: tell the client, or close on one that no longer reads. */
    method RpcError(id: RpcId, code: int, io: Sockets) returns (verdict: Verdict)
      modifies this`closed
      ensures View() == Reply(old(View()), io) && verdict == Refused(id, code)
    {
      if !closed && io.backedUp {
        closed := true;
      }
      return Refused(id, code);
    }

    method OnClientMessage(f: Frame, now: real, io: Sockets) returns (verdict: Verdict)
      modifies this
      ensures Handled(View(), verdict) == ClientFrame(old(View()), f, now, io)
    {
      hide Screen, TrackAll;
      if f.binary || f.bytes > RPC_MAX_FRAME_BYTES {
        verdict := RpcError(NoId, INVALID_REQUEST, io);
        return;
      }
      if f.calls.None? {
        verdict := RpcError(NoId, PARSE_ERROR, io);
        return;
      }
      var calls := f.calls.value;
      if |calls| == 0 || |calls| > RPC_MAX_BATCH {
        verdict := RpcError(NoId, INVALID_REQUEST, io);
        return;
      }
      var screened := ScreenBatch(calls);
      if screened.Refuse? {
        verdict := RpcError(screened.id, screened.code, io);
        return;
      }
      if |inflight| + |screened.keys| > RPC_MAX_PENDING {
        verdict := RpcError(calls[0].id, LIMITED, io);
        return;
      }
      tokens := Refill(tokens, lastRefill, now);
      lastRefill := now;
      if tokens < |calls| as real {
        verdict := RpcError(calls[0].id, LIMITED, io);
        return;
      }
      tokens := tokens - |calls| as real;
      ClearedAreNamed(Accounting(), calls, {}, 0);
      TrackBatch(calls);
      if upstreamOpen {
        if io.sendFails {
          closed := true;
        } else {
          sent := sent + [f];
        }
      } else if |buffered| >= RPC_MAX_PENDING {
        closed := true;
      } else {
        buffered := buffered + [f];
      }
      return Accepted;
    }

    method NoteUpstream(messages: seq<Message>)
      modifies this`inflight, this`subs, this`pendingSubs
      ensures Accounting() == NoteAll(old(Accounting()), messages)
    {
      hide IsSubscribe, IsUnsubscribe;
      for i := 0 to |messages|
        invariant NoteAll(Accounting(), messages[i..]) == NoteAll(old(Accounting()), messages)
      {
        assert messages[i..][0] == messages[i] && messages[i..][1..] == messages[i + 1..];
        match messages[i] {
          case Null =>
          case SignatureNotification(received, subscription) =>
            if !received {
              subs := subs - {subscription};
            }
          case Answer(id, result, error) =>
            if id != NoId && id in inflight {
              var call := inflight[id];
              inflight := inflight - {id};
              if IsUnsubscribe(call.name) {
                if result == True {
                  subs := subs - {call.unsubId};
                }
              } else if IsSubscribe(call.name) {
                pendingSubs := pendingSubs - 1;
                if error == Undefined && result != Undefined {
                  subs := subs + {result};
                }
              }
            }
        }
      }
    }

    method OnUpstreamMessage(messages: seq<Message>, io: Sockets)
      modifies this
      ensures View() == UpstreamFrame(old(View()), messages, io)
    {
      if closed { return; }
      if io.backedUp {
        closed := true;
        return;
      }
      NoteUpstream(messages);
      if io.sendFails {
        closed := true;
      }
    }

    method OnUpstreamOpen()
      modifies this`upstreamOpen, this`sent, this`buffered
      ensures View() == Step(old(View()), UpstreamOpen)
    {
      upstreamOpen := true;
      var held := buffered;
      for i := 0 to |held|
        invariant upstreamOpen && sent == old(sent) + held[..i]
      {
        sent := sent + [held[i]];
        assert held[..i + 1] == held[..i] + [held[i]];
      }
      assert held[..|held|] == held;
      buffered := [];
    }

    /** Any event, and the accounting is sound after it. */
    method On(e: Event)
      requires Inv(View())
      modifies this
      ensures View() == Step(old(View()), e) && Inv(View())
    {
      hide Inv, ClientFrame, UpstreamFrame, NoteAll;
      StepKeepsInv(View(), e);
      match e {
        case FromClient(f, now, io) => var _ := OnClientMessage(f, now, io);
        case FromUpstream(messages, io) => OnUpstreamMessage(messages, io);
        case UpstreamOpen => OnUpstreamOpen();
        case Hangup => closed := true;
      }
    }
  }
}
