/**
 Where an event comes from, in any log whatever: cut at either end, unbalanced or forged. The scan's stack is
 bracket matching: a payload is taken exactly when the innermost call open at its line is the wanted program's.
 */
module LogOrigin {
  import opened Prelude
  import opened LogScan

  /** A line opens a call, closes one, or does neither. */
  function Turn(line: string): int {
    if ParseInvoke(line).Some? then 1 else if IsEnd(line) then -1 else 0
  }

  /** Opens less closes among the lines after j and before k. */
  function Net(lines: seq<string>, j: nat, k: nat): int
    requires j < k <= |lines|
  {
    if k == j + 1 then 0 else Net(lines, j, k - 1) + Turn(lines[k - 1])
  }

  /** The call opened by line j is still open at line i: its own close has not come. */
  predicate Open(lines: seq<string>, j: nat, i: nat)
    requires i <= |lines|
  {
    j < i && ParseInvoke(lines[j]).Some? && forall k | j < k <= i :: 0 <= Net(lines, j, k)
  }

  /** The innermost call open at line i is `want`'s. */
  ghost predicate Inside(lines: seq<string>, i: nat, want: string)
    requires i <= |lines|
  {
    exists j: nat :: Open(lines, j, i) && ParseInvoke(lines[j]).value == want && forall n: nat | j < n < i :: !Open(lines, n, i)
  }

  /** The payloads of the data lines from i on that are inside `want`, in order. */
  ghost function Emitted<E>(lines: seq<string>, i: nat, want: string, decode: string -> Option<E>): seq<E>
    requires i <= |lines|
    decreases |lines| - i
  {
    if i == |lines| then []
    else
      (if Turn(lines[i]) == 0 && IsData(lines[i]) && Inside(lines, i, want) then Decoded(decode, Payload(lines[i])) else [])
      + Emitted(lines, i + 1, want, decode)
  }

  // ---------------------------------------------------------------- the stack is the open calls

  /** The stack before line i is the ids of some calls open there, in order, `at` the lines that opened them. */
  predicate Lists(lines: seq<string>, i: nat, stack: seq<string>, at: seq<nat>)
    requires i <= |lines|
  {
    && |at| == |stack|
    && (forall m | 0 <= m < |at| :: at[m] < i && ParseInvoke(lines[at[m]]) == Some(stack[m]))
    && (forall m | 0 <= m < |at| :: at[m] < i && Open(lines, at[m], i) && Net(lines, at[m], i) == |at| - 1 - m)
    && (forall m, n | 0 <= m < n < |at| :: at[m] < at[n])
  }

  /** And of all of them. */
  ghost predicate Covers(lines: seq<string>, i: nat, at: seq<nat>)
    requires i <= |lines|
  {
    forall j: nat | Open(lines, j, i) :: j in at
  }

  ghost predicate Tracks(lines: seq<string>, i: nat, stack: seq<string>, at: seq<nat>)
    requires i <= |lines|
  {
    Lists(lines, i, stack, at) && Covers(lines, i, at)
  }

  lemma OpenLater(lines: seq<string>, j: nat, i: nat)
    requires i < |lines| && j < i
    ensures Net(lines, j, i + 1) == Net(lines, j, i) + Turn(lines[i])
    ensures Open(lines, j, i + 1) <==> Open(lines, j, i) && 0 <= Net(lines, j, i + 1)
  {
    if Open(lines, j, i) && 0 <= Net(lines, j, i + 1) {
      forall k | j < k <= i + 1
        ensures 0 <= Net(lines, j, k)
      {
      }
    }
  }

  lemma JustOpened(lines: seq<string>, i: nat)
    requires i < |lines|
    ensures Open(lines, i, i + 1) <==> ParseInvoke(lines[i]).Some?
    ensures Net(lines, i, i + 1) == 0
  {}

  lemma OpenBefore(lines: seq<string>, j: nat, i: nat)
    requires i <= |lines| && Open(lines, j, i)
    ensures j < i
  {}

  lemma ListsInvoke(lines: seq<string>, i: nat, stack: seq<string>, at: seq<nat>)
    requires i < |lines| && Lists(lines, i, stack, at) && ParseInvoke(lines[i]).Some?
    ensures Lists(lines, i + 1, stack + [ParseInvoke(lines[i]).value], at + [i])
  {
    var at', stack' := at + [i], stack + [ParseInvoke(lines[i]).value];
    JustOpened(lines, i);
    forall m | 0 <= m < |at'|
      ensures at'[m] < i + 1 && ParseInvoke(lines[at'[m]]) == Some(stack'[m])
      ensures Open(lines, at'[m], i + 1) && Net(lines, at'[m], i + 1) == |at'| - 1 - m
    {
      if m < |at| {
        OpenLater(lines, at[m], i);
      }
    }
    hide Net, Open, ParseInvoke, IsEnd;
  }

  lemma CoversInvoke(lines: seq<string>, i: nat, at: seq<nat>)
    requires i < |lines| && Covers(lines, i, at)
    ensures Covers(lines, i + 1, at + [i])
  {
    hide Net, ParseInvoke, IsEnd;
    forall j: nat | Open(lines, j, i + 1)
      ensures j in at + [i]
    {
      if j < i {
        OpenLater(lines, j, i);
      }
    }
  }

  lemma ListsEnd(lines: seq<string>, i: nat, stack: seq<string>, at: seq<nat>)
    requires i < |lines| && Lists(lines, i, stack, at) && Turn(lines[i]) == -1
    ensures Lists(lines, i + 1, Pop(stack), if at == [] then [] else at[..|at| - 1])
  {
    hide Net, ParseInvoke, IsEnd, Open;
    var at', stack' := if at == [] then [] else at[..|at| - 1], Pop(stack);
    forall m | 0 <= m < |at'|
      ensures at'[m] < i + 1 && ParseInvoke(lines[at'[m]]) == Some(stack'[m])
      ensures Open(lines, at'[m], i + 1) && Net(lines, at'[m], i + 1) == |at'| - 1 - m
    {
      OpenLater(lines, at[m], i);
    }
  }

  /** The innermost call closes; every other is covered as before. */
  lemma CoversEnd(lines: seq<string>, i: nat, stack: seq<string>, at: seq<nat>)
    requires i < |lines| && Lists(lines, i, stack, at) && Covers(lines, i, at) && Turn(lines[i]) == -1
    ensures Covers(lines, i + 1, if at == [] then [] else at[..|at| - 1])
  {
    hide Net, ParseInvoke, IsEnd, Turn;
    var at' := if at == [] then [] else at[..|at| - 1];
    forall j: nat | Open(lines, j, i + 1)
      ensures j in at'
    {
      JustClosed(lines, j, i);
      OpenLater(lines, j, i);
      var m :| 0 <= m < |at| && at[m] == j;
      assert at'[m] == j;
    }
  }

  lemma JustClosed(lines: seq<string>, j: nat, i: nat)
    requires i < |lines| && Open(lines, j, i + 1) && Turn(lines[i]) == -1
    ensures j < i
  {}

  lemma TracksOther(lines: seq<string>, i: nat, stack: seq<string>, at: seq<nat>)
    requires i < |lines| && Tracks(lines, i, stack, at) && Turn(lines[i]) == 0
    ensures Tracks(lines, i + 1, stack, at)
  {
    assert ParseInvoke(lines[i]).None?;
    hide Net, ParseInvoke, IsEnd, Turn;
    forall m | 0 <= m < |at|
      ensures Open(lines, at[m], i + 1) && Net(lines, at[m], i + 1) == |at| - 1 - m
    {
      OpenLater(lines, at[m], i);
    }
    forall j: nat | Open(lines, j, i + 1)
      ensures j in at
    {
      if j < i {
        OpenLater(lines, j, i);
      }
    }
  }

  /** No open call is later than the last one listed. */
  lemma LastIsLatest(lines: seq<string>, i: nat, stack: seq<string>, at: seq<nat>, j: nat)
    requires i <= |lines| && Tracks(lines, i, stack, at) && Open(lines, j, i)
    ensures at != [] && j <= at[|at| - 1]
  {
    hide Net, Open, ParseInvoke;
    var m :| 0 <= m < |at| && at[m] == j;
  }

  /** The top of the stack is the innermost open call. */
  lemma TopIsInnermost(lines: seq<string>, i: nat, stack: seq<string>, at: seq<nat>, want: string)
    requires i <= |lines| && Tracks(lines, i, stack, at)
    ensures OnTop(stack, want) <==> Inside(lines, i, want)
  {
    hide Net, Open, ParseInvoke;
    forall j: nat | Open(lines, j, i)
      ensures at != [] && j <= at[|at| - 1]
    {
      LastIsLatest(lines, i, stack, at, j);
    }
    if at != [] {
      var top := at[|at| - 1];
      assert Open(lines, top, i) && ParseInvoke(lines[top]) == Some(stack[|stack| - 1]);
    }
  }

  /** What one line yields, and the stack it leaves. */
  lemma LineEmits<E>(lines: seq<string>, i: nat, stack: seq<string>, at: seq<nat>, want: string, decode: string -> Option<E>)
    requires i < |lines| && Tracks(lines, i, stack, at)
    ensures ScanLine(lines[i], stack, want, decode).out ==
            if Turn(lines[i]) == 0 && IsData(lines[i]) && Inside(lines, i, want) then Decoded(decode, Payload(lines[i])) else []
  {
    hide ParseInvoke, IsEnd, IsData, Lists, Covers, Inside;
    TopIsInnermost(lines, i, stack, at, want);
  }

  /** The lines of the open calls once line i is read. */
  function NextAt(lines: seq<string>, i: nat, at: seq<nat>): seq<nat>
    requires i < |lines|
  {
    if Turn(lines[i]) == 1 then at + [i] else if Turn(lines[i]) == 0 || at == [] then at else at[..|at| - 1]
  }

  lemma TracksNext<E>(lines: seq<string>, i: nat, stack: seq<string>, at: seq<nat>, want: string, decode: string -> Option<E>)
    requires i < |lines| && Tracks(lines, i, stack, at)
    ensures Tracks(lines, i + 1, ScanLine(lines[i], stack, want, decode).stack, NextAt(lines, i, at))
  {
    hide ParseInvoke, IsEnd, IsData, Lists, Covers;
    if Turn(lines[i]) == 1 {
      ListsInvoke(lines, i, stack, at);
      CoversInvoke(lines, i, at);
    } else if Turn(lines[i]) == 0 {
      TracksOther(lines, i, stack, at);
    } else {
      ListsEnd(lines, i, stack, at);
      CoversEnd(lines, i, stack, at);
    }
  }

  lemma EmittedStep<E>(lines: seq<string>, i: nat, want: string, decode: string -> Option<E>)
    requires i < |lines|
    ensures Emitted(lines, i, want, decode) ==
            (if Turn(lines[i]) == 0 && IsData(lines[i]) && Inside(lines, i, want) then Decoded(decode, Payload(lines[i])) else [])
            + Emitted(lines, i + 1, want, decode)
  {
    hide Turn, IsData, Inside;
  }

  lemma {:induction false} ScanIsEmitted<E>(lines: seq<string>, i: nat, stack: seq<string>, at: seq<nat>,
                                            want: string, decode: string -> Option<E>)
    requires i <= |lines| && Tracks(lines, i, stack, at)
    ensures Scan(lines[i..], stack, want, decode).out == Emitted(lines, i, want, decode)
    decreases |lines| - i
  {
    if i < |lines| {
      hide *;
      ScanStep(lines, i, stack, want, decode);
      LineEmits(lines, i, stack, at, want, decode);
      TracksNext(lines, i, stack, at, want, decode);
      EmittedStep(lines, i, want, decode);
      ScanIsEmitted(lines, i + 1, ScanLine(lines[i], stack, want, decode).stack, NextAt(lines, i, at), want, decode);
    } else {
      assert lines[i..] == [];
    }
  }

  /**
   For every sequence of lines, the events are exactly the decodable payloads of the data lines whose innermost
   open call is the wanted program's, in order. A close without an open is ignored.
   */
  lemma EventsComeFromInside<E>(lines: seq<string>, want: string, decode: string -> Option<E>)
    ensures Scan(lines, [], want, decode).out == Emitted(lines, 0, want, decode)
  {
    assert lines[0..] == lines;
    assert Tracks(lines, 0, [], []);
    hide *;
    ScanIsEmitted(lines, 0, [], [], want, decode);
  }
}
