/**
 Rebuilding the invoke stack from a transaction's log lines. The scan is proved to invert execution:
 printed back, a forest of nested calls yields exactly the payloads the wanted program emitted itself.
 */
module LogScan {
  import opened Prelude

  // ---------------------------------------------------------------- the line patterns

  const PROGRAM: string := "Program "
  const INVOKE: string := " invoke ["
  const SUCCESS: string := " success"
  const FAILED: string := " failed"
  const PROGRAM_DATA_PREFIX: string := "Program data: "

  predicate IsBase58(c: char) {
    '1' <= c <= '9' || ('A' <= c <= 'Z' && c != 'I' && c != 'O') || ('a' <= c <= 'z' && c != 'l')
  }

  predicate IsDigit(c: char) { '0' <= c <= '9' }

  predicate AllDigits(s: string) {
    s != [] && forall c | c in s :: IsDigit(c)
  }

  predicate IsId(s: string) {
    32 <= |s| <= 44 && forall c | c in s :: IsBase58(c)
  }

  predicate StartsWith(s: string, prefix: string) {
    |prefix| <= |s| && s[..|prefix|] == prefix
  }

  /** What INVOKE_RE matches. */
  function InvokeLine(id: string, depth: string): string {
    PROGRAM + id + INVOKE + depth + "]"
  }

  /** What END_RE matches, with anything after it. */
  function EndLine(id: string, verdict: string, rest: string): string {
    PROGRAM + id + verdict + rest
  }

  ghost predicate MatchesInvoke(line: string, id: string) {
    IsId(id) && exists depth :: AllDigits(depth) && line == InvokeLine(id, depth)
  }

  ghost predicate MatchesEnd(line: string) {
    exists id, rest :: IsId(id) && (line == EndLine(id, SUCCESS, rest) || line == EndLine(id, FAILED, rest))
  }

  /** The length of the longest base-58 prefix. */
  function IdRun(s: string): (n: nat)
    ensures n <= |s| && (forall i | 0 <= i < n :: IsBase58(s[i])) && (n < |s| ==> !IsBase58(s[n]))
  {
    if s == "" || !IsBase58(s[0]) then 0 else 1 + IdRun(s[1..])
  }

  /** The program id of a line that names one, and what follows it. */
  datatype Named = Named(id: string, rest: string)

  function ParseId(line: string): Option<Named> {
    if !StartsWith(line, PROGRAM) then None
    else
      var tail := line[|PROGRAM|..];
      var n := IdRun(tail);
      if 32 <= n <= 44 then Some(Named(tail[..n], tail[n..])) else None
  }

  predicate ClosesDepth(s: string) {
    s != "" && s[|s| - 1] == ']' && AllDigits(s[..|s| - 1])
  }

  function ParseInvoke(line: string): Option<string> {
    match ParseId(line)
    case None => None
    case Some(Named(id, rest)) =>
      if StartsWith(rest, INVOKE) && ClosesDepth(rest[|INVOKE|..]) then Some(id) else None
  }

  predicate IsEnd(line: string) {
    match ParseId(line)
    case None => false
    case Some(Named(_, rest)) => StartsWith(rest, SUCCESS) || StartsWith(rest, FAILED)
  }

  predicate IsData(line: string) { StartsWith(line, PROGRAM_DATA_PREFIX) }

  // ---------------------------------------------------------------- the patterns mean what they say

  /** A base-58 id followed by a space is the whole run. */
  lemma {:induction false} IdRunStops(id: string, rest: string)
    requires (forall c | c in id :: IsBase58(c)) && StartsWith(rest, " ")
    ensures IdRun(id + rest) == |id|
  {
    if id == "" {
      assert (id + rest)[0] == ' ';
    } else {
      assert (id + rest)[1..] == id[1..] + rest;
      IdRunStops(id[1..], rest);
    }
  }

  lemma ParseIdMeaning(line: string, id: string, rest: string)
    ensures ParseId(line) == Some(Named(id, rest)) ==> IsId(id) && line == PROGRAM + id + rest
    ensures IsId(id) && StartsWith(rest, " ") && line == PROGRAM + id + rest ==> ParseId(line) == Some(Named(id, rest))
  {
    if ParseId(line) == Some(Named(id, rest)) {
      assert line == line[..|PROGRAM|] + line[|PROGRAM|..];
    }
    if IsId(id) && StartsWith(rest, " ") && line == PROGRAM + id + rest {
      assert line == PROGRAM + (id + rest);
      assert line[|PROGRAM|..] == id + rest;
      IdRunStops(id, rest);
    }
  }

  /** The parser recognises exactly the lines of the invoke pattern. */
  lemma ParseInvokeMeaning(line: string, id: string)
    ensures ParseInvoke(line) == Some(id) <==> MatchesInvoke(line, id)
  {
    hide IsId, ParseId;
    if ParseInvoke(line) == Some(id) {
      var rest := ParseId(line).value.rest;
      ParseIdMeaning(line, id, rest);
      var depth := rest[|INVOKE|..|rest| - 1];
      assert rest == INVOKE + depth + "]";
      assert line == InvokeLine(id, depth);
      assert rest[|INVOKE|..][..|rest[|INVOKE|..]| - 1] == depth;
    }
    if MatchesInvoke(line, id) {
      var depth :| AllDigits(depth) && line == InvokeLine(id, depth);
      var rest := INVOKE + depth + "]";
      assert line == PROGRAM + id + rest;
      ParseIdMeaning(line, id, rest);
      assert rest[|INVOKE|..] == depth + "]";
      assert (depth + "]")[..|depth|] == depth;
    }
  }

  lemma IsEndMeaning(line: string)
    ensures IsEnd(line) <==> MatchesEnd(line)
  {
    hide IsId, ParseId;
    if IsEnd(line) {
      var Named(id, rest) := ParseId(line).value;
      ParseIdMeaning(line, id, rest);
      var verdict := if StartsWith(rest, SUCCESS) then SUCCESS else FAILED;
      assert rest == verdict + rest[|verdict|..];
      assert line == EndLine(id, verdict, rest[|verdict|..]);
    }
    if MatchesEnd(line) {
      var id, rest :| IsId(id) && (line == EndLine(id, SUCCESS, rest) || line == EndLine(id, FAILED, rest));
      var verdict := if line == EndLine(id, SUCCESS, rest) then SUCCESS else FAILED;
      assert line == PROGRAM + id + (verdict + rest);
      ParseIdMeaning(line, id, verdict + rest);
    }
  }

  // ---------------------------------------------------------------- the scan

  datatype Scanned<E> = Scanned(out: seq<E>, stack: seq<string>)

  function Pop(stack: seq<string>): seq<string> {
    if stack == [] then [] else stack[..|stack| - 1]
  }

  predicate OnTop(stack: seq<string>, id: string) {
    stack != [] && stack[|stack| - 1] == id
  }

  function Payload(line: string): string
    requires IsData(line)
  {
    line[|PROGRAM_DATA_PREFIX|..]
  }

  function Decoded<E>(decode: string -> Option<E>, payload: string): seq<E> {
    match decode(payload)
    case None => []
    case Some(e) => [e]
  }

  /** One line. `decode` is `None` where the payload is short, unknown or malformed. */
  function ScanLine<E>(line: string, stack: seq<string>, want: string, decode: string -> Option<E>): Scanned<E> {
    var invoke := ParseInvoke(line);
    if invoke.Some? then Scanned([], stack + [invoke.value])
    else if IsEnd(line) then Scanned([], Pop(stack))
    else if IsData(line) && OnTop(stack, want) then Scanned(Decoded(decode, Payload(line)), stack)
    else Scanned([], stack)
  }

  function Scan<E>(lines: seq<string>, stack: seq<string>, want: string, decode: string -> Option<E>): Scanned<E>
    decreases |lines|
  {
    if lines == [] then Scanned([], stack)
    else
      var first := ScanLine(lines[0], stack, want, decode);
      var rest := Scan(lines[1..], first.stack, want, decode);
      Scanned(first.out + rest.out, rest.stack)
  }

  lemma ScanStep<E>(logs: seq<string>, i: nat, stack: seq<string>, want: string, decode: string -> Option<E>)
    requires i < |logs|
    ensures var first := ScanLine(logs[i], stack, want, decode);
            Scan(logs[i..], stack, want, decode).out == first.out + Scan(logs[i + 1..], first.stack, want, decode).out
  {
    hide ScanLine;
    assert logs[i..][1..] == logs[i + 1..];
  }

  /** The loop over the log, with its stack and its output. */
  method ExtractEventsFromLogs<E>(logs: seq<string>, want: string, decode: string -> Option<E>) returns (out: seq<E>)
    ensures out == Scan(logs, [], want, decode).out
  {
    hide ParseInvoke, IsEnd, IsData, Scan;
    assert logs[0..] == logs;
    out := [];
    var stack: seq<string> := [];
    for i := 0 to |logs|
      invariant Scan(logs, [], want, decode).out == out + Scan(logs[i..], stack, want, decode).out
    {
      var line := logs[i];
      ScanStep(logs, i, stack, want, decode);
      var invoke := ParseInvoke(line);
      if invoke.Some? {
        stack := stack + [invoke.value];
        continue;
      }
      if IsEnd(line) {
        if stack != [] {
          stack := stack[..|stack| - 1];
        }
        continue;
      }
      if !IsData(line) || !OnTop(stack, want) {
        continue;
      }
      var event := decode(Payload(line));
      if event.Some? {
        out := out + [event.value];
      }
    }
    assert Scan(logs[|logs|..], stack, want, decode).out == [] by { ScanNothing(logs, stack, want, decode); }
  }

  lemma ScanNothing<E>(logs: seq<string>, stack: seq<string>, want: string, decode: string -> Option<E>)
    ensures Scan(logs[|logs|..], stack, want, decode) == Scanned([], stack)
  {}

  lemma {:induction false} ScanAppend<E>(a: seq<string>, b: seq<string>, stack: seq<string>, want: string,
                                         decode: string -> Option<E>)
    ensures var first := Scan(a, stack, want, decode);
            var second := Scan(b, first.stack, want, decode);
            Scan(a + b, stack, want, decode) == Scanned(first.out + second.out, second.stack)
    decreases |a|
  {
    hide ScanLine;
    if a == [] {
      assert a + b == b;
    } else {
      assert (a + b)[1..] == a[1..] + b;
      ScanAppend(a[1..], b, ScanLine(a[0], stack, want, decode).stack, want, decode);
    }
  }

  // ---------------------------------------------------------------- executions and what they print

  /** A run of instructions at one level: data, other lines and nested calls, in execution order. */
  datatype Forest =
    | Done
    | Emit(payload: string, next: Forest)
    | Say(line: string, next: Forest)
    | Invoke(id: string, depth: string, body: Forest, failed: bool, reason: string, next: Forest)

  /** Ids are public keys, depths are numbers, and other lines are not of the three kinds. */
  predicate WellFormed(f: Forest) {
    match f
    case Done => true
    case Emit(_, next) => WellFormed(next)
    case Say(line, next) => Neutral(line) && WellFormed(next)
    case Invoke(id, depth, body, _, _, next) => IsId(id) && AllDigits(depth) && WellFormed(body) && WellFormed(next)
  }

  predicate Neutral(line: string) {
    ParseInvoke(line).None? && !IsEnd(line) && !IsData(line)
  }

  function Print(f: Forest): seq<string> {
    match f
    case Done => []
    case Emit(payload, next) => [PROGRAM_DATA_PREFIX + payload] + Print(next)
    case Say(line, next) => [line] + Print(next)
    case Invoke(id, depth, body, failed, reason, next) =>
      [InvokeLine(id, depth)] + Print(body) + [EndLine(id, if failed then FAILED else SUCCESS, reason)] + Print(next)
  }

  /** The decodable payloads emitted while `want` was the innermost program, in execution order. */
  function Emitted<E>(f: Forest, current: Option<string>, want: string, decode: string -> Option<E>): seq<E> {
    match f
    case Done => []
    case Emit(payload, next) =>
      (if current == Some(want) then Decoded(decode, payload) else []) + Emitted(next, current, want, decode)
    case Say(_, next) => Emitted(next, current, want, decode)
    case Invoke(id, _, body, _, _, next) => Emitted(body, Some(id), want, decode) + Emitted(next, current, want, decode)
  }

  function Top(stack: seq<string>): Option<string> {
    if stack == [] then None else Some(stack[|stack| - 1])
  }

  /** A `Program data:` line is neither an invoke nor an end: "data:" is no public key. */
  lemma DataLineIsData(payload: string)
    ensures var line := PROGRAM_DATA_PREFIX + payload;
            ParseInvoke(line).None? && !IsEnd(line) && IsData(line) && Payload(line) == payload
  {
    var line := PROGRAM_DATA_PREFIX + payload;
    ShortWordIsNoId(line, 4);
    assert line[..|PROGRAM_DATA_PREFIX|] == PROGRAM_DATA_PREFIX;
  }

  /** A line whose word after "Program " ends within 32 characters names no program. */
  lemma ShortWordIsNoId(line: string, k: nat)
    requires |PROGRAM| + k < |line| && k < 32 && !IsBase58(line[|PROGRAM| + k])
    ensures ParseId(line).None? && ParseInvoke(line).None? && !IsEnd(line)
  {
    if StartsWith(line, PROGRAM) {
      var tail := line[|PROGRAM|..];
      assert tail[k] == line[|PROGRAM| + k];
      assert IdRun(tail) <= k;
    }
  }

  lemma InvokeLineParses(id: string, depth: string)
    requires IsId(id) && AllDigits(depth)
    ensures ParseInvoke(InvokeLine(id, depth)) == Some(id)
  {
    ParseInvokeMeaning(InvokeLine(id, depth), id);
  }

  lemma EndLineParses(id: string, failed: bool, reason: string)
    requires IsId(id)
    ensures var line := EndLine(id, if failed then FAILED else SUCCESS, reason);
            ParseInvoke(line).None? && IsEnd(line)
  {
    hide IsId, ParseId;
    var verdict := if failed then FAILED else SUCCESS;
    var line := EndLine(id, verdict, reason);
    IsEndMeaning(line);
    assert line == PROGRAM + id + (verdict + reason);
    ParseIdMeaning(line, id, verdict + reason);
    assert (verdict + reason)[1] != INVOKE[1];
  }

  /**
   The scan inverts execution: over the printed lines of any forest it returns exactly the events
   the wanted program emitted while innermost, and leaves the stack as it found it.
   */
  lemma {:induction false} ScanInvertsPrint<E>(f: Forest, stack: seq<string>, want: string, decode: string -> Option<E>)
    requires WellFormed(f)
    ensures Scan(Print(f), stack, want, decode) == Scanned(Emitted(f, Top(stack), want, decode), stack)
    decreases f
  {
    hide ParseInvoke, IsEnd, IsData, IsId, AllDigits, InvokeLine, EndLine;
    match f {
      case Done =>
      case Emit(payload, next) =>
        DataLineIsData(payload);
        ScanInvertsPrint(next, stack, want, decode);
      case Say(line, next) =>
        ScanInvertsPrint(next, stack, want, decode);
      case Invoke(id, depth, body, failed, reason, next) =>
        var open, close := InvokeLine(id, depth), EndLine(id, if failed then FAILED else SUCCESS, reason);
        InvokeLineParses(id, depth);
        EndLineParses(id, failed, reason);
        ScanInvertsPrint(body, stack + [id], want, decode);
        ScanInvertsPrint(next, stack, want, decode);
        assert Pop(stack + [id]) == stack;
        ScanCall(open, Print(body), close, Print(next), stack, id, want, decode);
    }
  }

  /** A call's lines push its id, scan its body under it, pop it, and go on. */
  lemma ScanCall<E>(open: string, body: seq<string>, close: string, next: seq<string>,
                    stack: seq<string>, id: string, want: string, decode: string -> Option<E>)
    requires ParseInvoke(open) == Some(id) && ParseInvoke(close).None? && IsEnd(close)
    requires Scan(body, stack + [id], want, decode).stack == stack + [id]
    ensures Scan([open] + body + [close] + next, stack, want, decode) ==
            Scanned(Scan(body, stack + [id], want, decode).out + Scan(next, stack, want, decode).out,
                    Scan(next, stack, want, decode).stack)
  {
    hide ParseInvoke, IsEnd, IsData;
    var lines := [open] + body + [close] + next;
    assert lines[0] == open && lines[1..] == body + ([close] + next);
    ScanAppend(body, [close] + next, stack + [id], want, decode);
    assert ([close] + next)[0] == close && ([close] + next)[1..] == next;
    assert Pop(stack + [id]) == stack;
  }

  /** A transaction's events, from its own log: the whole program in one statement. */
  lemma LogsGiveEvents<E>(f: Forest, want: string, decode: string -> Option<E>)
    requires WellFormed(f)
    ensures Scan(Print(f), [], want, decode) == Scanned(Emitted(f, None, want, decode), [])
  {
    ScanInvertsPrint(f, [], want, decode);
  }

  /** A log cut off anywhere yields a prefix of the events. */
  lemma TruncatedLogsGivePrefix<E>(f: Forest, kept: seq<string>, want: string, decode: string -> Option<E>)
    requires WellFormed(f) && kept <= Print(f)
    ensures Scan(kept, [], want, decode).out <= Emitted(f, None, want, decode)
  {
    LogsGiveEvents(f, want, decode);
    ScanAppend(kept, Print(f)[|kept|..], [], want, decode);
    assert Print(f) == kept + Print(f)[|kept|..];
  }

  // ---------------------------------------------------------------- what a program can say

  /** Whatever text a program logs, its line is neutral: it can neither open nor close a call, nor pass as data. */
  lemma LogLinesAreNeutral(text: string)
    ensures Neutral("Program log: " + text)
  {
    var line := "Program log: " + text;
    ShortWordIsNoId(line, 3);
    assert line[8] == 'l';
  }

  lemma ReturnLinesAreNeutral(text: string)
    ensures Neutral("Program return: " + text)
  {
    var line := "Program return: " + text;
    assert line[14] == ':';
    ShortWordIsNoId(line, 6);
    assert line[8] == 'r';
  }

  lemma ConsumedLinesAreNeutral(id: string, text: string)
    requires IsId(id)
    ensures Neutral(PROGRAM + id + (" consumed " + text))
  {
    hide ParseId, IsId, IsData, IsBase58, StartsWith;
    var rest := " consumed " + text;
    assert StartsWith(rest, " ") && !StartsWith(rest, INVOKE) && !StartsWith(rest, SUCCESS) && !StartsWith(rest, FAILED) by {
      OtherWord(rest);
    }
    ParseIdMeaning(PROGRAM + id + rest, id, rest);
    ProgramLineIsNotData(id, rest);
  }

  lemma OtherWord(rest: string)
    requires |rest| > 1 && rest[0] == ' ' && rest[1] !in {'i', 's', 'f'}
    ensures StartsWith(rest, " ") && !StartsWith(rest, INVOKE) && !StartsWith(rest, SUCCESS) && !StartsWith(rest, FAILED)
  {
    assert rest[..1] == " ";
  }

  lemma DataColon(line: string)
    ensures IsData(line) ==> |line| > 12 && line[12] == ':'
  {
    if IsData(line) {
      assert line[..|PROGRAM_DATA_PREFIX|][12] == ':';
    }
  }

  lemma ProgramLineIsNotData(id: string, rest: string)
    requires IsId(id)
    ensures !IsData(PROGRAM + id + rest)
  {
    var line := PROGRAM + id + rest;
    assert line[12] == id[4] && IsBase58(id[4]);
    DataColon(line);
  }
}
