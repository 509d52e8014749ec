/** packages/tui/src/stdin-buffer.ts: splitting terminal input into complete sequences, and bracketed paste. */
module StdinInput {
  import opened Common

  const ESC: char := '\U{001b}'
  const BEL: char := '\U{0007}'
  const BRACKETED_PASTE_START: string := [ESC] + "[200~"
  const BRACKETED_PASTE_END: string := [ESC] + "[201~"
  const STRING_TERMINATOR: string := [ESC, '\\']

  datatype Status = Complete | Incomplete | NotEscape

  predicate EndsWith(s: string, p: string) { |p| <= |s| && s[|s| - |p|..] == p }

  // ---------------------------------------------------------------- when is a sequence complete

  function IsCompleteSequence(data: string): Status {
    if data == [] || data[0] != ESC then NotEscape
    else if |data| == 1 then Incomplete
    else if data[1] == '[' then
      if |data| >= 3 && data[2] == 'M' then (if |data| >= 6 then Complete else Incomplete)
      else if IsCompleteCsi(data) then Complete else Incomplete
    else if data[1] == ']' then
      if EndsWith(data, STRING_TERMINATOR) || EndsWith(data, [BEL]) then Complete else Incomplete
    else if data[1] == 'P' || data[1] == '_' then
      if EndsWith(data, STRING_TERMINATOR) then Complete else Incomplete
    else if data[1] == 'O' then
      if |data| >= 3 then Complete else Incomplete
    else Complete
  }

  predicate IsCompleteCsi(data: string)
    requires |data| >= 2
  {
    |data| >= 3 &&
    var payload := data[2..];
    var last := payload[|payload| - 1];
    && '@' <= last <= '~'
    && (payload[0] == '<' ==> IsMouseReport(payload))
  }

  /** `<digits;digits;digits` closed by M or m. */
  predicate IsMouseReport(payload: string)
    requires |payload| >= 1
  {
    |payload| >= 2 &&
    var last := payload[|payload| - 1];
    var parts := SplitAtSemicolons(payload[1..|payload| - 1]);
    && (last == 'M' || last == 'm')
    && |parts| == 3
    && forall i :: 0 <= i < 3 ==> IsNumber(parts[i])
  }

  predicate IsNumber(s: string) {
    s != [] && forall i :: 0 <= i < |s| ==> '0' <= s[i] <= '9'
  }

  function SplitAtSemicolons(s: string): (parts: seq<string>)
    ensures |parts| >= 1
  {
    if s == [] then [[]]
    else
      var rest := SplitAtSemicolons(s[1..]);
      if s[0] == ';' then [[]] + rest else [[s[0]] + rest[0]] + rest[1..]
  }

  // ---------------------------------------------------------------- extraction

  predicate IsIntroducer(c: char) { c in "[]OP_" }

  /** Length of the shortest complete prefix of s that is at least n long. */
  function FirstComplete(s: string, n: nat): (r: Option<nat>)
    requires s != [] && s[0] == ESC && n >= 1
    ensures r.Some? ==> n <= r.value <= |s| && IsCompleteSequence(s[..r.value]) == Complete
    ensures forall k :: n <= k <= |s| && (r.Some? ==> k < r.value) ==> IsCompleteSequence(s[..k]) != Complete
    decreases |s| + 1 - n
  {
    if n > |s| then None
    else if IsCompleteSequence(s[..n]) == Complete then Some(n)
    else FirstComplete(s, n + 1)
  }

  /** Length of the first token of s, if s starts with a whole one. */
  function TokenLength(s: string): (r: Option<nat>)
    requires s != []
    ensures r.Some? ==> 1 <= r.value <= |s|
  {
    if s[0] != ESC then Some(1)
    else
      match FirstComplete(s, 1)
      case None => None
      case Some(n) => if s[..n] == [ESC, ESC] && n < |s| && IsIntroducer(s[n]) then Some(1) else Some(n)
  }

  datatype Extracted = Extracted(sequences: seq<string>, remainder: string)

  function Extract(s: string): Extracted
    decreases |s|
  {
    if s == [] then Extracted([], [])
    else
      match TokenLength(s)
      case None => Extracted([], s)
      case Some(k) => Cons(s[..k], Extract(s[k..]))
  }

  function Cons(token: string, e: Extracted): Extracted {
    Extracted([token] + e.sequences, e.remainder)
  }

  method ExtractCompleteSequences(buffer: string) returns (sequences: seq<string>, remainder: string)
    ensures Extracted(sequences, remainder) == Extract(buffer)
  {
    sequences := [];
    var remaining := buffer;
    while remaining != []
      invariant ExtractOnto(sequences, remaining) == ExtractOnto([], buffer)
      decreases |remaining|
    {
      var length := NextToken(remaining);
      if length.None? {
        OntoAppends([], buffer);
        return sequences, remaining;
      }
      sequences, remaining := sequences + [remaining[..length.value]], remaining[length.value..];
    }
    OntoAppends([], buffer);
    return sequences, [];
  }

  /** Extraction with the sequences found so far. */
  function ExtractOnto(known: seq<string>, s: string): Extracted
    decreases |s|
  {
    if s == [] then Extracted(known, [])
    else
      match TokenLength(s)
      case None => Extracted(known, s)
      case Some(k) => ExtractOnto(known + [s[..k]], s[k..])
  }

  lemma {:induction false} OntoAppends(known: seq<string>, s: string)
    ensures ExtractOnto(known, s) == Extracted(known + Extract(s).sequences, Extract(s).remainder)
    ensures known == [] ==> ExtractOnto(known, s) == Extract(s)
    decreases |s|
  {
    assert known + [] == known;
    if s != [] && TokenLength(s).Some? {
      var k := TokenLength(s).value;
      OntoAppends(known + [s[..k]], s[k..]);
      assert known + [s[..k]] + Extract(s[k..]).sequences == known + ([s[..k]] + Extract(s[k..]).sequences);
    }
    assert [] + Extract(s).sequences == Extract(s).sequences;
  }

  method NextToken(remaining: string) returns (length: Option<nat>)
    requires remaining != []
    ensures length == TokenLength(remaining)
  {
    if remaining[0] == ESC {
      length := FindSequence(remaining);
    } else {
      length := Some(1);  // an ordinary character stands for itself
    }
  }

  /** Grows the candidate until it is complete; ESC ESC before an introducer gives up only its first ESC. */
  method FindSequence(remaining: string) returns (length: Option<nat>)
    requires remaining != [] && remaining[0] == ESC
    ensures length == TokenLength(remaining)
  {
    var seqEnd := 1;
    while seqEnd <= |remaining|
      invariant 1 <= seqEnd
      invariant FirstComplete(remaining, seqEnd) == FirstComplete(remaining, 1)
      decreases |remaining| - seqEnd
    {
      var candidate := remaining[..seqEnd];
      if IsCompleteSequence(candidate) == Complete {
        if candidate == [ESC, ESC] && seqEnd < |remaining| && IsIntroducer(remaining[seqEnd]) {
          return Some(1);
        }
        return Some(seqEnd);
      }
      seqEnd := seqEnd + 1;
    }
    return None;
  }

  lemma TokenRejoins(s: string, k: nat, f: Extracted)
    requires k <= |s| && Flatten(f.sequences) + f.remainder == s[k..]
    ensures Flatten(Cons(s[..k], f).sequences) + f.remainder == s
  {
    FlattenCons(s[..k], f.sequences, f.remainder);
    assert s == s[..k] + s[k..];
  }

  lemma {:induction false} TokensRejoin(s: string)
    ensures Flatten(Extract(s).sequences) + Extract(s).remainder == s
    decreases |s|
  {
    if s != [] && TokenLength(s).Some? {
      var k := TokenLength(s).value;
      TokensRejoin(s[k..]);
      TokenRejoins(s, k, Extract(s[k..]));
    }
  }

  lemma {:induction false} TokensAreWhole(s: string)
    ensures var e := Extract(s);
            && (forall i :: 0 <= i < |e.sequences| ==> e.sequences[i] != [])
            && (e.remainder != [] ==> TokenLength(e.remainder) == None)
    decreases |s|
  {
    if s != [] && TokenLength(s).Some? { TokensAreWhole(s[TokenLength(s).value..]); }
  }

  /** Nothing is lost, no token is empty, and what is left over is empty or an escape sequence still incomplete. */
  lemma ExtractionIsLossless(s: string)
    ensures var e := Extract(s);
            && Flatten(e.sequences) + e.remainder == s
            && (forall i :: 0 <= i < |e.sequences| ==> e.sequences[i] != [])
            && (e.remainder != [] ==> e.remainder[0] == ESC && FirstComplete(e.remainder, 1) == None)
  {
    TokensRejoin(s);
    TokensAreWhole(s);
  }

  function Join(e: Extracted, b: string): Extracted {
    var f := Extract(e.remainder + b);
    Extracted(e.sequences + f.sequences, f.remainder)
  }

  /** a ends in an emitted ESC ESC and b opens a sequence: the one place where the splitter looks ahead. */
  predicate SplitsDoubleEscape(a: string, b: string) {
    var e := Extract(a);
    && e.remainder == []
    && e.sequences != [] && e.sequences[|e.sequences| - 1] == [ESC, ESC]
    && b != [] && IsIntroducer(b[0])
  }

  /** Extracting a + b is extracting a and then its remainder with b, exactly when no double escape is split. */
  lemma {:induction false} ExtractionComposes(a: string, b: string)
    ensures Extract(a + b) == Join(Extract(a), b) <==> !SplitsDoubleEscape(a, b)
    decreases |a|
  {
    if a == [] {
      assert a + b == b && [] + b == b;
      assert [] + Extract(b).sequences == Extract(b).sequences;
    } else {
      var t := TokenLength(a);
      if t.None? {
        assert [] + Extract(a + b).sequences == Extract(a + b).sequences;
      } else {
        var k := t.value;
        var tail := a[k..];
        TokenWithMore(a, b);
        if a == [ESC, ESC] && b != [] && IsIntroducer(b[0]) {
          DoubleEscapeSplit(b);
        } else {
          assert (a + b)[..k] == a[..k] && (a + b)[k..] == tail + b;
          ExtractionComposes(tail, b);
          assert Extract(a + b) == Cons(a[..k], Extract(tail + b));
          ConsJoin(a[..k], Extract(tail), b);
          ConsInjective(a[..k], Extract(tail + b), Join(Extract(tail), b));
          LastToken(a, k);
        }
      }
    }
  }

  lemma ConsJoin(token: string, e: Extracted, b: string)
    ensures Join(Cons(token, e), b) == Cons(token, Join(e, b))
  {
    var f := Extract(e.remainder + b);
    assert [token] + e.sequences + f.sequences == [token] + (e.sequences + f.sequences);
  }

  lemma ConsInjective(token: string, e: Extracted, f: Extracted)
    ensures Cons(token, e) == Cons(token, f) <==> e == f
  {
    if Cons(token, e) == Cons(token, f) {
      assert ([token] + e.sequences)[1..] == ([token] + f.sequences)[1..];
    }
  }

  lemma LastToken(a: string, k: nat)
    requires a != [] && TokenLength(a) == Some(k)
    ensures var (e, f) := (Extract(a), Extract(a[k..]));
            e.remainder == f.remainder && e.sequences != [] &&
            e.sequences[|e.sequences| - 1] == if f.sequences == [] then a[..k] else f.sequences[|f.sequences| - 1]
  {
  }

  lemma {:induction false} FirstCompleteWithMore(a: string, b: string, n: nat)
    requires a != [] && a[0] == ESC && n >= 1
    ensures FirstComplete(a, n).Some? ==> FirstComplete(a + b, n) == FirstComplete(a, n)
    decreases |a| + 1 - n
  {
    if n <= |a| {
      assert (a + b)[..n] == a[..n];
      FirstCompleteWithMore(a, b, n + 1);
    }
  }

  lemma TokenWithMore(a: string, b: string)
    requires a != [] && TokenLength(a).Some?
    ensures !(a == [ESC, ESC] && b != [] && IsIntroducer(b[0])) ==> TokenLength(a + b) == TokenLength(a)
  {
    if a[0] == ESC {
      FirstCompleteWithMore(a, b, 1);
      var n := FirstComplete(a, 1).value;
      assert (a + b)[..n] == a[..n];
      if n < |a| { assert (a + b)[n] == a[n]; }
      else if n < |a + b| { assert (a + b)[n] == b[0] && a[..n] == a; }
    }
  }

  lemma DoubleEscapeSplit(b: string)
    requires b != [] && IsIntroducer(b[0])
    ensures var a := [ESC, ESC];
            SplitsDoubleEscape(a, b) && Extract(a + b) != Join(Extract(a), b)
  {
    var a: string := [ESC, ESC];
    assert a[..1] == [ESC] && a[..2] == a && (a + b)[..1] == [ESC] && (a + b)[..2] == a && (a + b)[2] == b[0];
    assert FirstComplete(a, 1) == FirstComplete(a, 2) == Some(2);
    FirstCompleteWithMore(a, b, 1);
    assert TokenLength(a) == Some(2) && TokenLength(a + b) == Some(1);
    assert Extract(a[2..]) == Extracted([], []);
    assert Extract(a).sequences == [a];
    assert Extract(a + b).sequences[0] == [ESC];
    assert Join(Extract(a), b).sequences[0] == a;
  }

  // ---------------------------------------------------------------- tokens by their shape

  predicate IsFinal(c: char) { '@' <= c <= '~' }

  /** The first token of an escape sequence is k long when k is the first length at which it is complete. */
  lemma FirstCompleteIs(s: string, k: nat)
    requires |s| >= 2 && s[0] == ESC && s[1] != ESC
    ensures TokenLength(s) == Some(k) <==>
            && 1 <= k <= |s| && IsCompleteSequence(s[..k]).Complete?
            && (forall j :: 1 <= j < k ==> !IsCompleteSequence(s[..j]).Complete?)
  {
    var r := FirstComplete(s, 1);
    if r.Some? && r.value >= 2 { assert s[..r.value][1] == s[1]; }
    if r.Some? && k >= 1 && k < r.value { assert IsCompleteSequence(s[..k]) != Complete; }
  }

  /** A control sequence ends at its first final byte (section 5.4 of ECMA-48). */
  lemma ControlSequenceToken(s: string, k: nat)
    requires |s| >= 3 && s[0] == ESC && s[1] == '[' && s[2] != 'M' && s[2] != '<'
    ensures TokenLength(s) == Some(k) <==>
            3 <= k <= |s| && IsFinal(s[k - 1]) && (forall j :: 2 <= j < k - 1 ==> !IsFinal(s[j]))
  {
    FirstCompleteIs(s, k);
    forall m | 1 <= m <= |s|
      ensures IsCompleteSequence(s[..m]).Complete? <==> m >= 3 && IsFinal(s[m - 1])
    {
      CsiComplete(s, m);
    }
    if 3 <= k <= |s| && forall j :: 1 <= j < k ==> !IsCompleteSequence(s[..j]).Complete? {
      forall j | 2 <= j < k - 1 ensures !IsFinal(s[j]) {
        assert !IsCompleteSequence(s[..j + 1]).Complete?;
      }
    }
  }

  lemma CsiComplete(s: string, m: nat)
    requires |s| >= 3 && s[0] == ESC && s[1] == '[' && s[2] != 'M' && s[2] != '<' && 1 <= m <= |s|
    ensures IsCompleteSequence(s[..m]).Complete? <==> m >= 3 && IsFinal(s[m - 1])
  {
    var d := s[..m];
    if m >= 3 { assert d[2..][0] == s[2] && d[2..][m - 3] == s[m - 1]; }
  }

  predicate EndsString(s: string, k: nat) {
    2 <= k <= |s| && ((s[k - 2] == ESC && s[k - 1] == '\\') || (s[1] == ']' && s[k - 1] == BEL))
  }

  /** A control string ends at its first string terminator (section 5.6 of ECMA-48); an OSC also at a BEL. */
  lemma ControlStringToken(s: string, k: nat)
    requires |s| >= 2 && s[0] == ESC && s[1] in "]P_"
    ensures TokenLength(s) == Some(k) <==>
            EndsString(s, k) && (forall j :: 2 <= j < k ==> !EndsString(s, j))
  {
    FirstCompleteIs(s, k);
    forall m | 1 <= m <= |s| ensures IsCompleteSequence(s[..m]).Complete? <==> EndsString(s, m) {
      StringComplete(s, m);
    }
  }

  lemma StringComplete(s: string, m: nat)
    requires |s| >= 2 && s[0] == ESC && s[1] in "]P_" && 1 <= m <= |s|
    ensures IsCompleteSequence(s[..m]).Complete? <==> EndsString(s, m)
  {
    var d := s[..m];
    if m >= 2 {
      assert d[m - 2..] == [s[m - 2], s[m - 1]] && d[m - 1..] == [s[m - 1]];
    }
  }

  /** Mouse reports in the old style are six long, single shifts three, any other escape pair two. */
  lemma FixedLengthToken(s: string)
    requires |s| >= 2 && s[0] == ESC && s[1] != ESC && (s[1] == '[' ==> |s| >= 3 && s[2] == 'M') && s[1] !in "]P_"
    ensures var n := if s[1] == '[' then 6 else if s[1] == 'O' then 3 else 2;
            TokenLength(s) == if |s| >= n then Some(n) else None
  {
    var n := if s[1] == '[' then 6 else if s[1] == 'O' then 3 else 2;
    forall m | 1 <= m <= |s| ensures IsCompleteSequence(s[..m]).Complete? <==> m >= n {
      if m >= 2 { assert s[..m][1] == s[1]; }
      if m >= 3 { assert s[..m][2] == s[2]; }
    }
    if |s| >= n { FirstCompleteIs(s, n); } else if TokenLength(s).Some? { FirstCompleteIs(s, TokenLength(s).value); }
  }

  lemma {:induction false} SplitAtFirst(a: string, rest: string)
    requires IsNumber(a) || a == []
    ensures SplitAtSemicolons(a + [';'] + rest) == [a] + SplitAtSemicolons(rest)
  {
    var s := a + [';'] + rest;
    if a == [] {
      assert s[1..] == rest;
    } else {
      assert s[1..] == a[1..] + [';'] + rest;
      SplitAtFirst(a[1..], rest);
      assert [a[0]] + a[1..] == a;
    }
  }

  lemma {:induction false} SplitNumber(a: string)
    requires IsNumber(a) || a == []
    ensures SplitAtSemicolons(a) == [a]
  {
    if a != [] {
      SplitNumber(a[1..]);
      assert [a[0]] + a[1..] == a;
    }
  }

  function Rejoin(parts: seq<string>): string {
    if parts == [] then [] else if |parts| == 1 then parts[0] else parts[0] + [';'] + Rejoin(parts[1..])
  }

  lemma {:induction false} SplitRejoins(s: string)
    ensures Rejoin(SplitAtSemicolons(s)) == s
  {
    if s != [] {
      var rest := SplitAtSemicolons(s[1..]);
      SplitRejoins(s[1..]);
      var parts := SplitAtSemicolons(s);
      if s[0] == ';' {
        assert parts[1..] == rest;
      } else if |rest| > 1 {
        assert parts[1..] == rest[1..];
      }
    }
  }

  function MouseReport(a: string, b: string, c: string, last: char): string {
    ['<'] + (a + [';'] + (b + [';'] + c)) + [last]
  }

  /** Mouse reports of the new style are exactly `<a;b;c` with decimal numbers, closed by M or m. */
  lemma MouseReportShape(payload: string) returns (a: string, b: string, c: string)
    requires IsSgrReport(payload)
    ensures IsNumber(a) && IsNumber(b) && IsNumber(c)
    ensures payload == MouseReport(a, b, c, payload[|payload| - 1]) && payload[|payload| - 1] in "Mm"
  {
    var inner := payload[1..|payload| - 1];
    var parts := SplitAtSemicolons(inner);
    SplitRejoins(inner);
    a, b, c := parts[0], parts[1], parts[2];
    assert parts[1..][1..] == [c] && parts[1..][0] == b;
    assert Rejoin(parts[1..]) == b + [';'] + c;
    assert inner == a + [';'] + (b + [';'] + c);
    assert payload == ['<'] + inner + [payload[|payload| - 1]];
  }

  predicate IsSgrReport(payload: string) { |payload| >= 1 && payload[0] == '<' && IsMouseReport(payload) }

  lemma MouseReportAccepted(a: string, b: string, c: string, last: char)
    requires IsNumber(a) && IsNumber(b) && IsNumber(c) && last in "Mm"
    ensures IsSgrReport(MouseReport(a, b, c, last))
  {
    var payload := MouseReport(a, b, c, last);
    assert payload[1..|payload| - 1] == a + [';'] + (b + [';'] + c);
    SplitAtFirst(a, b + [';'] + c);
    SplitAtFirst(b, c);
    SplitNumber(c);
    assert SplitAtSemicolons(payload[1..|payload| - 1]) == [a] + ([b] + [c]);
  }

  /** An escape sequence that opens like a new-style mouse report ends where it first is one. */
  lemma MouseReportToken(s: string, k: nat)
    requires |s| >= 3 && s[0] == ESC && s[1] == '[' && s[2] == '<'
    ensures TokenLength(s) == Some(k) <==>
            3 <= k <= |s| && IsSgrReport(s[2..k]) && (forall j :: 3 <= j < k ==> !IsSgrReport(s[2..j]))
  {
    FirstCompleteIs(s, k);
    forall m | 1 <= m <= |s| ensures IsCompleteSequence(s[..m]).Complete? <==> m >= 3 && IsSgrReport(s[2..m]) {
      if m >= 3 { assert s[..m][2..] == s[2..m]; }
    }
  }

  // ---------------------------------------------------------------- the buffer object and bracketed paste

  predicate OccursAt(s: string, p: string, i: nat) { i + |p| <= |s| && s[i..i + |p|] == p }

  function IndexFrom(s: string, p: string, i: nat): (r: Option<nat>)
    requires i <= |s|
    ensures r.Some? ==> i <= r.value && OccursAt(s, p, r.value)
    ensures forall j :: i <= j && (r.Some? ==> j < r.value) ==> !OccursAt(s, p, j)
    decreases |s| - i
  {
    if OccursAt(s, p, i) then Some(i) else if i == |s| then None else IndexFrom(s, p, i + 1)
  }

  function IndexOf(s: string, p: string): Option<nat> { IndexFrom(s, p, 0) }

  /** `data` is every sequence handed to emitDataSequence; `paste` is the paste event. */
  datatype Event = Data(sequence: string) | Paste(text: string)

  datatype Buffered = Buffered(buffer: string, pasteMode: bool, pasteBuffer: string, events: seq<Event>)

  function Emitted(sequences: seq<string>): (es: seq<Event>)
    ensures |es| == |sequences|
    ensures forall i :: 0 <= i < |sequences| ==> es[i] == Data(sequences[i])
  {
    seq(|sequences|, i requires 0 <= i < |sequences| => Data(sequences[i]))
  }

  function Process(st: Buffered, data: string): Buffered
    decreases |st.buffer| + |st.pasteBuffer| + |data|, 1
  {
    if data == [] && st.buffer == [] then st.(events := st.events + [Data([])])
    else
      var buffer := st.buffer + data;
      if st.pasteMode then
        FinishPaste(Buffered([], true, st.pasteBuffer + buffer, st.events))
      else
        match IndexOf(buffer, BRACKETED_PASTE_START)
        case Some(start) =>
          var before := Extract(buffer[..start]);
          FinishPaste(Buffered([], true, buffer[start + 6..], st.events + Emitted(before.sequences)))
        case None =>
          var e := Extract(buffer);
          Buffered(e.remainder, false, st.pasteBuffer, st.events + Emitted(e.sequences))
  }

  /** Looks for the end marker in the paste buffer; what follows it is processed as fresh input. */
  function FinishPaste(st: Buffered): Buffered
    requires st.pasteMode && st.buffer == []
    decreases |st.pasteBuffer|, 0
  {
    match IndexOf(st.pasteBuffer, BRACKETED_PASTE_END)
    case None => st
    case Some(end) =>
      var rest := st.pasteBuffer[end + 6..];
      var out := AfterPaste(st.events, st.pasteBuffer[..end]);
      if rest == [] then out else Process(out, rest)
  }

  function AfterPaste(events: seq<Event>, text: string): Buffered {
    Buffered([], false, [], events + [Paste(text)])
  }

  class StdinBuffer {
    var buffer: string
    var pasteMode: bool
    var pasteBuffer: string
    ghost var events: seq<Event>

    ghost function State(): Buffered
      reads this
    {
      Buffered(buffer, pasteMode, pasteBuffer, events)
    }

    constructor ()
      ensures State() == Buffered([], false, [], [])
    {
      buffer, pasteMode, pasteBuffer, events := [], false, [], [];
    }

    method ProcessInput(data: string)
      modifies this
      ensures State() == Process(old(State()), data)
      decreases |buffer| + |pasteBuffer| + |data|, 1
    {
      if |data| == 0 && |buffer| == 0 {
        events := events + [Data([])];
        return;
      }
      buffer := buffer + data;
      if pasteMode {
        pasteBuffer := pasteBuffer + buffer;
        buffer := [];
        EndPaste();
        return;
      }
      var start := IndexOf(buffer, BRACKETED_PASTE_START);
      if start.Some? {
        BeginPaste(start.value);
        EndPaste();
        return;
      }
      var sequences, remainder := ExtractCompleteSequences(buffer);
      buffer := remainder;
      events := events + Emitted(sequences);
    }

    method BeginPaste(start: nat)
      requires start + 6 <= |buffer|
      modifies this
      ensures State() == Buffered([], true, old(buffer)[start + 6..],
                                  old(events) + Emitted(Extract(old(buffer)[..start]).sequences))
    {
      if start > 0 {
        var before, _ := ExtractCompleteSequences(buffer[..start]);
        events := events + Emitted(before);
      } else {
        assert Extract(buffer[..0]).sequences == [] && events + Emitted([]) == events;
      }
      pasteMode := true;
      pasteBuffer := buffer[start + 6..];
      buffer := [];
    }

    method EndPaste()
      requires pasteMode && buffer == []
      modifies this
      ensures State() == FinishPaste(old(State()))
      decreases |pasteBuffer|, 0
    {
      var end := IndexOf(pasteBuffer, BRACKETED_PASTE_END);
      if end.Some? {
        var pasted := pasteBuffer[..end.value];
        var remaining := pasteBuffer[end.value + 6..];
        pasteMode := false;
        pasteBuffer := [];
        events := events + [Paste(pasted)];
        if |remaining| > 0 { ProcessInput(remaining); }
      }
    }

    /** The timeout: whatever is still buffered is released as one sequence. */
    method Flush() returns (sequences: seq<string>)
      modifies this
      ensures Flatten(sequences) == old(buffer) && |sequences| <= 1 && buffer == []
      ensures State() == old(State()).(buffer := [])
    {
      if buffer == [] { return []; }
      sequences := [buffer];
      assert sequences[1..] == [];
      buffer := [];
    }
  }

  function Feed(st: Buffered, chunks: seq<string>): Buffered
    decreases |chunks|
  {
    if chunks == [] then st else Feed(Process(st, chunks[0]), chunks[1..])
  }

  ghost predicate NonEmpty(chunks: seq<string>) {
    forall i :: 0 <= i < |chunks| ==> chunks[i] != []
  }

  lemma IndexOfPrefix(s: string, more: string, p: string)
    ensures IndexOf(s, p).Some? ==> IndexOf(s + more, p) == IndexOf(s, p)
  {
    var i := IndexOf(s, p);
    if i.Some? {
      assert OccursAt(s + more, p, i.value);
      forall j: nat | j < i.value ensures !OccursAt(s + more, p, j) {
        assert !OccursAt(s, p, j);
        assert (s + more)[j..j + |p|] == s[j..j + |p|];
      }
    }
  }

  lemma PasteStep(st: Buffered, c: string)
    requires st.pasteMode && st.buffer == [] && c != []
    ensures Process(st, c) == FinishPaste(Buffered([], true, st.pasteBuffer + c, st.events))
  {
    assert st.buffer + c == c;
  }

  /** In paste mode the pasted text is accumulated whole until its end marker is complete... */
  lemma {:induction false} PasteAccumulates(st: Buffered, chunks: seq<string>)
    requires st.pasteMode && st.buffer == [] && NonEmpty(chunks)
    requires IndexOf(st.pasteBuffer + Flatten(chunks), BRACKETED_PASTE_END).None?
    ensures Feed(st, chunks) == st.(pasteBuffer := st.pasteBuffer + Flatten(chunks))
    decreases |chunks|
  {
    if chunks == [] {
      assert st.pasteBuffer + Flatten(chunks) == st.pasteBuffer;
    } else {
      var c := chunks[0];
      assert st.pasteBuffer + Flatten(chunks) == (st.pasteBuffer + c) + Flatten(chunks[1..]);
      IndexOfPrefix(st.pasteBuffer + c, Flatten(chunks[1..]), BRACKETED_PASTE_END);
      PasteStep(st, c);
      PasteAccumulates(Process(st, c), chunks[1..]);
    }
  }

  lemma AppendNothing(s: string, chunks: seq<string>)
    requires chunks == []
    ensures s + Flatten(chunks) == s
  {
  }

  lemma FeedRest(st: Buffered, rest: string, chunks: seq<string>)
    ensures Feed(st, (if rest == [] then [] else [rest]) + chunks) ==
            Feed(if rest == [] then st else Process(st, rest), chunks)
  {
    if rest == [] { assert [] + chunks == chunks; } else { assert ([rest] + chunks)[1..] == chunks; }
  }

  /** ... and then emitted once, unchanged, for every cut of the input; only what follows the marker is processed on. */
  lemma {:induction false} PasteSurvivesChunking(st: Buffered, chunks: seq<string>) returns (k: nat, rest: string)
    requires st.pasteMode && st.buffer == [] && NonEmpty(chunks)
    requires IndexOf(st.pasteBuffer, BRACKETED_PASTE_END).None?
    requires IndexOf(st.pasteBuffer + Flatten(chunks), BRACKETED_PASTE_END).Some?
    ensures k <= |chunks|
    ensures PastedThen(st, chunks, st.pasteBuffer + Flatten(chunks), k, rest)
    decreases |chunks|
  {
    if chunks == [] {
      AppendNothing(st.pasteBuffer, chunks);
      assert false;
    }
    var c, cs := chunks[0], chunks[1..];
    var head := st.pasteBuffer + c;
    var text := head + Flatten(cs);
    assert st.pasteBuffer + Flatten(chunks) == text;
    PasteStep(st, c);
    IndexOfPrefix(head, Flatten(cs), BRACKETED_PASTE_END);
    var found := IndexOf(head, BRACKETED_PASTE_END);
    if found.Some? {
      k, rest := 1, head[found.value + 6..];
      CutAfter(head, Flatten(cs), found.value);
      FeedRest(AfterPaste(st.events, text[..found.value]), rest, cs);
    } else {
      var next := st.(pasteBuffer := head);
      assert Process(st, c) == next;
      var m;
      m, rest := PasteSurvivesChunking(next, cs);
      k := m + 1;
      assert cs[m..] == chunks[k..];
    }
  }

  /** Feeding the chunks emits the text before its first end marker and then feeds on what follows the marker. */
  ghost predicate PastedThen(st: Buffered, chunks: seq<string>, text: string, k: nat, rest: string)
    requires k <= |chunks| && IndexOf(text, BRACKETED_PASTE_END).Some?
  {
    var end := IndexOf(text, BRACKETED_PASTE_END).value;
    && rest + Flatten(chunks[k..]) == text[end + 6..]
    && Feed(st, chunks) ==
       Feed(AfterPaste(st.events, text[..end]), (if rest == [] then [] else [rest]) + chunks[k..])
  }

  lemma CutAfter(head: string, later: string, i: nat)
    requires i + 6 <= |head|
    ensures (head + later)[..i] == head[..i] && head[i + 6..] + later == (head + later)[i + 6..]
  {
  }
}
