/**
 * Terminal input fed in chunks (packages/tui/src/stdin-buffer.ts): what the buffer emits and keeps over a run of
 * process calls, compared with the whole text.
 */
module StdinChunks {
  import opened Common
  import opened StdinInput

  // ---------------------------------------------------------------- places of a marker

  lemma OccursAfter(x: string, y: string, p: string, j: nat)
    ensures OccursAt(y, p, j) <==> OccursAt(x + y, p, |x| + j)
  {
    if j + |p| <= |y| { assert (x + y)[|x| + j..|x| + j + |p|] == y[j..j + |p|]; }
  }

  lemma OccursBefore(x: string, y: string, p: string, j: nat)
    requires j + |p| <= |x|
    ensures OccursAt(x, p, j) <==> OccursAt(x + y, p, j)
  {
    assert (x + y)[j..j + |p|] == x[j..j + |p|];
  }

  /** A first place is the only one with no earlier place. */
  lemma FirstPlace(s: string, p: string, i: nat)
    requires OccursAt(s, p, i) && forall j: nat :: j < i ==> !OccursAt(s, p, j)
    ensures IndexOf(s, p) == Some(i)
  {
  }

  lemma NoPlace(s: string, p: string)
    requires forall j: nat :: !OccursAt(s, p, j)
    ensures IndexOf(s, p).None?
  {
  }

  lemma SkipNone(x: string, y: string, text: string, p: string)
    requires text == x + y && IndexOf(text, p).None?
    ensures IndexOf(y, p).None?
  {
    forall j: nat ensures !OccursAt(y, p, j) {
      OccursAfter(x, y, p, j);
      assert !OccursAt(text, p, |x| + j);
    }
    NoPlace(y, p);
  }

  lemma SkipSome(x: string, y: string, text: string, p: string, i: nat)
    requires text == x + y && IndexOf(text, p) == Some(|x| + i)
    ensures IndexOf(y, p) == Some(i)
  {
    forall j: nat | j < i ensures !OccursAt(y, p, j) {
      OccursAfter(x, y, p, j);
      assert !OccursAt(text, p, |x| + j);
    }
    OccursAfter(x, y, p, i);
    FirstPlace(y, p, i);
  }

  /** The first place of p in the text is its first place in a beginning of the text that reaches past it. */
  lemma SeenInPrefix(x: string, y: string, p: string)
    requires IndexOf(x + y, p).Some?
    ensures IndexOf(x, p) == if IndexOf(x + y, p).value + |p| <= |x| then IndexOf(x + y, p) else None
  {
    var i := IndexOf(x + y, p).value;
    IndexOfPrefix(x, y, p);
    if i + |p| <= |x| {
      OccursBefore(x, y, p, i);
    }
  }

  lemma NoneInPrefix(x: string, y: string, p: string)
    requires IndexOf(x + y, p).None?
    ensures IndexOf(x, p).None?
  {
    IndexOfPrefix(x, y, p);
  }

  // ---------------------------------------------------------------- chunk by chunk

  lemma {:induction false} FeedAppend(st: Buffered, a: seq<string>, b: seq<string>)
    ensures Feed(st, a + b) == Feed(Feed(st, a), b)
    decreases |a|
  {
    if a == [] {
      assert a + b == b;
    } else {
      assert (a + b)[1..] == a[1..] + b;
      FeedAppend(Process(st, a[0]), a[1..], b);
    }
  }

  lemma FeedOne(st: Buffered, c: string)
    ensures Feed(st, [c]) == Process(st, c)
  {
    assert Feed(Process(st, c), [c][1..]) == Process(st, c);
  }

  lemma FlattenOne(c: string)
    ensures Flatten([c]) == c
  {
    assert c + Flatten([c][1..]) == c;
  }

  lemma EmittedAppend(known: seq<Event>, a: seq<string>, b: seq<string>)
    ensures known + Emitted(a) + Emitted(b) == known + Emitted(a + b)
  {
    assert Emitted(a) + Emitted(b) == Emitted(a + b);
  }

  /** The state outside paste mode when these sequences have been emitted since `st` and the rest is kept. */
  function After(st: Buffered, sequences: seq<string>, rest: string): Buffered {
    Buffered(rest, false, st.pasteBuffer, st.events + Emitted(sequences))
  }

  lemma DataStep(st: Buffered, c: string)
    requires !st.pasteMode && c != [] && IndexOf(st.buffer + c, BRACKETED_PASTE_START).None?
    ensures var e := Extract(st.buffer + c); Process(st, c) == After(st, e.sequences, e.remainder)
  {
  }

  lemma AfterBoth(st: Buffered, a: seq<string>, mid: string, b: seq<string>, rest: string)
    ensures After(After(st, a, mid), b, rest) == After(st, a + b, rest)
    ensures Flatten(a + b) + rest == Flatten(a) + (Flatten(b) + rest)
  {
    EmittedAppend(st.events, a, b);
    FlattenAppend(a, b);
  }

  lemma Regroup(emitted: string, left: string, later: string, known: string, c: string)
    requires emitted + left == known + c
    ensures emitted + (left + later) == known + (c + later)
  {
    assert emitted + (left + later) == (emitted + left) + later == known + c + later;
  }

  /**
   * Text without a start marker is neither lost nor changed nor reordered, however it is cut: the sequences emitted and
   * what is still buffered rejoin to it, and the buffer stays out of paste mode.
   */
  lemma {:induction false} TypedTextSurvives(st: Buffered, chunks: seq<string>) returns (sequences: seq<string>)
    requires !st.pasteMode && NonEmpty(chunks)
    requires IndexOf(st.buffer + Flatten(chunks), BRACKETED_PASTE_START).None?
    ensures Feed(st, chunks) == After(st, sequences, Feed(st, chunks).buffer)
    ensures Flatten(sequences) + Feed(st, chunks).buffer == st.buffer + Flatten(chunks)
    decreases |chunks|
  {
    sequences := [];
    if chunks == [] {
      assert st.buffer + Flatten(chunks) == st.buffer && Flatten(sequences) + st.buffer == st.buffer;
      assert st.events + Emitted([]) == st.events;
    } else {
      var c, later := chunks[0], Flatten(chunks[1..]);
      assert st.buffer + Flatten(chunks) == (st.buffer + c) + later;
      NoneInPrefix(st.buffer + c, later, BRACKETED_PASTE_START);
      var e := Extract(st.buffer + c);
      DataStep(st, c);
      TokensRejoin(st.buffer + c);
      Regroup(Flatten(e.sequences), e.remainder, later, st.buffer, c);
      SkipNone(Flatten(e.sequences), e.remainder + later, st.buffer + Flatten(chunks), BRACKETED_PASTE_START);
      var next := After(st, e.sequences, e.remainder);
      var more := TypedTextSurvives(next, chunks[1..]);
      sequences := e.sequences + more;
      AfterBoth(st, e.sequences, e.remainder, more, Feed(next, chunks[1..]).buffer);
    }
  }

  // ---------------------------------------------------------------- against the whole text

  /** No cut between the chunks separates an emitted ESC ESC from an introducer. */
  ghost predicate KeepsEscapes(chunks: seq<string>) {
    forall j :: 0 <= j < |chunks| ==> !SplitsDoubleEscape(Flatten(chunks[..j]), chunks[j])
  }

  /** What extracting the text in one go gives. */
  function AtOnce(st: Buffered, text: string): Buffered {
    After(st, Extract(text).sequences, Extract(text).remainder)
  }

  lemma KeepsEscapesInit(chunks: seq<string>, c: string)
    ensures KeepsEscapes(chunks + [c]) <==> KeepsEscapes(chunks) && !SplitsDoubleEscape(Flatten(chunks), c)
  {
    var all := chunks + [c];
    assert all[..|chunks|] == chunks;
    forall j | 0 <= j < |chunks| ensures all[..j] == chunks[..j] && all[j] == chunks[j] {}
  }

  lemma FlattenInit(chunks: seq<string>, c: string)
    ensures Flatten(chunks + [c]) == Flatten(chunks) + c
  {
    FlattenAppend(chunks, [c]);
    FlattenOne(c);
  }

  /** One more chunk, fed to what the text so far gives at once. */
  lemma AtOnceStep(st: Buffered, text: string, c: string)
    requires c != [] && IndexOf(text + c, BRACKETED_PASTE_START).None? && !SplitsDoubleEscape(text, c)
    ensures Process(AtOnce(st, text), c) == AtOnce(st, text + c)
  {
    var e := Extract(text);
    TokensRejoin(text);
    assert text + c == Flatten(e.sequences) + (e.remainder + c);
    SkipNone(Flatten(e.sequences), e.remainder + c, text + c, BRACKETED_PASTE_START);
    DataStep(AtOnce(st, text), c);
    ExtractionComposes(text, c);
    EmittedAppend(st.events, e.sequences, Extract(e.remainder + c).sequences);
  }

  lemma {:induction false} FedAtOnce(st: Buffered, chunks: seq<string>)
    requires !st.pasteMode && st.buffer == [] && NonEmpty(chunks) && KeepsEscapes(chunks)
    requires IndexOf(Flatten(chunks), BRACKETED_PASTE_START).None?
    ensures Feed(st, chunks) == AtOnce(st, Flatten(chunks))
    decreases |chunks|
  {
    if chunks == [] {
      FedNothing(st);
    } else {
      InitKeeps(chunks);
      FedAtOnce(st, chunks[..|chunks| - 1]);
      FedOneMore(st, chunks[..|chunks| - 1], chunks[|chunks| - 1]);
    }
  }

  lemma InitKeeps(chunks: seq<string>)
    requires chunks != [] && KeepsEscapes(chunks) && IndexOf(Flatten(chunks), BRACKETED_PASTE_START).None?
    ensures var init, c := chunks[..|chunks| - 1], chunks[|chunks| - 1];
      && chunks == init + [c] && Flatten(chunks) == Flatten(init) + c
      && KeepsEscapes(init) && !SplitsDoubleEscape(Flatten(init), c)
      && IndexOf(Flatten(init), BRACKETED_PASTE_START).None?
  {
    var init, c := chunks[..|chunks| - 1], chunks[|chunks| - 1];
    assert chunks == init + [c];
    FlattenInit(init, c);
    KeepsEscapesInit(init, c);
    NoneInPrefix(Flatten(init), c, BRACKETED_PASTE_START);
  }

  lemma FedNothing(st: Buffered)
    requires !st.pasteMode && st.buffer == []
    ensures st == AtOnce(st, [])
  {
    assert st.events + Emitted([]) == st.events;
  }

  lemma FedOneMore(st: Buffered, init: seq<string>, c: string)
    requires c != [] && Feed(st, init) == AtOnce(st, Flatten(init)) && !SplitsDoubleEscape(Flatten(init), c)
    requires IndexOf(Flatten(init) + c, BRACKETED_PASTE_START).None?
    ensures Feed(st, init + [c]) == AtOnce(st, Flatten(init) + c)
  {
    AtOnceStep(st, Flatten(init), c);
    FeedAppend(st, init, [c]);
    FeedOne(Feed(st, init), c);
  }

  /** Where ESC ESC was emitted before an introducer, the whole text has a single ESC. */
  lemma {:induction false} SplitShows(a: string, b: string)
    requires SplitsDoubleEscape(a, b)
    ensures var n := |Extract(a).sequences|; n <= |Extract(a + b).sequences| && Extract(a + b).sequences[n - 1] == [ESC]
    decreases |a|
  {
    if a == [ESC, ESC] {
      SingleEscape(b);
      assert |Extract(a).sequences| == 1 by { TokensOfPair(); }
    } else {
      var k := SplitInTail(a, b);
      SplitShows(a[k..], b);
    }
  }

  lemma SplitOfTail(a: string, b: string, k: nat)
    requires SplitsDoubleEscape(a, b) && TokenLength(a) == Some(k) && a != [ESC, ESC]
    ensures SplitsDoubleEscape(a[k..], b)
  {
    assert a[..|a|] == a;
    LastToken(a, k);
    TokensRejoin(a[k..]);
  }

  /** A split after more than one token is one after the rest of the tokens. */
  lemma SplitInTail(a: string, b: string) returns (k: nat)
    requires SplitsDoubleEscape(a, b) && a != [ESC, ESC]
    ensures 0 < k <= |a| && SplitsDoubleEscape(a[k..], b)
    ensures Extract(a) == Cons(a[..k], Extract(a[k..])) && Extract(a + b) == Cons(a[..k], Extract(a[k..] + b))
  {
    k := TokenLength(a).value;
    SplitOfTail(a, b, k);
    TokenWithMore(a, b);
    ExtractStep(a, k);
    ExtractStep(a + b, k);
    SliceWithMore(a, b, k);
  }

  lemma ExtractStep(s: string, k: nat)
    requires s != [] && TokenLength(s) == Some(k)
    ensures k <= |s| && Extract(s) == Cons(s[..k], Extract(s[k..]))
  {
  }

  lemma SliceWithMore(a: string, b: string, k: nat)
    requires k <= |a|
    ensures (a + b)[..k] == a[..k] && (a + b)[k..] == a[k..] + b
  {
  }

  lemma TokensOfPair()
    ensures Extract([ESC, ESC]).sequences == [[ESC, ESC]]
  {
    var a: string := [ESC, ESC];
    assert a[..1] == [ESC] && a[..2] == a;
    assert FirstComplete(a, 1) == FirstComplete(a, 2) == Some(2);
    assert Extract(a[2..]) == Extracted([], []);
  }

  lemma SingleEscape(b: string)
    requires b != [] && IsIntroducer(b[0])
    ensures var s := [ESC, ESC] + b; Extract(s).sequences != [] && Extract(s).sequences[0] == [ESC]
  {
    var a: string := [ESC, ESC];
    var s := a + b;
    assert s[..1] == [ESC] && s[..2] == a && s[2] == b[0];
    assert FirstComplete(s, 1) == FirstComplete(s, 2) == Some(2);
    assert TokenLength(s) == Some(1);
  }

  lemma {:induction false} FirstSplit(chunks: seq<string>) returns (j: nat)
    requires !KeepsEscapes(chunks)
    ensures j < |chunks| && SplitsDoubleEscape(Flatten(chunks[..j]), chunks[j]) && KeepsEscapes(chunks[..j])
    decreases |chunks|
  {
    var init, c := chunks[..|chunks| - 1], chunks[|chunks| - 1];
    assert chunks == init + [c];
    KeepsEscapesInit(init, c);
    if KeepsEscapes(init) {
      j := |init|;
    } else {
      j := FirstSplit(init);
      assert init[..j] == chunks[..j];
    }
  }

  lemma SplitDiffers(st: Buffered, chunks: seq<string>, j: nat)
    requires !st.pasteMode && st.buffer == [] && NonEmpty(chunks)
    requires IndexOf(Flatten(chunks), BRACKETED_PASTE_START).None?
    requires j < |chunks| && SplitsDoubleEscape(Flatten(chunks[..j]), chunks[j]) && KeepsEscapes(chunks[..j])
    ensures Feed(st, chunks) != AtOnce(st, Flatten(chunks))
  {
    var a := Flatten(chunks[..j]);
    assert chunks == chunks[..j] + chunks[j..];
    FlattenAppend(chunks[..j], chunks[j..]);
    NoneInPrefix(a, Flatten(chunks[j..]), BRACKETED_PASTE_START);
    FedAtOnce(st, chunks[..j]);
    FeedAppend(st, chunks[..j], chunks[j..]);
    SplitDiffersAt(st, a, chunks[j..], AtOnce(st, a));
  }

  lemma SplitDiffersAt(st: Buffered, a: string, chunks: seq<string>, mid: Buffered)
    requires !st.pasteMode && chunks != [] && NonEmpty(chunks) && mid == AtOnce(st, a)
    requires SplitsDoubleEscape(a, chunks[0]) && IndexOf(a + Flatten(chunks), BRACKETED_PASTE_START).None?
    ensures Feed(mid, chunks) != AtOnce(st, a + Flatten(chunks))
  {
    SplitSeen(a, chunks);
    LeftUnseen(a, Flatten(chunks));
    EarlyEvents(mid, chunks);
    LastEvents(st, a, Feed(mid, chunks), AtOnce(st, a + Flatten(chunks)));
  }

  lemma EarlyEvents(st: Buffered, chunks: seq<string>)
    requires !st.pasteMode && NonEmpty(chunks)
    requires IndexOf(st.buffer + Flatten(chunks), BRACKETED_PASTE_START).None?
    ensures st.events <= Feed(st, chunks).events
  {
    var _ := TypedTextSurvives(st, chunks);
  }

  lemma SplitSeen(a: string, chunks: seq<string>)
    requires chunks != [] && SplitsDoubleEscape(a, chunks[0])
    ensures var n := |Extract(a).sequences|; var e := Extract(a + Flatten(chunks));
            n <= |e.sequences| && e.sequences[n - 1] == [ESC]
  {
    assert Flatten(chunks)[0] == chunks[0][0];
    SplitShows(a, Flatten(chunks));
  }

  lemma LastEvents(st: Buffered, a: string, fed: Buffered, all: Buffered)
    requires Extract(a).sequences != [] && Extract(a).sequences[|Extract(a).sequences| - 1] == [ESC, ESC]
    requires AtOnce(st, a).events <= fed.events
    requires |all.events| >= |st.events| + |Extract(a).sequences|
    requires all.events[|st.events| + |Extract(a).sequences| - 1] == Data([ESC])
    ensures fed != all
  {
    var i := |st.events| + |Extract(a).sequences| - 1;
    assert AtOnce(st, a).events[i] == Data([ESC, ESC]);
  }

  lemma LeftUnseen(a: string, b: string)
    requires IndexOf(a + b, BRACKETED_PASTE_START).None?
    ensures IndexOf(Extract(a).remainder + b, BRACKETED_PASTE_START).None?
  {
    var e := Extract(a);
    TokensRejoin(a);
    assert a + b == Flatten(e.sequences) + (e.remainder + b);
    SkipNone(Flatten(e.sequences), e.remainder + b, a + b, BRACKETED_PASTE_START);
  }

  /**
   * Text without a start marker gives the same events and the same rest cut into chunks as at once, exactly when no cut
   * separates an emitted ESC ESC from an introducer.
   */
  lemma ChunkingIrrelevantExactly(st: Buffered, chunks: seq<string>)
    requires !st.pasteMode && st.buffer == [] && NonEmpty(chunks)
    requires IndexOf(Flatten(chunks), BRACKETED_PASTE_START).None?
    ensures Feed(st, chunks) == AtOnce(st, Flatten(chunks)) <==> KeepsEscapes(chunks)
  {
    if KeepsEscapes(chunks) {
      FedAtOnce(st, chunks);
    } else {
      var j := FirstSplit(chunks);
      SplitDiffers(st, chunks, j);
    }
  }

  // ---------------------------------------------------------------- a paste in the text

  /** Paste mode just entered after this text, with so much of the paste seen. */
  function Began(st: Buffered, before: string, pasted: string): Buffered {
    Buffered([], true, pasted, st.events + Emitted(Extract(before).sequences))
  }

  lemma MarkerIncomplete(m: nat)
    requires 1 <= m < 6
    ensures Extract(BRACKETED_PASTE_START[..m]) == Extracted([], BRACKETED_PASTE_START[..m])
  {
    var s := BRACKETED_PASTE_START[..m];
    forall k | 1 <= k <= m ensures !IsCompleteSequence(s[..k]).Complete? {
      assert s[..k] == BRACKETED_PASTE_START[..k];
    }
  }

  lemma UpToMarker(before: string, m: nat)
    requires Extract(before).remainder == [] && 1 <= m < 6
    ensures Extract(before + BRACKETED_PASTE_START[..m]) ==
            Extracted(Extract(before).sequences, BRACKETED_PASTE_START[..m])
  {
    var s := BRACKETED_PASTE_START[..m];
    assert s[0] == ESC;
    ExtractionComposes(before, s);
    MarkerIncomplete(m);
    assert [] + s == s;
    assert Extract(before).sequences + [] == Extract(before).sequences;
  }

  /** A beginning of the text that ends in the marker: what comes before it and the beginning of the marker. */
  lemma EndsInMarker(a: string, c: string, p: nat)
    requires IndexOf(a + c, BRACKETED_PASTE_START) == Some(p) && p <= |a| < p + 6
    ensures a == (a + c)[..p] + BRACKETED_PASTE_START[..|a| - p]
    ensures c != [] && (|a| == p ==> c[0] == ESC)
  {
    assert OccursAt(a + c, BRACKETED_PASTE_START, p);
    InsideOf(a, c, p, BRACKETED_PASTE_START);
  }

  lemma InsideOf(a: string, c: string, p: nat, marker: string)
    requires OccursAt(a + c, marker, p) && p <= |a| < p + |marker|
    ensures a[..p] == (a + c)[..p] && a[p..] == marker[..|a| - p] && a == a[..p] + a[p..]
    ensures c != [] && c[0] == marker[|a| - p]
  {
    forall k | 0 <= k < |marker| ensures (a + c)[p + k] == marker[k] {
      assert (a + c)[p..p + |marker|][k] == marker[k];
    }
  }

  lemma CutInMarkerKeeps(a: string, c: string, p: nat)
    requires IndexOf(a + c, BRACKETED_PASTE_START) == Some(p) && p <= |a| < p + 6
    requires Extract((a + c)[..p]).remainder == []
    ensures !SplitsDoubleEscape(a, c)
  {
    EndsInMarker(a, c, p);
    if |a| > p { InsideMarker((a + c)[..p], a, |a| - p); }
  }

  lemma InsideMarker(before: string, a: string, m: nat)
    requires Extract(before).remainder == [] && 1 <= m < 6 && a == before + BRACKETED_PASTE_START[..m]
    ensures Extract(a).sequences == Extract(before).sequences && |Extract(a).remainder| == m
  {
    UpToMarker(before, m);
  }

  /** What has been emitted and what the next chunk adds in front of place i is what comes before the marker. */
  predicate Completes(e: Extracted, c: string, i: int, before: string) {
    0 <= i <= |e.remainder| + |c| && e.sequences + Extract((e.remainder + c)[..i]).sequences ==
        Extract(before).sequences
  }

  lemma SequencesBefore(a: string, c: string, p: nat, e: Extracted, i: int)
    requires IndexOf(a + c, BRACKETED_PASTE_START) == Some(p) && |a| < p + 6
    requires Extract((a + c)[..p]).remainder == [] && !SplitsDoubleEscape(a, c)
    requires e == Extract(a) && i == p - |a| + |e.remainder|
    ensures Completes(e, c, i, (a + c)[..p])
  {
    RemainderFits(a);
    if |a| > p {
      SequencesInside(a, c, p, e, i, (a + c)[..p]);
    } else {
      assert OccursAt(a + c, BRACKETED_PASTE_START, p);
      SplitsByFirst(a, c, c[..p - |a|]);
      Cut(a, c, p - |a|, p);
      CompletesAfter(a, c, e, p - |a|, i, (a + c)[..p]);
    }
  }

  lemma SequencesInside(a: string, c: string, p: nat, e: Extracted, i: int, before: string)
    requires IndexOf(a + c, BRACKETED_PASTE_START) == Some(p) && p < |a| < p + 6
    requires before == (a + c)[..p] && Extract(before).remainder == []
    requires e == Extract(a) && i == p - |a| + |e.remainder|
    ensures Completes(e, c, i, before)
  {
    EndsInMarker(a, c, p);
    InsideMarker(before, a, |a| - p);
    NothingMore(e, c, i, before);
  }

  lemma CompletesAfter(a: string, c: string, e: Extracted, n: nat, i: nat, before: string)
    requires n <= |c| && e == Extract(a) && !SplitsDoubleEscape(a, c[..n])
    requires i == n + |e.remainder| && before == a + c[..n]
    ensures Completes(e, c, i, before)
  {
    Cut(e.remainder, c, n, i);
    Composes(a, c[..n], e, (e.remainder + c)[..i], before);
  }

  lemma SplitsByFirst(a: string, c: string, d: string)
    requires d <= c && !SplitsDoubleEscape(a, c)
    ensures !SplitsDoubleEscape(a, d)
  {
  }

  lemma RemainderFits(a: string)
    ensures |Extract(a).remainder| <= |a| && |Flatten(Extract(a).sequences)| == |a| - |Extract(a).remainder|
  {
    TokensRejoin(a);
  }

  lemma NothingMore(e: Extracted, c: string, n: int, before: string)
    requires n == 0 && e.sequences == Extract(before).sequences
    ensures Completes(e, c, n, before)
  {
    assert (e.remainder + c)[..n] == [];
  }

  lemma Composes(a: string, d: string, e: Extracted, rest: string, all: string)
    requires e == Extract(a) && !SplitsDoubleEscape(a, d) && rest == e.remainder + d && all == a + d
    ensures e.sequences + Extract(rest).sequences == Extract(all).sequences
  {
    ExtractionComposes(a, d);
  }

  lemma Cut(x: string, y: string, n: nat, i: nat)
    requires n <= |y| && i == |x| + n
    ensures (x + y)[..i] == x + y[..n]
  {
  }

  lemma CutOff(x: string, y: string, text: string, n: nat)
    requires text == x + y && n <= |y|
    ensures text[|x| + n..] == y[n..]
  {
  }

  lemma MarkerStep(b: Buffered, c: string, i: nat, x: Buffered)
    requires !b.pasteMode && c != [] && IndexOf(b.buffer + c, BRACKETED_PASTE_START) == Some(i)
    requires x == Buffered([], true, (b.buffer + c)[i + 6..],
                           b.events + Emitted(Extract((b.buffer + c)[..i]).sequences))
    ensures Process(b, c) == FinishPaste(x)
  {
  }

  lemma MarkerCompletes(st: Buffered, a: string, c: string, p: nat, b: Buffered, x: Buffered)
    requires !st.pasteMode && IndexOf(a + c, BRACKETED_PASTE_START) == Some(p) && |a| < p + 6
    requires Extract((a + c)[..p]).remainder == [] && !SplitsDoubleEscape(a, c)
    requires b == AtOnce(st, a) && x == Began(st, (a + c)[..p], (a + c)[p + 6..])
    ensures Process(b, c) == FinishPaste(x)
  {
    var r := Extract(a).remainder;
    var i := p - |a| + |r|;
    SequencesBefore(a, c, p, Extract(a), i);
    MarkerInRest(a, c, p);
    MarkerFrom(st, Extract(a), c, i, (a + c)[..p], b, x);
  }

  lemma MarkerFrom(st: Buffered, e: Extracted, c: string, i: nat, before: string, b: Buffered, x: Buffered)
    requires c != [] && IndexOf(e.remainder + c, BRACKETED_PASTE_START) == Some(i)
    requires Completes(e, c, i, before)
    requires b == After(st, e.sequences, e.remainder) && x == Began(st, before, (e.remainder + c)[i + 6..])
    ensures Process(b, c) == FinishPaste(x)
  {
    EmittedAppend(st.events, e.sequences, Extract((e.remainder + c)[..i]).sequences);
    MarkerStep(b, c, i, x);
  }

  lemma MarkerInRest(a: string, c: string, p: nat)
    requires IndexOf(a + c, BRACKETED_PASTE_START) == Some(p) && |a| - |Extract(a).remainder| <= p
    ensures var r := Extract(a).remainder;
            && |a| <= p + |r| && IndexOf(r + c, BRACKETED_PASTE_START) == Some(p - |a| + |r|)
            && (r + c)[p - |a| + |r| + 6..] == (a + c)[p + 6..]
  {
    RemainderFits(a);
    TokensRejoin(a);
    MarkerInTail(Flatten(Extract(a).sequences), Extract(a).remainder, a, c, p);
  }

  lemma MarkerInTail(x: string, r: string, a: string, c: string, p: nat)
    requires a == x + r && IndexOf(a + c, BRACKETED_PASTE_START) == Some(p) && |x| <= p
    ensures IndexOf(r + c, BRACKETED_PASTE_START) == Some(p - |x|)
    ensures p + 6 <= |a + c| && (r + c)[p - |x| + 6..] == (a + c)[p + 6..]
  {
    assert a + c == x + (r + c);
    SkipSome(x, r + c, a + c, BRACKETED_PASTE_START, p - |x|);
    CutOff(x, r + c, a + c, p - |x| + 6);
  }

  /** The chunk that holds the n-th character. */
  lemma {:induction false} ChunkOf(chunks: seq<string>, n: nat) returns (j: nat)
    requires 0 < n <= |Flatten(chunks)|
    ensures j < |chunks| && |Flatten(chunks[..j])| < n <= |Flatten(chunks[..j])| + |chunks[j]|
    decreases |chunks|
  {
    var init, c := chunks[..|chunks| - 1], chunks[|chunks| - 1];
    assert chunks == init + [c];
    FlattenInit(init, c);
    if n <= |Flatten(init)| {
      j := ChunkOf(init, n);
      assert init[..j] == chunks[..j];
    } else {
      j := |init|;
    }
  }

  lemma FlattenCut(chunks: seq<string>, j: nat)
    requires j < |chunks|
    ensures Flatten(chunks) == Flatten(chunks[..j]) + (chunks[j] + Flatten(chunks[j + 1..]))
  {
    assert chunks == chunks[..j] + chunks[j..];
    FlattenAppend(chunks[..j], chunks[j..]);
    assert chunks[j..][1..] == chunks[j + 1..];
  }

  lemma FlattenGrows(chunks: seq<string>, i: nat, j: nat)
    requires i <= j <= |chunks|
    ensures |Flatten(chunks[..i])| <= |Flatten(chunks[..j])|
  {
    assert chunks[..j] == chunks[..i] + chunks[i..j];
    FlattenAppend(chunks[..i], chunks[i..j]);
  }

  /** No cut within the first p characters separates an emitted ESC ESC from an introducer. */
  ghost predicate KeepsEscapesBefore(chunks: seq<string>, p: nat) {
    forall j :: 0 <= j < |chunks| && |Flatten(chunks[..j])| < p ==> !SplitsDoubleEscape(Flatten(chunks[..j]), chunks[j])
  }

  /** The text has its first start marker at p, and no incomplete sequence before it. */
  predicate PasteAt(text: string, p: nat) {
    IndexOf(text, BRACKETED_PASTE_START) == Some(p) && Extract(text[..p]).remainder == []
  }

  lemma CutKeeps(chunks: seq<string>, p: nat, j: nat)
    requires NonEmpty(chunks) && PasteAt(Flatten(chunks), p) && KeepsEscapesBefore(chunks, p)
    requires j < |chunks| && |Flatten(chunks[..j])| < p + 6
    ensures !SplitsDoubleEscape(Flatten(chunks[..j]), chunks[j])
  {
    var a, c, later := Flatten(chunks[..j]), chunks[j], Flatten(chunks[j + 1..]);
    FlattenCut(chunks, j);
    if p <= |a| {
      CutInMarkerKeeps(a, c + later, p);
      assert (c + later)[0] == c[0];
    }
  }

  lemma KeepsUpTo(chunks: seq<string>, p: nat, j: nat)
    requires NonEmpty(chunks) && PasteAt(Flatten(chunks), p) && KeepsEscapesBefore(chunks, p)
    requires j <= |chunks| && |Flatten(chunks[..j])| < p + 6
    ensures KeepsEscapes(chunks[..j])
  {
    forall i | 0 <= i < j ensures !SplitsDoubleEscape(Flatten(chunks[..j][..i]), chunks[..j][i]) {
      assert chunks[..j][..i] == chunks[..i];
      FlattenGrows(chunks, i, j);
      CutKeeps(chunks, p, i);
    }
  }

  /** Cut a, c, later with the marker completed in c. */
  lemma PasteSeen(a: string, c: string, later: string, p: nat)
    requires PasteAt(a + (c + later), p) && |a| < p + 6 <= |a| + |c|
    ensures IndexOf(a, BRACKETED_PASTE_START).None? && PasteAt(a + c, p)
    ensures (a + c)[..p] == (a + (c + later))[..p] && (a + c)[p + 6..] + later == (a + (c + later))[p + 6..]
  {
    SeenInPrefix(a, c + later, BRACKETED_PASTE_START);
    assert a + (c + later) == (a + c) + later;
    SeenInPrefix(a + c, later, BRACKETED_PASTE_START);
    assert (a + c)[..p] == (a + (c + later))[..p];
  }

  /** Paste mode begins with the chunk that completes the marker, after everything before the marker is emitted. */
  lemma PasteBegins(st: Buffered, chunks: seq<string>, p: nat) returns (k: nat, rest: string)
    requires !st.pasteMode && st.buffer == [] && NonEmpty(chunks)
    requires PasteAt(Flatten(chunks), p) && KeepsEscapesBefore(chunks, p)
    ensures k <= |chunks| && rest + Flatten(chunks[k..]) == Flatten(chunks)[p + 6..]
    ensures Feed(st, chunks) == Feed(FinishPaste(Began(st, Flatten(chunks)[..p], rest)), chunks[k..])
  {
    var j := ChunkOf(chunks, p + 6);
    var a, c, later := Flatten(chunks[..j]), chunks[j], Flatten(chunks[j + 1..]);
    FlattenCut(chunks, j);
    PasteSeen(a, c, later, p);
    KeepsUpTo(chunks, p, j);
    FedAtOnce(st, chunks[..j]);
    CutKeeps(chunks, p, j);
    k, rest := j + 1, (a + c)[p + 6..];
    MarkerCompletes(st, a, c, p, Feed(st, chunks[..j]), Began(st, Flatten(chunks)[..p], rest));
    FedPast(st, chunks, j);
  }

  lemma FedPast(st: Buffered, chunks: seq<string>, j: nat)
    requires j < |chunks|
    ensures Feed(st, chunks) == Feed(Process(Feed(st, chunks[..j]), chunks[j]), chunks[j + 1..])
  {
    assert chunks == chunks[..j] + chunks[j..];
    FeedAppend(st, chunks[..j], chunks[j..]);
    assert chunks[j..][1..] == chunks[j + 1..];
  }

  /**
   * A paste in the text is one Paste event however the text is cut, its markers included: the sequences before the
   * start marker are emitted, then the text between the markers, then what follows is fed on.
   */
  lemma PasteIsOneEvent(st: Buffered, chunks: seq<string>, p: nat, q: nat) returns (more: seq<string>)
    requires !st.pasteMode && st.buffer == [] && NonEmpty(chunks)
    requires PasteAt(Flatten(chunks), p) && KeepsEscapesBefore(chunks, p)
    requires IndexOf(Flatten(chunks)[p + 6..], BRACKETED_PASTE_END) == Some(q)
    ensures var before, pasted := Flatten(chunks)[..p], Flatten(chunks)[p + 6..];
      && NonEmpty(more) && Flatten(more) == pasted[q + 6..]
      && Feed(st, chunks) == Feed(AfterPaste(st.events + Emitted(Extract(before).sequences), pasted[..q]), more)
  {
    var before, pasted := Flatten(chunks)[..p], Flatten(chunks)[p + 6..];
    var k, rest := PasteBegins(st, chunks, p);
    more := PasteEnds(Began(st, before, rest), chunks[k..], pasted, q);
  }

  lemma PasteEnds(b: Buffered, chunks: seq<string>, pasted: string, q: nat) returns (more: seq<string>)
    requires b.pasteMode && b.buffer == [] && NonEmpty(chunks)
    requires pasted == b.pasteBuffer + Flatten(chunks) && IndexOf(pasted, BRACKETED_PASTE_END) == Some(q)
    ensures NonEmpty(more) && Flatten(more) == pasted[q + 6..]
    ensures Feed(FinishPaste(b), chunks) == Feed(AfterPaste(b.events, pasted[..q]), more)
  {
    SeenInPrefix(b.pasteBuffer, Flatten(chunks), BRACKETED_PASTE_END);
    var k, rest := 0, [];
    if IndexOf(b.pasteBuffer, BRACKETED_PASTE_END).Some? {
      rest := b.pasteBuffer[q + 6..];
      CutAfter(b.pasteBuffer, Flatten(chunks), q);
      FeedRest(AfterPaste(b.events, pasted[..q]), rest, chunks);
      assert chunks[0..] == chunks;
    } else {
      k, rest := PasteSurvivesChunking(b, chunks);
    }
    more := (if rest == [] then [] else [rest]) + chunks[k..];
    FlattenRest(rest, chunks[k..]);
  }

  lemma FlattenRest(rest: string, chunks: seq<string>)
    ensures Flatten((if rest == [] then [] else [rest]) + chunks) == rest + Flatten(chunks)
  {
    if rest == [] {
      assert [] + chunks == chunks;
      assert rest + Flatten(chunks) == Flatten(chunks);
    } else {
      assert ([rest] + chunks)[1..] == chunks;
    }
  }

  /** A paste whose end marker has not come yet is kept whole. */
  lemma OpenPasteIsKept(st: Buffered, chunks: seq<string>, p: nat)
    requires !st.pasteMode && st.buffer == [] && NonEmpty(chunks)
    requires PasteAt(Flatten(chunks), p) && KeepsEscapesBefore(chunks, p)
    requires IndexOf(Flatten(chunks)[p + 6..], BRACKETED_PASTE_END).None?
    ensures Feed(st, chunks) == Began(st, Flatten(chunks)[..p], Flatten(chunks)[p + 6..])
  {
    var k, rest := PasteBegins(st, chunks, p);
    NoneInPrefix(rest, Flatten(chunks[k..]), BRACKETED_PASTE_END);
    PasteAccumulates(Began(st, Flatten(chunks)[..p], rest), chunks[k..]);
  }

  /** In one chunk, what comes before the marker is emitted whole exactly when it ends in no incomplete sequence. */
  lemma LostBeforePasteExactly(st: Buffered, text: string, p: nat)
    requires !st.pasteMode && st.buffer == [] && IndexOf(text, BRACKETED_PASTE_START) == Some(p)
    ensures Feed(st, [text]) == FinishPaste(Began(st, text[..p], text[p + 6..]))
    ensures Flatten(Extract(text[..p]).sequences) == text[..p] <==> Extract(text[..p]).remainder == []
  {
    assert [] + text == text;
    FeedOne(st, text);
    MarkerStep(st, text, p, Began(st, text[..p], text[p + 6..]));
    TokensRejoin(text[..p]);
  }

  const EMPTY := Buffered([], false, [], [])

  /** After an incomplete sequence the marker itself is lost if it is cut: ESC [ 1 swallows the ESC [ that opens it. */
  lemma MarkerLost() returns (a: string, b: string)
    ensures IndexOf(a + b, BRACKETED_PASTE_START) == Some(3) && |a + b| == 9
    ensures Feed(EMPTY, [a + b]).pasteMode && !Feed(EMPTY, [a, b]).pasteMode
  {
    a, b := [ESC, '[', '1', ESC, '['], "200~";
    var text := a + b;
    assert text[3..9] == BRACKETED_PASTE_START;
    assert text[0..6][2] == '1' && text[1..7][0] == '[' && text[2..8][0] == '1';
    FirstPlace(text, BRACKETED_PASTE_START, 3);
    LostBeforePasteExactly(EMPTY, text, 3);
    assert text[9..] == [];
    SwallowedMarker(a, b);
  }

  lemma SwallowedMarker(a: string, b: string)
    requires a == [ESC, '[', '1', ESC, '['] && |b| == 4
    ensures !Feed(EMPTY, [a, b]).pasteMode
  {
    ControlSequenceToken(a, 5);
    assert a[5..] == [];
    assert Extract(a).remainder == [];
    assert [] + a == a && [] + b == b;
    DataStep(EMPTY, a);
    var next := Process(EMPTY, a);
    DataStep(next, b);
    FeedOne(next, b);
    assert [a, b][1..] == [b];
  }
}
