/**
 * The receiving side of the label socket: decoded chunks are appended to a
 * buffer, and every complete line (up to a line feed) is stripped of
 * surrounding white space and handed on, in order; the unfinished tail
 * stays buffered. An empty chunk means the peer has closed.
 */
module LineFraming {
  /** Python's `str.isspace` for one character. */
  predicate IsSpace(c: char)
  {
    ('\t' <= c <= '\r') || ('\U{1c}' <= c <= ' ') || c == '\U{85}' || c == '\U{a0}'
    || c == '\U{1680}' || ('\U{2000}' <= c <= '\U{200a}') || c == '\U{2028}' || c == '\U{2029}'
    || c == '\U{202f}' || c == '\U{205f}' || c == '\U{3000}'
  }

  /** The position of the first line feed at or after j, or -1. */
  function NewlineFrom(s: string, j: nat): (r: int)
    requires j <= |s|
    ensures r == -1 || j <= r < |s|
    ensures r >= 0 ==> s[r] == '\n'
    decreases |s| - j
  {
    if j == |s| then -1
    else if s[j] == '\n' then j
    else NewlineFrom(s, j + 1)
  }

  /** The position of the first line feed, or -1. */
  function IndexOfNewline(s: string): (r: int)
    ensures -1 <= r < |s|
    ensures r >= 0 ==> s[r] == '\n'
  {
    NewlineFrom(s, 0)
  }

  lemma {:induction false} NewlineFromFirst(s: string, j: nat)
    requires j <= |s|
    ensures NewlineFrom(s, j) >= 0 <==> '\n' in s[j..]
    ensures NewlineFrom(s, j) >= 0 ==> '\n' !in s[j..NewlineFrom(s, j)]
    decreases |s| - j
  {
    if j < |s| && s[j] != '\n' {
      NewlineFromFirst(s, j + 1);
      assert s[j..] == [s[j]] + s[j + 1..];
      var r := NewlineFrom(s, j + 1);
      if r >= 0 {
        assert s[j..r] == [s[j]] + s[j + 1..r];
      }
    }
  }

  /** IndexOfNewline finds a line feed exactly when there is one, and it finds the first. */
  lemma IndexOfNewlineFirst(s: string)
    ensures IndexOfNewline(s) >= 0 <==> '\n' in s
    ensures IndexOfNewline(s) >= 0 ==> '\n' !in s[..IndexOfNewline(s)]
  {
    NewlineFromFirst(s, 0);
    assert s[0..] == s;
  }

  lemma {:induction false} NewlineFromAt(s: string, j: nat, k: nat)
    requires j <= k < |s| && s[k] == '\n'
    requires forall m :: j <= m < k ==> s[m] != '\n'
    ensures NewlineFrom(s, j) == k
    decreases k - j
  {
    if j < k {
      NewlineFromAt(s, j + 1, k);
    }
  }

  /** A line feed with none before it is the one IndexOfNewline finds. */
  lemma IndexOfNewlineAt(s: string, k: nat)
    requires k < |s| && s[k] == '\n' && '\n' !in s[..k]
    ensures IndexOfNewline(s) == k
  {
    assert forall m :: 0 <= m < k ==> s[m] == s[..k][m];
    NewlineFromAt(s, 0, k);
  }

  lemma {:induction false} NewlineFromAppend(a: string, b: string, j: nat)
    requires j <= |a| && NewlineFrom(a, j) >= 0
    ensures NewlineFrom(a + b, j) == NewlineFrom(a, j)
    decreases |a| - j
  {
    assert (a + b)[j] == a[j];
    if a[j] != '\n' {
      NewlineFromAppend(a, b, j + 1);
    }
  }

  /** Appending after a line feed does not move the first line feed. */
  lemma IndexOfNewlineAppend(a: string, b: string)
    requires IndexOfNewline(a) >= 0
    ensures IndexOfNewline(a + b) == IndexOfNewline(a)
  {
    NewlineFromAppend(a, b, 0);
  }

  /** The complete lines of s, without their line feeds. */
  function Lines(s: string): seq<string>
    decreases |s|
  {
    var i := IndexOfNewline(s);
    if i < 0 then [] else [s[..i]] + Lines(s[i + 1..])
  }

  /** What follows the last line feed of s. */
  function Remainder(s: string): string
    decreases |s|
  {
    var i := IndexOfNewline(s);
    if i < 0 then s else Remainder(s[i + 1..])
  }

  /** Each line followed by a line feed. */
  function JoinLines(ls: seq<string>): string
  {
    if ls == [] then "" else ls[0] + "\n" + JoinLines(ls[1..])
  }

  function TrimLeft(s: string): string
    decreases |s|
  {
    if |s| > 0 && IsSpace(s[0]) then TrimLeft(s[1..]) else s
  }

  function TrimRight(s: string): string
    decreases |s|
  {
    if |s| > 0 && IsSpace(s[|s| - 1]) then TrimRight(s[..|s| - 1]) else s
  }

  /** `str.strip()`. */
  function Strip(s: string): string
  {
    TrimRight(TrimLeft(s))
  }

  /** Each line stripped, in order. */
  function StripAll(ls: seq<string>): (r: seq<string>)
    ensures |r| == |ls|
  {
    if ls == [] then [] else [Strip(ls[0])] + StripAll(ls[1..])
  }

  /** The data received before the first empty chunk (a closed connection). */
  function Received(chunks: seq<string>): string
  {
    if chunks == [] || chunks[0] == "" then "" else chunks[0] + Received(chunks[1..])
  }

  /** The first line of `buffer + rest` is the first line of buffer when buffer holds a line feed. */
  lemma LinesStep(buffer: string, rest: string)
    requires IndexOfNewline(buffer) >= 0
    ensures var i := IndexOfNewline(buffer);
            && Lines(buffer + rest) == [buffer[..i]] + Lines(buffer[i + 1..] + rest)
            && Remainder(buffer + rest) == Remainder(buffer[i + 1..] + rest)
  {
    var i := IndexOfNewline(buffer);
    var s := buffer + rest;
    IndexOfNewlineAppend(buffer, rest);
    assert s[..i] == buffer[..i];
    assert s[i + 1..] == buffer[i + 1..] + rest;
  }

  /**
   * Framing is independent of chunking: the lines of `a + b` are the lines
   * of a followed by the lines of a's unfinished tail continued by b.
   */
  lemma {:induction false} LinesAppend(a: string, b: string)
    ensures Lines(a + b) == Lines(a) + Lines(Remainder(a) + b)
    ensures Remainder(a + b) == Remainder(Remainder(a) + b)
    decreases |a|
  {
    var i := IndexOfNewline(a);
    if i >= 0 {
      var tail := a[i + 1..];
      LinesStep(a, b);
      LinesAppend(tail, b);
      LinesUnfold(a);
      ConcatAssoc([a[..i]], Lines(tail), Lines(Remainder(tail) + b));
    }
  }

  lemma {:induction false} StripAllAppend(a: seq<string>, b: seq<string>)
    ensures StripAll(a + b) == StripAll(a) + StripAll(b)
  {
    if a != [] {
      assert (a + b)[1..] == a[1..] + b;
      StripAllAppend(a[1..], b);
    } else {
      assert a + b == b;
    }
  }

  /** Lines and Remainder, one step unfolded. */
  lemma LinesUnfold(s: string)
    requires IndexOfNewline(s) >= 0
    ensures var i := IndexOfNewline(s);
            && Lines(s) == [s[..i]] + Lines(s[i + 1..])
            && Remainder(s) == Remainder(s[i + 1..])
  {
  }

  lemma StripAllCons(x: string, ls: seq<string>)
    ensures StripAll([x] + ls) == [Strip(x)] + StripAll(ls)
  {
    assert ([x] + ls)[1..] == ls;
  }

  lemma SplitAtNewline(s: string, i: nat)
    requires i < |s| && s[i] == '\n'
    ensures s == s[..i] + "\n" + s[i + 1..]
  {
  }

  lemma ConcatAssoc<T>(a: seq<T>, b: seq<T>, c: seq<T>)
    ensures (a + b) + c == a + (b + c)
  {
  }

  /** Taking the first line off a buffer that holds a line feed. */
  lemma DrainStep(buffer: string)
    requires IndexOfNewline(buffer) >= 0
    ensures var i := IndexOfNewline(buffer);
            && StripAll(Lines(buffer)) == [Strip(buffer[..i])] + StripAll(Lines(buffer[i + 1..]))
            && Remainder(buffer) == Remainder(buffer[i + 1..])
  {
    var i := IndexOfNewline(buffer);
    LinesUnfold(buffer);
    StripAllCons(buffer[..i], Lines(buffer[i + 1..]));
  }

  /** The inner loop of handle_client: hand on every complete line of the buffer, keep the tail. */
  method DrainLines(buffer0: string) returns (msgs: seq<string>, buffer: string)
    ensures msgs == StripAll(Lines(buffer0))
    ensures buffer == Remainder(buffer0) && '\n' !in buffer
  {
    msgs := [];
    buffer := buffer0;
    while '\n' in buffer
      invariant msgs + StripAll(Lines(buffer)) == StripAll(Lines(buffer0))
      invariant Remainder(buffer) == Remainder(buffer0)
      decreases |buffer|
    {
      IndexOfNewlineFirst(buffer);
      var i := IndexOfNewline(buffer);
      DrainStep(buffer);
      ConcatAssoc(msgs, [Strip(buffer[..i])], StripAll(Lines(buffer[i + 1..])));
      msgs := msgs + [Strip(buffer[..i])];
      buffer := buffer[i + 1..];
    }
    IndexOfNewlineFirst(buffer);
  }

  /** A buffer without a line feed is all tail. */
  lemma NoNewlineFrame(s: string)
    requires '\n' !in s
    ensures Lines(s) == [] && Remainder(s) == s
  {
    IndexOfNewlineFirst(s);
  }

  /** The data received from chunk j on, one chunk unfolded. */
  lemma ReceivedUnfold(chunks: seq<string>, j: nat)
    requires j < |chunks| && chunks[j] != ""
    ensures Received(chunks[j..]) == chunks[j] + Received(chunks[j + 1..])
  {
    assert chunks[j..][0] == chunks[j] && chunks[j..][1..] == chunks[j + 1..];
  }

  /**
   * handle_client over the chunks the socket delivers: the messages handed
   * on are the stripped complete lines of everything received, in order,
   * and the buffer keeps the unfinished tail.
   */
  method HandleClient(chunks: seq<string>) returns (msgs: seq<string>, buffer: string)
    ensures msgs == StripAll(Lines(Received(chunks)))
    ensures buffer == Remainder(Received(chunks))
  {
    msgs := [];
    buffer := "";
    var j := 0;
    assert chunks[j..] == chunks && buffer + Received(chunks) == Received(chunks);
    while j < |chunks|
      invariant 0 <= j <= |chunks|
      invariant Lines(buffer) == [] && Remainder(buffer) == buffer
      invariant msgs + StripAll(Lines(buffer + Received(chunks[j..]))) == StripAll(Lines(Received(chunks)))
      invariant Remainder(buffer + Received(chunks[j..])) == Remainder(Received(chunks))
      decreases |chunks| - j
    {
      var data := chunks[j];
      if data == "" {
        assert Received(chunks[j..]) == "" && buffer + "" == buffer;
        assert msgs + [] == msgs;
        break;
      }
      var rest := Received(chunks[j + 1..]);
      ReceivedUnfold(chunks, j);
      ConcatAssoc(buffer, data, rest);
      LinesAppend(buffer + data, rest);
      StripAllAppend(Lines(buffer + data), Lines(Remainder(buffer + data) + rest));
      var lines;
      lines, buffer := DrainLines(buffer + data);
      NoNewlineFrame(buffer);
      ConcatAssoc(msgs, lines, StripAll(Lines(buffer + rest)));
      msgs := msgs + lines;
      j := j + 1;
    }
    if j == |chunks| {
      assert chunks[j..] == [] && buffer + "" == buffer && msgs + [] == msgs;
    }
  }
}
