/** Properties of the line framing: the round trip, the shape of a line, and `str.strip()`. */
module LineFramingProperties {
  import opened LineFraming

  /** Framing loses nothing: the lines, each with its line feed back, then the tail, are the input. */
  lemma {:induction false} FramingRoundTrip(s: string)
    ensures JoinLines(Lines(s)) + Remainder(s) == s
    decreases |s|
  {
    var i := IndexOfNewline(s);
    if i >= 0 {
      var head, tail := s[..i], s[i + 1..];
      LinesUnfold(s);
      JoinLinesCons(head, Lines(tail));
      FramingRoundTrip(tail);
      ConcatAssoc(head + "\n", JoinLines(Lines(tail)), Remainder(tail));
      SplitAtNewline(s, i);
    } else {
      assert JoinLines(Lines(s)) == "";
    }
  }

  lemma JoinLinesCons(x: string, ls: seq<string>)
    ensures JoinLines([x] + ls) == x + "\n" + JoinLines(ls)
  {
    assert ([x] + ls)[1..] == ls;
  }

  /** No line and no tail holds a line feed. */
  lemma {:induction false} FramesHaveNoNewline(s: string)
    ensures forall k :: 0 <= k < |Lines(s)| ==> '\n' !in Lines(s)[k]
    ensures '\n' !in Remainder(s)
    decreases |s|
  {
    IndexOfNewlineFirst(s);
    var i := IndexOfNewline(s);
    if i >= 0 {
      var tail := s[i + 1..];
      LinesUnfold(s);
      FramesHaveNoNewline(tail);
      forall k | 0 <= k < |Lines(s)|
        ensures '\n' !in Lines(s)[k]
      {
        if k > 0 {
          assert Lines(s)[k] == Lines(tail)[k - 1];
        }
      }
    }
  }

  lemma SlicesAroundNewline(x: string, rest: string)
    ensures var s := x + "\n" + rest;
            && s[|x|] == '\n' && s[..|x|] == x && s[|x| + 1..] == rest
  {
    var s := x + "\n" + rest;
    assert s[..|x|] == x;
    assert s[|x| + 1..] == rest;
  }

  /** The other direction of the round trip: framing recovers lines that hold no line feed. */
  lemma {:induction false} FramingOfJoin(ls: seq<string>, tail: string)
    requires forall k :: 0 <= k < |ls| ==> '\n' !in ls[k]
    requires '\n' !in tail
    ensures Lines(JoinLines(ls) + tail) == ls
    ensures Remainder(JoinLines(ls) + tail) == tail
    decreases |ls|
  {
    if ls != [] {
      var s := JoinLines(ls) + tail;
      var rest := JoinLines(ls[1..]) + tail;
      ConcatAssoc(ls[0] + "\n", JoinLines(ls[1..]), tail);
      SlicesAroundNewline(ls[0], rest);
      IndexOfNewlineAt(s, |ls[0]|);
      LinesUnfold(s);
      assert forall k :: 0 <= k < |ls[1..]| ==> ls[1..][k] == ls[k + 1];
      FramingOfJoin(ls[1..], tail);
      assert ls == [ls[0]] + ls[1..];
    }
  }

  /** Nothing after the first empty chunk (a closed connection) is received. */
  lemma {:induction false} ReceivedIsPrefixConcat(chunks: seq<string>, more: seq<string>)
    requires forall k :: 0 <= k < |chunks| ==> chunks[k] != ""
    ensures Received(chunks + [""] + more) == Received(chunks)
    decreases |chunks|
  {
    if chunks != [] {
      assert (chunks + [""] + more)[1..] == chunks[1..] + [""] + more;
      ReceivedIsPrefixConcat(chunks[1..], more);
    } else {
      assert (chunks + [""] + more)[0] == "";
    }
  }

  /**
   * Splitting one chunk into two non-empty chunks changes neither the data
   * received nor, therefore, the messages handed on.
   */
  lemma {:induction false} ChunkingIndependent(pre: seq<string>, a: string, b: string, post: seq<string>)
    requires forall k :: 0 <= k < |pre| ==> pre[k] != ""
    requires a != "" && b != ""
    ensures Received(pre + [a + b] + post) == Received(pre + [a, b] + post)
    decreases |pre|
  {
    if pre != [] {
      assert (pre + [a + b] + post)[1..] == pre[1..] + [a + b] + post;
      assert (pre + [a, b] + post)[1..] == pre[1..] + [a, b] + post;
      ChunkingIndependent(pre[1..], a, b, post);
    } else {
      assert ([a, b] + post)[1..] == [b] + post;
    }
  }

  /** `str.strip()` removes exactly the white space at both ends. */
  lemma StripSpec(s: string)
    ensures var r := Strip(s); r == "" || (!IsSpace(r[0]) && !IsSpace(r[|r| - 1]))
    ensures exists i, j :: 0 <= i <= j <= |s| && Strip(s) == s[i..j]
              && (forall k :: 0 <= k < i ==> IsSpace(s[k]))
              && (forall k :: j <= k < |s| ==> IsSpace(s[k]))
  {
    var i := TrimLeftSpec(s);
    var t := TrimLeft(s);
    var j := TrimRightSpec(t);
    assert Strip(s) == s[i..i + j];
    assert forall k :: i + j <= k < |s| ==> s[k] == t[k - i];
  }

  lemma {:induction false} TrimLeftSpec(s: string) returns (i: nat)
    ensures i <= |s| && TrimLeft(s) == s[i..]
    ensures forall k :: 0 <= k < i ==> IsSpace(s[k])
    ensures TrimLeft(s) == "" || !IsSpace(TrimLeft(s)[0])
    decreases |s|
  {
    if |s| > 0 && IsSpace(s[0]) {
      var i' := TrimLeftSpec(s[1..]);
      i := i' + 1;
      assert s[1..][i'..] == s[i..];
    } else {
      i := 0;
    }
  }

  lemma {:induction false} TrimRightSpec(s: string) returns (j: nat)
    ensures j <= |s| && TrimRight(s) == s[..j]
    ensures forall k :: j <= k < |s| ==> IsSpace(s[k])
    ensures TrimRight(s) == "" || !IsSpace(TrimRight(s)[|TrimRight(s)| - 1])
    decreases |s|
  {
    if |s| > 0 && IsSpace(s[|s| - 1]) {
      j := TrimRightSpec(s[..|s| - 1]);
      assert s[..|s| - 1][..j] == s[..j];
    } else {
      j := |s|;
    }
  }
}
