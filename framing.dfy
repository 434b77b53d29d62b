/**
 * Splitting the per-connection receive buffer into newline-terminated frames
 * (the inner `while '\n' in buffer` loop of the connection handler).
 */
module Framing {

  const Delimiter: char := '\n'

  /** Index of the first delimiter: where `str.split('\n', 1)` cuts. */
  function FirstDelimiter(b: string): (i: nat)
    requires Delimiter in b
    ensures i < |b| && b[i] == Delimiter
    ensures Delimiter !in b[..i]
  {
    if b[0] == Delimiter then 0
    else
      var j := FirstDelimiter(b[1..]);
      assert b[..j + 1] == [b[0]] + b[1..][..j];
      j + 1
  }

  /**
   * The frames a buffer holds, in order, and the unterminated tail kept for
   * the next read.
   */
  function SplitFrames(b: string): (r: (seq<string>, string))
    ensures forall k :: 0 <= k < |r.0| ==> Delimiter !in r.0[k]
    ensures Delimiter !in r.1
    decreases |b|
  {
    if Delimiter !in b then ([], b)
    else
      var i := FirstDelimiter(b);
      var tail := SplitFrames(b[i + 1..]);
      ([b[..i]] + tail.0, tail.1)
  }

  /** The wire form of a sequence of frames: each one followed by a delimiter. */
  function Join(frames: seq<string>): string {
    if frames == [] then "" else frames[0] + [Delimiter] + Join(frames[1..])
  }

  /** Joining a frame in front of others puts it and its delimiter in front. */
  lemma JoinCons(frame: string, frames: seq<string>)
    ensures Join([frame] + frames) == frame + [Delimiter] + Join(frames)
  {
    assert ([frame] + frames)[0] == frame;
    assert ([frame] + frames)[1..] == frames;
  }

  /** A buffer is exactly its frames, each re-terminated, followed by the retained tail. */
  lemma {:induction false} SplitFramesJoin(b: string)
    ensures Join(SplitFrames(b).0) + SplitFrames(b).1 == b
    decreases |b|
  {
    if Delimiter in b {
      var i := FirstDelimiter(b);
      var after := b[i + 1..];
      var tail := SplitFrames(after);
      SplitFramesJoin(after);
      assert SplitFrames(b) == ([b[..i]] + tail.0, tail.1);
      JoinCons(b[..i], tail.0);
      assert b == b[..i] + [Delimiter] + after;
    }
  }

  /** A delimiter with none before it is the first one. */
  lemma FirstDelimiterAt(b: string, i: nat)
    requires i < |b| && b[i] == Delimiter && Delimiter !in b[..i]
    ensures FirstDelimiter(b) == i
  {
    var j := FirstDelimiter(b);
    assert forall k :: 0 <= k < i ==> b[..i][k] == b[k];
    assert forall k :: 0 <= k < j ==> b[..j][k] == b[k];
  }

  /**
   * The split is the only decomposition into delimiter-free frames and a
   * delimiter-free tail: joining such frames and a tail and splitting again
   * gives them back.
   */
  lemma {:induction false} SplitFramesUnique(frames: seq<string>, rest: string)
    requires forall k :: 0 <= k < |frames| ==> Delimiter !in frames[k]
    requires Delimiter !in rest
    ensures SplitFrames(Join(frames) + rest) == (frames, rest)
  {
    if frames != [] {
      var b := Join(frames) + rest;
      var f := frames[0];
      var after := Join(frames[1..]) + rest;
      assert b == f + [Delimiter] + after;
      assert b[..|f|] == f;
      assert b[|f|] == Delimiter;
      assert Delimiter in b;
      FirstDelimiterAt(b, |f|);
      assert b[|f| + 1..] == after;
      SplitFramesUnique(frames[1..], rest);
      assert SplitFrames(b) == ([b[..|f|]] + SplitFrames(after).0, SplitFrames(after).1);
      assert [f] + frames[1..] == frames;
    } else {
      assert Join(frames) + rest == rest;
    }
  }

  /**
   * One turn of the handler's loop: if the buffer still holds the frames from
   * `consumed` on, cutting at the first delimiter yields the next frame and
   * leaves a buffer holding the frames after it.
   */
  lemma NextFrame(frames: seq<string>, consumed: nat, rest: string, b: string)
    requires Delimiter in b
    requires consumed <= |frames| && SplitFrames(b).0 == frames[consumed..] && SplitFrames(b).1 == rest
    ensures consumed < |frames|
    ensures frames[consumed] == b[..FirstDelimiter(b)]
    ensures SplitFrames(b[FirstDelimiter(b) + 1..]).0 == frames[consumed + 1..]
    ensures SplitFrames(b[FirstDelimiter(b) + 1..]).1 == rest
  {
    var after := SplitFrames(b[FirstDelimiter(b) + 1..]);
    assert frames[consumed..] == [b[..FirstDelimiter(b)]] + after.0;
    assert frames[consumed..][1..] == frames[consumed + 1..];
  }
}
