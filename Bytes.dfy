/**
 * The body of a response arrives as a sequence of data chunks; the success
 * path writes them, in arrival order, to the segment file.
 */
module Bytes {

  newtype byte = x: int | 0 <= x < 256

  /** The bytes of `chunks` laid end to end, as successive writes leave them in a file. */
  function Concat(chunks: seq<seq<byte>>): seq<byte>
  {
    if chunks == [] then [] else Concat(chunks[..|chunks| - 1]) + chunks[|chunks| - 1]
  }

  lemma {:induction false} ConcatAppend(a: seq<seq<byte>>, b: seq<seq<byte>>)
    ensures Concat(a + b) == Concat(a) + Concat(b)
    decreases |b|
  {
    if b == [] {
      assert a + b == a;
    } else {
      var front, last := b[..|b| - 1], b[|b| - 1];
      assert (a + b)[..|a + b| - 1] == a + front;
      assert (a + b)[|a + b| - 1] == last;
      calc {
        Concat(a + b);
        Concat(a + front) + last;
        { ConcatAppend(a, front); }
        (Concat(a) + Concat(front)) + last;
        Concat(a) + (Concat(front) + last);
        Concat(a) + Concat(b);
      }
    }
  }

  /**
   * One way the network may cut `body` into data events: a chunk of at most
   * each of `sizes` in turn, and whatever is left as a last chunk.
   */
  function Split(body: seq<byte>, sizes: seq<nat>): seq<seq<byte>>
    decreases |sizes|
  {
    if sizes == [] then (if body == [] then [] else [body])
    else
      var n := if sizes[0] <= |body| then sizes[0] else |body|;
      [body[..n]] + Split(body[n..], sizes[1..])
  }

  /** However the body is cut into chunks, writing them in order restores it byte for byte. */
  lemma {:induction false} SplitRoundTrip(body: seq<byte>, sizes: seq<nat>)
    ensures Concat(Split(body, sizes)) == body
    decreases |sizes|
  {
    if sizes == [] {
      if body != [] {
        assert Concat([body]) == Concat([]) + body;
      }
    } else {
      var n := if sizes[0] <= |body| then sizes[0] else |body|;
      var rest := Split(body[n..], sizes[1..]);
      assert Split(body, sizes) == [body[..n]] + rest;
      assert Concat([body[..n]]) == Concat([]) + body[..n];
      calc {
        Concat([body[..n]] + rest);
        { ConcatAppend([body[..n]], rest); }
        body[..n] + Concat(rest);
        { SplitRoundTrip(body[n..], sizes[1..]); }
        body[..n] + body[n..];
        body;
      }
    }
  }
}
