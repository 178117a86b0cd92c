/** Length-prefixed frames: four bytes, big-endian, then that many bytes of JSON. The JSON layer is a
    parameter: any pair of an encoder and a decoder that undoes it. */
module Framing {
  import opened Wrappers

  newtype byte = x: int | 0 <= x < 256

  const MAX_FRAME := 16 * 1024 * 1024

  datatype Codec<!T> = Codec(encode: T -> seq<byte>, decode: seq<byte> -> Option<T>)

  /** Decoding undoes encoding. */
  ghost predicate Lawful<T(!new)>(c: Codec<T>) {
    forall v :: c.decode(c.encode(v)) == Some(v)
  }

  // ---- The length prefix ----

  function Prefix(n: nat): (bytes: seq<byte>)
    requires n < 0x1_0000_0000
    ensures |bytes| == 4
  {
    var high, middle, low := n / 0x100_0000, n / 0x1_0000, n / 0x100;
    [high as byte, (middle % 0x100) as byte, (low % 0x100) as byte, (n % 0x100) as byte]
  }

  function LengthOf(bytes: seq<byte>): (n: nat)
    requires |bytes| == 4
    ensures n < 0x1_0000_0000
  {
    ((bytes[0] as int * 0x100 + bytes[1] as int) * 0x100 + bytes[2] as int) * 0x100 + bytes[3] as int
  }

  /** Division by 256 undoes multiplication, digit by digit. */
  lemma SplitDigits(q: nat, d: nat)
    requires d < 0x100
    ensures (q * 0x100 + d) / 0x100 == q && (q * 0x100 + d) % 0x100 == d
  {
  }

  /** A 32-bit length is read back from its prefix. */
  lemma PrefixRoundTrip(n: nat)
    requires n < 0x1_0000_0000
    ensures LengthOf(Prefix(n)) == n
  {
    assert n / 0x1_0000 == n / 0x100 / 0x100 && n / 0x100_0000 == n / 0x1_0000 / 0x100;
  }

  /** Any four bytes are the prefix of the length they spell. */
  lemma LengthRoundTrip(bytes: seq<byte>)
    requires |bytes| == 4
    ensures Prefix(LengthOf(bytes)) == bytes
  {
    var n := LengthOf(bytes);
    var a := bytes[0] as int;
    var b := a * 0x100 + bytes[1] as int;
    var c := b * 0x100 + bytes[2] as int;
    SplitDigits(c, bytes[3] as int);
    SplitDigits(b, bytes[2] as int);
    SplitDigits(a, bytes[1] as int);
    assert n / 0x1_0000 == n / 0x100 / 0x100 && n / 0x100_0000 == n / 0x1_0000 / 0x100;
  }

  /** The most significant byte comes first: prefixes compare like the lengths they spell. */
  lemma PrefixesCompareAsLengths(a: seq<byte>, b: seq<byte>)
    requires |a| == 4 && |b| == 4
    ensures LengthOf(a) < LengthOf(b)
            <==> exists i :: 0 <= i < 4 && a[i] < b[i] && forall j :: 0 <= j < i ==> a[j] == b[j]
  {
    if a[0] != b[0] {
    } else if a[1] != b[1] {
    } else if a[2] != b[2] {
    }
  }

  // ---- One frame ----

  /** `None`: the body is over the limit, nothing is written. */
  function Encode<T>(c: Codec<T>, v: T): Option<seq<byte>> {
    var body := c.encode(v);
    if |body| > MAX_FRAME then None else Some(Prefix(|body|) + body)
  }

  datatype Error = Eof | TooLarge | ShortBody | Malformed

  datatype Result<T> = Got(value: T, rest: seq<byte>) | Failed(error: Error)

  function Decode<T>(c: Codec<T>, stream: seq<byte>): Result<T> {
    if |stream| < 4 then Failed(Eof)
    else
      var n := LengthOf(stream[..4]);
      if n > MAX_FRAME then Failed(TooLarge)
      else if |stream| < 4 + n then Failed(ShortBody)
      else match c.decode(stream[4..4 + n])
        case Some(v) => Got(v, stream[4 + n..])
        case None => Failed(Malformed)
  }

  predicate Fits<T>(c: Codec<T>, v: T) {
    |c.encode(v)| <= MAX_FRAME
  }

  function FrameOf<T>(c: Codec<T>, v: T): (frame: seq<byte>)
    requires Fits(c, v)
    ensures |frame| == 4 + |c.encode(v)|
  {
    Prefix(|c.encode(v)|) + c.encode(v)
  }

  /** A frame is read back, and exactly its own bytes are consumed. */
  lemma FrameRoundTrip<T(!new)>(c: Codec<T>, v: T, rest: seq<byte>)
    requires Lawful(c) && Fits(c, v)
    ensures Encode(c, v) == Some(FrameOf(c, v))
    ensures Decode(c, FrameOf(c, v) + rest) == Got(v, rest)
  {
    var body := c.encode(v);
    var stream := FrameOf(c, v) + rest;
    PrefixRoundTrip(|body|);
    assert stream[..4] == Prefix(|body|);
    assert stream[4..4 + |body|] == body;
    assert stream[4 + |body|..] == rest;
  }

  /** A frame that is cut off gives an error, whatever the cut. */
  lemma CutFrameFails<T(!new)>(c: Codec<T>, v: T, cut: nat)
    requires Fits(c, v) && cut < |FrameOf(c, v)|
    ensures Decode(c, FrameOf(c, v)[..cut]) == Failed(if cut < 4 then Eof else ShortBody)
  {
    var body := c.encode(v);
    if cut >= 4 {
      PrefixRoundTrip(|body|);
      assert FrameOf(c, v)[..cut][..4] == Prefix(|body|);
    }
  }

  /** What a reader makes of a length and what follows it: more than 16 MiB announced is an error whatever
      follows, less than announced too, and else exactly the announced bytes are decoded. */
  lemma AnnouncedLength<T(!new)>(c: Codec<T>, n: nat, rest: seq<byte>)
    requires n < 0x1_0000_0000
    ensures Decode(c, Prefix(n) + rest)
            == if n > 16 * 1024 * 1024 then Failed(TooLarge)
               else if |rest| < n then Failed(ShortBody)
               else if c.decode(rest[..n]).None? then Failed(Malformed)
               else Got(c.decode(rest[..n]).value, rest[n..])
  {
    PrefixRoundTrip(n);
    var stream := Prefix(n) + rest;
    assert stream[..4] == Prefix(n);
    if n <= |rest| {
      assert stream[4..4 + n] == rest[..n] && stream[4 + n..] == rest[n..];
    }
  }

  /** The writer refuses exactly what the reader would: bodies over 16 MiB. */
  lemma RefusedOnBothSides<T(!new)>(c: Codec<T>, v: T)
    requires Lawful(c)
    ensures Encode(c, v).None? <==> |c.encode(v)| > 16 * 1024 * 1024
    ensures |c.encode(v)| < 0x1_0000_0000 ==>
              (Encode(c, v).None? <==> Decode(c, Prefix(|c.encode(v)|) + c.encode(v)) == Failed(TooLarge))
  {
    if |c.encode(v)| < 0x1_0000_0000 { AnnouncedLength(c, |c.encode(v)|, c.encode(v)); }
    hide Decode;
  }

  // ---- A connection: frames until the first error ----

  /** What a reader makes of a stream: the values, and the error that ends it. */
  datatype Session<T> = Session(values: seq<T>, error: Error)

  function ReadAll<T>(c: Codec<T>, stream: seq<byte>): Session<T>
    decreases |stream|
  {
    match Decode(c, stream)
    case Failed(e) => Session([], e)
    case Got(v, rest) =>
      DecodeShortens(c, stream);
      var s := ReadAll(c, rest);
      Session([v] + s.values, s.error)
  }

  lemma DecodeShortens<T>(c: Codec<T>, stream: seq<byte>)
    ensures Decode(c, stream).Got? ==> |Decode(c, stream).rest| <= |stream| - 4
  {
  }

  predicate AllFit<T>(c: Codec<T>, vs: seq<T>) {
    forall i :: 0 <= i < |vs| ==> Fits(c, vs[i])
  }

  function Frames<T>(c: Codec<T>, vs: seq<T>): seq<byte>
    requires AllFit(c, vs)
  {
    if vs == [] then [] else FrameOf(c, vs[0]) + Frames(c, vs[1..])
  }

  /** Any frames, followed by anything, are read back in order, and then the rest is read as if alone. */
  lemma {:induction false} StreamRoundTrip<T(!new)>(c: Codec<T>, vs: seq<T>, tail: seq<byte>)
    requires Lawful(c) && AllFit(c, vs)
    ensures var s := ReadAll(c, tail); ReadAll(c, Frames(c, vs) + tail) == Session(vs + s.values, s.error)
  {
    hide Decode, FrameOf;
    if vs == [] {
      assert Frames(c, vs) + tail == tail;
      assert vs + ReadAll(c, tail).values == ReadAll(c, tail).values;
    } else {
      assert Frames(c, vs) + tail == FrameOf(c, vs[0]) + (Frames(c, vs[1..]) + tail);
      FrameRoundTrip(c, vs[0], Frames(c, vs[1..]) + tail);
      StreamRoundTrip(c, vs[1..], tail);
      assert vs + ReadAll(c, tail).values == [vs[0]] + (vs[1..] + ReadAll(c, tail).values);
    }
  }

  lemma ConsPrefix<T>(vs: seq<T>, some: seq<T>)
    requires vs != [] && some <= vs[1..]
    ensures [vs[0]] + some <= vs && ([vs[0]] + some == vs <==> some == vs[1..])
  {
    assert ([vs[0]] + some)[1..] == some;
  }

  /** A stream cut anywhere yields some first values unchanged, then an error, and never a value that was
      not sent; it yields all of them only if nothing of a frame is missing. */
  lemma {:induction false} CutStreamYieldsPrefix<T(!new)>(c: Codec<T>, vs: seq<T>, cut: nat)
    requires Lawful(c) && AllFit(c, vs) && cut <= |Frames(c, vs)|
    ensures var s := ReadAll(c, Frames(c, vs)[..cut]);
            && s.values <= vs && (s.error == Eof || s.error == ShortBody)
            && (s.values == vs <==> cut == |Frames(c, vs)|)
  {
    if vs == [] {
      assert Decode(c, []) == Failed(Eof);
    } else {
      hide Decode, FrameOf;
      var frame, rest := FrameOf(c, vs[0]), Frames(c, vs[1..]);
      if cut < |frame| {
        assert Frames(c, vs)[..cut] == frame[..cut];
        CutFrameFails(c, vs[0], cut);
      } else {
        assert Frames(c, vs)[..cut] == frame + rest[..cut - |frame|];
        FrameRoundTrip(c, vs[0], rest[..cut - |frame|]);
        CutStreamYieldsPrefix(c, vs[1..], cut - |frame|);
        ConsPrefix(vs, ReadAll(c, rest[..cut - |frame|]).values);
      }
    }
  }

  // ---- Frames of unknown shape ----

  /** The reader loops decode untyped JSON first and then its shape; what has no known shape is skipped. */
  function Known<V, M>(shape: V -> Option<M>, vs: seq<V>): seq<M> {
    if vs == [] then []
    else (match shape(vs[0]) case Some(m) => [m] case None => []) + Known(shape, vs[1..])
  }

  lemma {:induction false} KnownConcat<V, M>(shape: V -> Option<M>, a: seq<V>, b: seq<V>)
    ensures Known(shape, a + b) == Known(shape, a) + Known(shape, b)
  {
    if a == [] {
      assert a + b == b;
    } else {
      assert (a + b)[1..] == a[1..] + b;
      KnownConcat(shape, a[1..], b);
    }
  }

  /** Nothing of known shape is lost: each is delivered, in order. */
  lemma {:induction false} KnownAreDelivered<V, M>(shape: V -> Option<M>, vs: seq<V>)
    requires forall v :: v in vs ==> shape(v).Some?
    ensures |Known(shape, vs)| == |vs| && forall i :: 0 <= i < |vs| ==> shape(vs[i]) == Some(Known(shape, vs)[i])
  {
    if vs != [] {
      KnownAreDelivered(shape, vs[1..]);
      assert vs[0] in vs;
    }
  }

  /** A well-formed frame of unknown shape between others costs nothing but itself. */
  lemma UnknownFrameIsSkipped<V(!new), M>(c: Codec<V>, shape: V -> Option<M>, before: seq<V>, odd: V, tail: seq<byte>)
    requires Lawful(c) && AllFit(c, before) && Fits(c, odd) && shape(odd).None?
    ensures var with, without := ReadAll(c, Frames(c, before) + FrameOf(c, odd) + tail), ReadAll(c, Frames(c, before) + tail);
            Known(shape, with.values) == Known(shape, without.values) && with.error == without.error
  {
    var s := ReadAll(c, tail);
    assert Frames(c, before) + FrameOf(c, odd) + tail == Frames(c, before) + (FrameOf(c, odd) + tail);
    StreamRoundTrip(c, before, FrameOf(c, odd) + tail);
    FrameRoundTrip(c, odd, tail);
    StreamRoundTrip(c, before, tail);
    KnownConcat(shape, before, [odd] + s.values);
    KnownConcat(shape, before, s.values);
    assert ([odd] + s.values)[1..] == s.values;
    assert [] + Known(shape, s.values) == Known(shape, s.values);
  }

  // ---- Reading from a socket ----

  function Flat(chunks: seq<seq<byte>>): seq<byte> {
    if chunks == [] then [] else chunks[0] + Flat(chunks[1..])
  }

  /** Bytes arrive in chunks, cut wherever the network cuts them. */
  class Socket {
    var chunks: seq<seq<byte>>

    constructor (chunks: seq<seq<byte>>)
      ensures this.chunks == chunks
    {
      this.chunks := chunks;
    }

    /** At most `max` bytes of what has arrived; none only at the end, or when none are asked for. */
    method ReadSome(max: nat) returns (bytes: seq<byte>)
      modifies this
      ensures |bytes| <= max && old(Flat(chunks)) == bytes + Flat(chunks)
      ensures bytes == [] ==> max == 0 || Flat(chunks) == []
    {
      while chunks != [] && chunks[0] == []
        invariant Flat(chunks) == old(Flat(chunks))
        decreases |chunks|
      {
        chunks := chunks[1..];
      }
      if chunks == [] { return []; }
      var n := if |chunks[0]| < max then |chunks[0]| else max;
      bytes := chunks[0][..n];
      chunks := [chunks[0][n..]] + chunks[1..];
      assert old(Flat(chunks)) == bytes + Flat(chunks);
    }

    /** Up to `n` bytes, fewer only if the stream ends: the loop of `read_exact` and of a bounded
        `read_to_end`. */
    method ReadUpTo(n: nat) returns (bytes: seq<byte>)
      modifies this
      ensures old(Flat(chunks)) == bytes + Flat(chunks)
      ensures |bytes| == if |old(Flat(chunks))| < n then |old(Flat(chunks))| else n
    {
      bytes := [];
      while |bytes| < n
        invariant |bytes| <= n && old(Flat(chunks)) == bytes + Flat(chunks)
        decreases n - |bytes|
      {
        var more := ReadSome(n - |bytes|);
        if more == [] { return; }
        bytes := bytes + more;
      }
    }

    /** However the stream was cut into chunks, the outcome is that of the whole. */
    method ReadMsg<T>(c: Codec<T>) returns (r: Result<T>)
      modifies this
      ensures r == Decode(c, old(Flat(chunks)))
      ensures r.Got? ==> Flat(chunks) == r.rest
      ensures r == Failed(TooLarge) ==> old(Flat(chunks)) == old(Flat(chunks))[..4] + Flat(chunks)
    {
      ghost var stream := Flat(chunks);
      var prefix := ReadUpTo(4);
      if |prefix| < 4 { return Failed(Eof); }
      assert prefix == stream[..4];
      var n := LengthOf(prefix);
      if n > MAX_FRAME { return Failed(TooLarge); }
      var body := ReadUpTo(n);
      assert stream == prefix + (body + Flat(chunks));
      if |body| != n { return Failed(ShortBody); }
      assert stream[4..4 + n] == body && stream[4 + n..] == Flat(chunks);
      var v := c.decode(body);
      if v.None? { return Failed(Malformed); }
      return Got(v.value, Flat(chunks));
    }
  }
}
