/** Length-prefixed frames and the sequential reading of a byte stream: the simple
    specification that the bridge's interleaved drain loop is measured against. */
module Framing {
  import opened Text

  type Byte = b: int | 0 <= b < 256
  type Bytes = seq<Byte>

  const UINT32_LIMIT: nat := 0x1_0000_0000

  /** A body whose length fits the header. */
  type Body = b: Bytes | |b| < UINT32_LIMIT

  function ReadUInt32LE(b: Bytes): (n: nat)
    requires |b| >= 4
    ensures n < UINT32_LIMIT
  {
    b[0] as int + 0x100 * (b[1] as int + 0x100 * (b[2] as int + 0x100 * b[3] as int))
  }

  function WriteUInt32LE(n: nat): (b: Bytes)
    requires n < UINT32_LIMIT
    ensures |b| == 4
  {
    [n % 0x100, n / 0x100 % 0x100, n / 0x100 / 0x100 % 0x100, n / 0x100 / 0x100 / 0x100]
  }

  lemma HeaderRoundTrip(n: nat, rest: Bytes)
    requires n < UINT32_LIMIT
    ensures ReadUInt32LE(WriteUInt32LE(n) + rest) == n
  {
    var b := WriteUInt32LE(n) + rest;
    assert b[0] == n % 0x100 && b[1] == n / 0x100 % 0x100;
    assert b[2] == n / 0x100 / 0x100 % 0x100 && b[3] == n / 0x100 / 0x100 / 0x100;
  }

  /** The bytes `#writeMessage` sends for a body. */
  function Encode(body: Body): Bytes { WriteUInt32LE(|body|) + body }

  function EncodeAll(bodies: seq<Body>): Bytes {
    if bodies == [] then [] else Encode(bodies[0]) + EncodeAll(bodies[1..])
  }

  /** A host's frame limit, and which bodies parse as JSON objects. */
  datatype Config = Config(maxFrameBytes: nat, parses: Bytes -> bool)

  predicate Accepts(c: Config, body: Body) { 0 < |body| <= c.maxFrameBytes && c.parses(body) }

  ghost predicate AllAccepted(c: Config, bodies: seq<Body>) { forall b :: b in bodies ==> Accepts(c, b) }

  /** What stands at the front of the unread bytes. */
  datatype Front = Incomplete | ZeroLength | TooLong | Unparsable | Whole(body: Body)

  function FrontOf(c: Config, s: Bytes): (f: Front)
    ensures f.Whole? ==> |s| >= 4 + |f.body| && s == Encode(f.body) + s[4 + |f.body|..] && Accepts(c, f.body)
  {
    if |s| < 4 then Incomplete
    else
      var n := ReadUInt32LE(s);
      if n == 0 then ZeroLength
      else if n > c.maxFrameBytes then TooLong
      else if |s| < 4 + n then Incomplete
      else if !c.parses(s[4..4 + n]) then Unparsable
      else
        assert s == Encode(s[4..4 + n]) + s[4 + n..] by { HeaderOfPrefix(s); }
        Whole(s[4..4 + n])
  }

  lemma HeaderOfPrefix(s: Bytes)
    requires |s| >= 4
    ensures s[..4] == WriteUInt32LE(ReadUInt32LE(s))
  {
    var n := ReadUInt32LE(s);
    assert n % 0x100 == s[0] && n / 0x100 == s[1] as int + 0x100 * (s[2] as int + 0x100 * s[3] as int);
    assert n / 0x100 % 0x100 == s[1] && n / 0x100 / 0x100 == s[2] as int + 0x100 * s[3] as int;
    assert n / 0x100 / 0x100 % 0x100 == s[2] && n / 0x100 / 0x100 / 0x100 == s[3];
  }

  /** The length that four bytes give, the lowest first. */
  function LengthOf(a: Byte, b: Byte, c: Byte, d: Byte): int {
    a as int + 0x100 * b as int + 0x1_0000 * c as int + 0x100_0000 * d as int
  }

  /** What stands at the front is told by the length in its first four bytes, and whether the body is there and
      parses. */
  lemma FrontMeans(c: Config, s: Bytes)
    ensures if |s| < 4 then FrontOf(c, s) == Incomplete
      else
        var n := LengthOf(s[0], s[1], s[2], s[3]);
        && (FrontOf(c, s) == ZeroLength <==> n == 0)
        && (FrontOf(c, s) == TooLong <==> n > c.maxFrameBytes && n > 0)
        && (FrontOf(c, s) == Incomplete <==> 0 < n <= c.maxFrameBytes && |s| < 4 + n)
        && (FrontOf(c, s) == Unparsable <==> 0 < n <= c.maxFrameBytes && |s| >= 4 + n && !c.parses(s[4..4 + n]))
        && (0 < n <= c.maxFrameBytes && |s| >= 4 + n && c.parses(s[4..4 + n]) ==>
              FrontOf(c, s).Whole? && FrontOf(c, s).body == s[4..4 + n])
  {
    if |s| >= 4 { assert ReadUInt32LE(s) == LengthOf(s[0], s[1], s[2], s[3]); }
  }

  /** A stream read in one go: the accepted bodies, and where and why reading stops. */
  datatype Reading = Reading(bodies: seq<Body>, rest: Bytes, stop: Front)

  function Read(c: Config, s: Bytes): Reading
    decreases |s|
  {
    var f := FrontOf(c, s);
    if f.Whole? then
      var r := Read(c, s[4 + |f.body|..]);
      r.(bodies := [f.body] + r.bodies)
    else Reading([], s, f)
  }

  lemma FrontOfEncoded(c: Config, body: Body, t: Bytes)
    requires Accepts(c, body)
    ensures FrontOf(c, Encode(body) + t) == Whole(body)
    ensures (Encode(body) + t)[4 + |body|..] == t
  {
    var s := Encode(body) + t;
    HeaderRoundTrip(|body|, body + t);
    assert s == WriteUInt32LE(|body|) + (body + t);
    assert s[4..4 + |body|] == body;
  }

  lemma ReadOfOne(c: Config, body: Body, t: Bytes)
    requires Accepts(c, body)
    ensures Read(c, Encode(body) + t) == Read(c, t).(bodies := [body] + Read(c, t).bodies)
  {
    FrontOfEncoded(c, body, t);
  }

  /** Reading goes through accepted frames and then reads what follows them. */
  lemma {:induction false} ReadOfEncoded(c: Config, bodies: seq<Body>, t: Bytes)
    requires AllAccepted(c, bodies)
    ensures Read(c, EncodeAll(bodies) + t) == Read(c, t).(bodies := bodies + Read(c, t).bodies)
  {
    if bodies == [] {
      assert EncodeAll(bodies) + t == t;
      assert [] + Read(c, t).bodies == Read(c, t).bodies;
    } else {
      var tail := EncodeAll(bodies[1..]);
      Associate(Encode(bodies[0]), tail, t);
      assert bodies[0] in bodies;
      ReadOfOne(c, bodies[0], tail + t);
      ReadOfEncoded(c, bodies[1..], t);
      Associate([bodies[0]], bodies[1..], Read(c, t).bodies);
      assert [bodies[0]] + bodies[1..] == bodies;
    }
  }

  /** Reading is the inverse of encoding. */
  lemma ReadIsInverse(c: Config, bodies: seq<Body>)
    requires AllAccepted(c, bodies)
    ensures Read(c, EncodeAll(bodies)) == Reading(bodies, [], Incomplete)
  {
    ReadOfEncoded(c, bodies, []);
    assert EncodeAll(bodies) + [] == EncodeAll(bodies);
    assert bodies + [] == bodies;
  }

  /** The bodies read and the rest are the whole stream. */
  lemma {:induction false} ReadAccountsForEveryByte(c: Config, s: Bytes)
    ensures s == EncodeAll(Read(c, s).bodies) + Read(c, s).rest
    ensures AllAccepted(c, Read(c, s).bodies)
    decreases |s|
  {
    var f := FrontOf(c, s);
    if f.Whole? {
      var tail := s[4 + |f.body|..];
      ReadAccountsForEveryByte(c, tail);
      var r := Read(c, tail);
      assert ([f.body] + r.bodies)[1..] == r.bodies;
      assert s == Encode(f.body) + (EncodeAll(r.bodies) + r.rest);
    } else {
      assert [] + s == s;
    }
  }

  /** More bytes do not change the front once it is decided. */
  lemma FrontIsStable(c: Config, s: Bytes, more: Bytes)
    requires !FrontOf(c, s).Incomplete?
    ensures FrontOf(c, s + more) == FrontOf(c, s)
  {
    var n := ReadUInt32LE(s);
    if 0 < n <= c.maxFrameBytes { assert (s + more)[4..4 + n] == s[4..4 + n]; }
  }

  /** Reading an extension of a stream finds the same bodies first, and stops where it stopped for good. */
  lemma {:induction false} ReadIsStable(c: Config, s: Bytes, more: Bytes)
    ensures Read(c, s).bodies <= Read(c, s + more).bodies
    ensures !Read(c, s).stop.Incomplete? ==>
      Read(c, s + more) == Read(c, s).(rest := Read(c, s).rest + more)
    decreases |s|
  {
    var f := FrontOf(c, s);
    if !f.Incomplete? { FrontIsStable(c, s, more); }
    if f.Whole? {
      assert (s + more)[4 + |f.body|..] == s[4 + |f.body|..] + more;
      ReadIsStable(c, s[4 + |f.body|..], more);
    }
  }

  /** Reading stops at what stands at the front of the rest, which is no frame. */
  lemma {:induction false} ReadStopsAtTheFront(c: Config, s: Bytes)
    ensures Read(c, s).stop == FrontOf(c, Read(c, s).rest) && !Read(c, s).stop.Whole?
    decreases |s|
  {
    var f := FrontOf(c, s);
    if f.Whole? { ReadStopsAtTheFront(c, s[4 + |f.body|..]); }
  }

  // ----- the zero-length frame ----------------------------------------------

  /** The frame that signals a clean shutdown. */
  const ZERO_FRAME: Bytes := [0, 0, 0, 0]

  lemma ZeroHeader(s: Bytes)
    requires |s| >= 4
    ensures ReadUInt32LE(s) == 0 <==> s[..4] == ZERO_FRAME
  {
    var n := ReadUInt32LE(s);
    assert n == s[0] as int + 0x100 * s[1] as int + 0x10000 * s[2] as int + 0x1000000 * s[3] as int;
    assert s[..4] == [s[0], s[1], s[2], s[3]];
  }

  /** If the stream has a zero-length frame, nothing comes behind it. */
  predicate NothingBehindShutdown(c: Config, s: Bytes) {
    Read(c, s).stop == ZeroLength ==> |Read(c, s).rest| == 4
  }

  function Ending(shutdown: bool): Bytes { if shutdown then ZERO_FRAME else [] }

  /** A stream is accepted frames, with or without a shutdown frame behind them, exactly when reading it leaves
      nothing or the shutdown frame. */
  lemma FramesAndShutdownIff(c: Config, s: Bytes)
    ensures (exists bodies: seq<Body>, shutdown :: AllAccepted(c, bodies) && s == EncodeAll(bodies) + Ending(shutdown))
      <==> Read(c, s).rest == [] || (Read(c, s).stop == ZeroLength && |Read(c, s).rest| == 4)
  {
    if bodies: seq<Body>, shutdown :| AllAccepted(c, bodies) && s == EncodeAll(bodies) + Ending(shutdown) {
      ReadOfEncoded(c, bodies, Ending(shutdown));
      ZeroHeader(ZERO_FRAME);
    }
    var r := Read(c, s);
    ReadAccountsForEveryByte(c, s);
    if r.rest == [] {
      assert s == EncodeAll(r.bodies) + Ending(false);
    }
    if r.stop == ZeroLength && |r.rest| == 4 {
      ReadStopsAtTheFront(c, s);
      ZeroHeader(r.rest);
      assert r.rest[..4] == r.rest;
      assert s == EncodeAll(r.bodies) + Ending(true);
    }
  }

  /** A stream is a concatenation of accepted frames exactly when reading it leaves nothing over. */
  lemma WholeStreamIffNothingLeft(c: Config, s: Bytes)
    ensures (exists bodies: seq<Body> :: AllAccepted(c, bodies) && s == EncodeAll(bodies)) <==> Read(c, s).rest == []
  {
    if bodies: seq<Body> :| AllAccepted(c, bodies) && s == EncodeAll(bodies) {
      ReadIsInverse(c, bodies);
    }
    if Read(c, s).rest == [] {
      ReadAccountsForEveryByte(c, s);
      assert s == EncodeAll(Read(c, s).bodies);
    }
  }
}
