/**
 The incremental ZMTP 3.0 frame parser ("Framing" in RFC 23/ZMTP) of the block and
 transaction feeds, fed by a socket in arbitrary chunks.
 */
module Zmtp {
  import opened Options
  import opened Bytes

  /** flags & mask for a one-bit mask. */
  predicate Bit(flags: byte, mask: nat) requires mask > 0 { flags / mask % 2 == 1 }

  const MORE := 1
  const LONG := 2
  const COMMAND := 4
  const GREETING := 64

  datatype Frame = Frame(flags: byte, body: seq<byte>)

  // ---- The printer ----------------------------------------------------------

  /** The bytes of a frame: a one-byte length, or flags | 0x02 and eight bytes. */
  function Print(f: Frame): seq<byte> {
    if |f.body| <= 255 then [f.flags, |f.body|] + f.body
    else [if Bit(f.flags, LONG) then f.flags else f.flags + LONG] + ToBig(|f.body|, 8) + f.body
  }

  /** frame(flags, body): the same bytes, filled into a fresh array. */
  method FillFrame(flags: byte, body: seq<byte>) returns (b: array<byte>)
    ensures fresh(b) && b[..] == Print(Frame(flags, body))
  {
    var header: seq<byte>;
    if |body| <= 255 {
      header := [flags, |body|];
    } else {
      header := [if Bit(flags, LONG) then flags else flags + LONG] + ToBig(|body|, 8);
    }
    b := new byte[|header| + |body|];
    for i := 0 to |header|
      invariant forall j :: 0 <= j < i ==> b[j] == header[j]
    {
      b[i] := header[i];
    }
    for i := 0 to |body|
      invariant forall j :: 0 <= j < |header| ==> b[j] == header[j]
      invariant forall j :: 0 <= j < i ==> b[|header| + j] == body[j]
    {
      b[|header| + i] := body[i];
    }
    assert b[..] == header + body;
  }

  // ---- The parser -----------------------------------------------------------

  /** The complete frame at the head of the buffer and what follows it, if there is one. */
  function Head(buffer: seq<byte>): (r: Option<(Frame, seq<byte>)>)
    ensures r.Some? ==> |r.value.1| < |buffer|
  {
    if |buffer| < 2 then None
    else if Bit(buffer[0], LONG) && |buffer| < 9 then None
    else
      var header, size :=
        if Bit(buffer[0], LONG) then 9 else 2,
        if Bit(buffer[0], LONG) then FromBig(buffer[1..9]) else buffer[1];
      if |buffer| < header + size then None
      else Some((Frame(buffer[0], buffer[header..header + size]), buffer[header + size..]))
  }

  /**
   The connection's state: bytes not yet parsed, the parts of an unfinished message, and
   the payloads handed to onMessage so far.
   */
  datatype State = State(buffer: seq<byte>, handshakeDone: bool, frames: seq<seq<byte>>, delivered: seq<seq<byte>>)

  /** TextDecoder drops a leading byte order mark, so an ASCII topic has two spellings. */
  predicate IsTopic(topic: seq<byte>, frame: seq<byte>) {
    frame == topic || frame == [0xEF, 0xBB, 0xBF] + topic
  }

  /** The payload a finished message delivers. */
  function Payload(topic: seq<byte>, frames: seq<seq<byte>>): seq<seq<byte>> {
    if |frames| >= 2 && IsTopic(topic, frames[0]) then [frames[1]] else []
  }

  /** One frame taken in. */
  function Accept(topic: seq<byte>, s: State, f: Frame): State {
    if Bit(f.flags, COMMAND) then s
    else if Bit(f.flags, MORE) then s.(frames := s.frames + [f.body])
    else s.(frames := [], delivered := s.delivered + Payload(topic, s.frames + [f.body]))
  }

  /** Every complete frame taken off the buffer. */
  function Drain(topic: seq<byte>, s: State): State
    decreases |s.buffer|
  {
    match Head(s.buffer)
    case None => s
    case Some((f, rest)) => Drain(topic, Accept(topic, s, f).(buffer := rest))
  }

  lemma DrainStops(topic: seq<byte>, s: State)
    requires Head(s.buffer).None?
    ensures Drain(topic, s) == s
  {
  }

  lemma DrainStep(topic: seq<byte>, s: State, f: Frame, rest: seq<byte>)
    requires Head(s.buffer) == Some((f, rest))
    ensures Drain(topic, s) == Drain(topic, Accept(topic, s, f).(buffer := rest))
  {
  }

  /** A chunk from the socket. */
  function Feed(topic: seq<byte>, s: State, chunk: seq<byte>): State {
    var t := s.(buffer := s.buffer + chunk);
    if t.handshakeDone then Drain(topic, t)
    else if |t.buffer| < GREETING then t
    else Drain(topic, t.(buffer := t.buffer[GREETING..], handshakeDone := true))
  }

  const FRESH := State([], false, [], [])

  class Subscriber {
    const topic: seq<byte>
    var buffer: seq<byte>
    var handshakeDone: bool
    var frames: seq<seq<byte>>
    var delivered: seq<seq<byte>>

    ghost function Now(): State reads this { State(buffer, handshakeDone, frames, delivered) }

    constructor (topic: seq<byte>)
      ensures this.topic == topic && Now() == FRESH
    {
      this.topic := topic;
      buffer, handshakeDone, frames, delivered := [], false, [], [];
    }

    /** The socket's data handler with processBuffer. */
    method OnData(chunk: seq<byte>)
      modifies this
      ensures Now() == Feed(topic, old(Now()), chunk)
    {
      hide Drain, FromBig, IsTopic;
      buffer := buffer + chunk;
      if !handshakeDone {
        if |buffer| < GREETING { return; }
        buffer := buffer[GREETING..];
        handshakeDone := true;
      }
      while |buffer| >= 2
        invariant Drain(topic, Now()) == Feed(topic, old(Now()), chunk)
        decreases |buffer|
      {
        ghost var before := Now();
        var flags := buffer[0];
        var size: nat;
        var header: nat;
        if Bit(flags, LONG) {
          if |buffer| < 9 { DrainStops(topic, Now()); return; }
          size := FromBig(buffer[1..9]);
          header := 9;
        } else {
          size := buffer[1];
          header := 2;
        }
        if |buffer| < header + size { DrainStops(topic, Now()); return; }
        var body := buffer[header..header + size];
        buffer := buffer[header + size..];
        assert Head(before.buffer) == Some((Frame(flags, body), buffer));
        DrainStep(topic, before, Frame(flags, body), buffer);
        ghost var after := Accept(topic, before, Frame(flags, body)).(buffer := buffer);
        if Bit(flags, COMMAND) { continue; }
        frames := frames + [body];
        if Bit(flags, MORE) { continue; }
        if |frames| >= 2 && IsTopic(topic, frames[0]) {
          delivered := delivered + [frames[1]];
        }
        frames := [];
        assert delivered == after.delivered;
      }
      DrainStops(topic, Now());
    }
  }

  // ---- Any split of the stream gives the same result ------------------------

  /** More bytes behind a complete frame do not change it. */
  lemma HeadStable(buffer: seq<byte>, more: seq<byte>)
    requires Head(buffer).Some?
    ensures Head(buffer + more) == Some((Head(buffer).value.0, Head(buffer).value.1 + more))
  {
    var all := buffer + more;
    assert all[0] == buffer[0];
    if Bit(buffer[0], LONG) {
      assert all[1..9] == buffer[1..9];
    }
    var n := |buffer| - |Head(buffer).value.1|;
    assert all[n..] == buffer[n..] + more;
    var header := if Bit(buffer[0], LONG) then 9 else 2;
    assert all[header..n] == buffer[header..n];
  }

  lemma {:induction false} DrainAppend(topic: seq<byte>, s: State, more: seq<byte>)
    ensures var d := Drain(topic, s);
            Drain(topic, s.(buffer := s.buffer + more)) == Drain(topic, d.(buffer := d.buffer + more))
    decreases |s.buffer|
  {
    if Head(s.buffer).Some? {
      var (f, rest) := Head(s.buffer).value;
      HeadStable(s.buffer, more);
      DrainAppend(topic, Accept(topic, s, f).(buffer := rest), more);
    }
  }

  lemma {:induction false} DrainKeepsHandshake(topic: seq<byte>, s: State)
    ensures Drain(topic, s).handshakeDone == s.handshakeDone
    decreases |s.buffer|
  {
    if Head(s.buffer).Some? {
      var (f, rest) := Head(s.buffer).value;
      DrainKeepsHandshake(topic, Accept(topic, s, f).(buffer := rest));
    }
  }

  /** Two chunks are as good as their concatenation, from any state. */
  lemma FeedSplit(topic: seq<byte>, s: State, a: seq<byte>, b: seq<byte>)
    ensures Feed(topic, Feed(topic, s, a), b) == Feed(topic, s, a + b)
  {
    assert s.buffer + (a + b) == (s.buffer + a) + b;
    var t := s.(buffer := s.buffer + a);
    if s.handshakeDone {
      DrainKeepsHandshake(topic, t);
      DrainAppend(topic, t, b);
    } else if |t.buffer| >= GREETING {
      var u := t.(buffer := t.buffer[GREETING..], handshakeDone := true);
      assert (t.buffer + b)[GREETING..] == u.buffer + b;
      DrainKeepsHandshake(topic, u);
      DrainAppend(topic, u, b);
    }
  }

  function FeedAll(topic: seq<byte>, s: State, chunks: seq<seq<byte>>): State
    decreases chunks
  {
    if chunks == [] then s else FeedAll(topic, Feed(topic, s, chunks[0]), chunks[1..])
  }

  /** Chunk independence: any split of a stream leaves the parser in the same state. */
  lemma {:induction false} ChunkIndependence(topic: seq<byte>, s: State, chunks: seq<seq<byte>>)
    requires Feed(topic, s, []) == s
    ensures FeedAll(topic, s, chunks) == Feed(topic, s, Concat(chunks))
    decreases chunks
  {
    if chunks != [] {
      FeedSplit(topic, s, chunks[0], []);
      assert chunks[0] + [] == chunks[0];
      ChunkIndependence(topic, Feed(topic, s, chunks[0]), chunks[1..]);
      FeedSplit(topic, s, chunks[0], Concat(chunks[1..]));
    }
  }

  // ---- Parsing inverts printing ----------------------------------------------

  /** A frame as frame() is called: the length form (0x02) is left to it, the size fits 64 bits. */
  predicate Printable(f: Frame) {
    !Bit(f.flags, 2) && |f.body| < Pow256(8)
  }

  function Stream(fs: seq<Frame>): seq<byte> {
    if fs == [] then [] else Print(fs[0]) + Stream(fs[1..])
  }

  /** One part of a message, and whether more follow. */
  datatype Part = Part(more: bool, body: seq<byte>)

  /** The message parts among the frames: commands (0x04) are no part of any message, 0x01 announces more. */
  function Data(fs: seq<Frame>): seq<Part> {
    if fs == [] then []
    else if Bit(fs[0].flags, 4) then Data(fs[1..])
    else [Part(Bit(fs[0].flags, 1), fs[0].body)] + Data(fs[1..])
  }

  /** A message's parts from the i-th on: all but the last announce more. */
  function Parts(m: seq<seq<byte>>, i: nat): seq<Part>
    requires i <= |m|
    decreases |m| - i
  {
    if i == |m| then [] else [Part(i < |m| - 1, m[i])] + Parts(m, i + 1)
  }

  function AllParts(ms: seq<seq<seq<byte>>>): seq<Part> {
    if ms == [] then [] else Parts(ms[0], 0) + AllParts(ms[1..])
  }

  /** The payloads the messages are to deliver. */
  function Payloads(topic: seq<byte>, ms: seq<seq<seq<byte>>>): seq<seq<byte>> {
    if ms == [] then [] else Payload(topic, ms[0]) + Payloads(topic, ms[1..])
  }

  /** The parts of a message still waiting for its last. */
  function Unfinished(bodies: seq<seq<byte>>): seq<Part> {
    seq(|bodies|, i requires 0 <= i < |bodies| => Part(true, bodies[i]))
  }

  function AcceptPart(topic: seq<byte>, s: State, p: Part): State {
    if p.more then s.(frames := s.frames + [p.body])
    else s.(frames := [], delivered := s.delivered + Payload(topic, s.frames + [p.body]))
  }

  function AcceptParts(topic: seq<byte>, s: State, ps: seq<Part>): State
    decreases ps
  {
    if ps == [] then s else AcceptParts(topic, AcceptPart(topic, s, ps[0]), ps[1..])
  }

  lemma {:induction false} AcceptConcat(topic: seq<byte>, s: State, ps: seq<Part>, qs: seq<Part>)
    ensures AcceptParts(topic, s, ps + qs) == AcceptParts(topic, AcceptParts(topic, s, ps), qs)
    decreases ps
  {
    if ps == [] {
      assert ps + qs == qs;
    } else {
      assert (ps + qs)[1..] == ps[1..] + qs;
      AcceptConcat(topic, AcceptPart(topic, s, ps[0]), ps[1..], qs);
    }
  }

  /** A printed frame is read back, up to the length flag, with the rest untouched. */
  lemma HeadInvertsPrint(f: Frame, rest: seq<byte>)
    requires Printable(f)
    ensures var r := Head(Print(f) + rest);
            && r.Some? && r.value.0.body == f.body && r.value.1 == rest
            && Bit(r.value.0.flags, MORE) == Bit(f.flags, MORE)
            && Bit(r.value.0.flags, COMMAND) == Bit(f.flags, COMMAND)
  {
    hide FromBig, ToBig, Pow256;
    var b := Print(f) + rest;
    if |f.body| <= 255 {
      assert b == [f.flags, |f.body|] + (f.body + rest);
      assert b[2..2 + |f.body|] == f.body && b[2 + |f.body|..] == rest;
    } else {
      var size := ToBig(|f.body|, 8);
      BigRoundTrip(|f.body|, 8);
      assert b == [f.flags + LONG] + size + (f.body + rest);
      assert b[1..9] == size;
      assert b[9..9 + |f.body|] == f.body && b[9 + |f.body|..] == rest;
    }
  }

  lemma {:induction false} DrainStream(topic: seq<byte>, s: State, fs: seq<Frame>)
    requires s.buffer == Stream(fs) && forall i :: 0 <= i < |fs| ==> Printable(fs[i])
    ensures Drain(topic, s) == AcceptParts(topic, s.(buffer := []), Data(fs))
    decreases fs
  {
    if fs != [] {
      HeadInvertsPrint(fs[0], Stream(fs[1..]));
      var (f, rest) := Head(s.buffer).value;
      var t := Accept(topic, s, f).(buffer := rest);
      DrainStream(topic, t, fs[1..]);
      if !Bit(fs[0].flags, COMMAND) {
        assert Data(fs)[1..] == Data(fs[1..]);
        assert t.(buffer := []) == AcceptPart(topic, s.(buffer := []), Data(fs)[0]);
      }
    }
  }

  lemma {:induction false} AcceptMessage(topic: seq<byte>, s: State, m: seq<seq<byte>>, i: nat)
    requires i < |m| && s.frames == m[..i]
    ensures AcceptParts(topic, s, Parts(m, i)) ==
            s.(frames := [], delivered := s.delivered + Payload(topic, m))
    decreases |m| - i
  {
    assert Parts(m, i)[1..] == Parts(m, i + 1);
    assert m[..i] + [m[i]] == m[..i + 1];
    if i < |m| - 1 {
      AcceptMessage(topic, s.(frames := m[..i + 1]), m, i + 1);
    } else {
      assert m[..i + 1] == m;
    }
  }

  lemma {:induction false} AcceptMessages(topic: seq<byte>, s: State, ms: seq<seq<seq<byte>>>)
    requires s.frames == [] && forall i :: 0 <= i < |ms| ==> ms[i] != []
    ensures AcceptParts(topic, s, AllParts(ms)) == s.(delivered := s.delivered + Payloads(topic, ms))
    decreases ms
  {
    hide Parts, Payload;
    if ms == [] {
      assert s.delivered + [] == s.delivered;
    } else {
      AcceptConcat(topic, s, Parts(ms[0], 0), AllParts(ms[1..]));
      AcceptMessage(topic, s, ms[0], 0);
      var t := s.(delivered := s.delivered + Payload(topic, ms[0]));
      AcceptMessages(topic, t, ms[1..]);
      assert t.delivered + Payloads(topic, ms[1..]) == s.delivered + Payloads(topic, ms);
    }
  }

  lemma {:induction false} AcceptUnfinished(topic: seq<byte>, s: State, tail: seq<seq<byte>>)
    ensures AcceptParts(topic, s, Unfinished(tail)) == s.(frames := s.frames + tail)
    decreases tail
  {
    if tail == [] {
      assert s.frames + tail == s.frames;
    } else {
      assert Unfinished(tail)[1..] == Unfinished(tail[1..]);
      AcceptUnfinished(topic, s.(frames := s.frames + [tail[0]]), tail[1..]);
      assert s.frames + [tail[0]] + tail[1..] == s.frames + tail;
    }
  }

  /** The message has a second part, and its first is the topic, perhaps behind a byte order mark. */
  predicate ForTopic(topic: seq<byte>, m: seq<seq<byte>>) {
    |m| >= 2 && (m[0] == topic || m[0] == [0xEF, 0xBB, 0xBF] + topic)
  }

  /** Each index listed is of a message for the topic, and they increase. */
  predicate Sound(topic: seq<byte>, ms: seq<seq<seq<byte>>>, idx: seq<nat>) {
    && (forall k :: 0 <= k < |idx| ==> idx[k] < |ms| && ForTopic(topic, ms[idx[k]]))
    && (forall k, l :: 0 <= k < l < |idx| ==> idx[k] < idx[l])
  }

  /** Every message for the topic is listed. */
  predicate Complete(topic: seq<byte>, ms: seq<seq<seq<byte>>>, idx: seq<nat>) {
    forall j :: 0 <= j < |ms| && ForTopic(topic, ms[j]) ==> j in idx
  }

  /** The payloads are the second parts of the messages listed. */
  predicate Seconds(ms: seq<seq<seq<byte>>>, idx: seq<nat>, payloads: seq<seq<byte>>) {
    && |payloads| == |idx|
    && forall k :: 0 <= k < |idx| ==> idx[k] < |ms| && |ms[idx[k]]| >= 2 && payloads[k] == ms[idx[k]][1]
  }

  /** What is delivered is the second part of each message for the topic, in order. */
  ghost predicate SecondParts(topic: seq<byte>, ms: seq<seq<seq<byte>>>, delivered: seq<seq<byte>>) {
    exists idx: seq<nat> :: Sound(topic, ms, idx) && Complete(topic, ms, idx) && Seconds(ms, idx, delivered)
  }

  /** The indices among ms of those listed of its tail, behind the first's. */
  function Shifted(first: seq<nat>, rest: seq<nat>): seq<nat> {
    first + seq(|rest|, k requires 0 <= k < |rest| => rest[k] + 1)
  }

  lemma ShiftedAt(first: seq<nat>, rest: seq<nat>)
    ensures |Shifted(first, rest)| == |first| + |rest|
    ensures forall k :: 0 <= k < |first| ==> Shifted(first, rest)[k] == first[k]
    ensures forall k :: |first| <= k < |first| + |rest| ==> Shifted(first, rest)[k] == rest[k - |first|] + 1
  {
  }

  lemma SoundCons(topic: seq<byte>, ms: seq<seq<seq<byte>>>, first: seq<nat>, rest: seq<nat>)
    requires ms != [] && Sound(topic, ms[1..], rest) && first == if ForTopic(topic, ms[0]) then [0] else []
    ensures Sound(topic, ms, Shifted(first, rest))
  {
    hide ForTopic, Shifted;
    ShiftedAt(first, rest);
  }

  lemma CompleteCons(topic: seq<byte>, ms: seq<seq<seq<byte>>>, first: seq<nat>, rest: seq<nat>)
    requires ms != [] && Complete(topic, ms[1..], rest) && first == if ForTopic(topic, ms[0]) then [0] else []
    ensures Complete(topic, ms, Shifted(first, rest))
  {
    hide ForTopic, Shifted;
    ShiftedAt(first, rest);
    var idx := Shifted(first, rest);
    forall j | 0 <= j < |ms| && ForTopic(topic, ms[j]) ensures j in idx {
      if j > 0 {
        assert ms[1..][j - 1] == ms[j];
        var k :| 0 <= k < |rest| && rest[k] == j - 1;
        assert idx[|first| + k] == j;
      } else {
        assert idx[0] == 0;
      }
    }
  }

  lemma SecondsCons(topic: seq<byte>, ms: seq<seq<seq<byte>>>, first: seq<nat>, rest: seq<nat>)
    requires ms != [] && Seconds(ms[1..], rest, Payloads(topic, ms[1..]))
    requires first == if ForTopic(topic, ms[0]) then [0] else []
    ensures Seconds(ms, Shifted(first, rest), Payloads(topic, ms))
  {
    var payload, tail := Payload(topic, ms[0]), Payloads(topic, ms[1..]);
    assert first == [] ==> payload == [];
    assert first != [] ==> payload == [ms[0][1]] && first == [0];
    assert Payloads(topic, ms) == payload + tail;
    hide ForTopic, Shifted, Payload, Payloads;
    ShiftedAt(first, rest);
  }

  lemma {:induction false} PayloadsSelect(topic: seq<byte>, ms: seq<seq<seq<byte>>>)
    ensures SecondParts(topic, ms, Payloads(topic, ms))
    decreases ms
  {
    hide ForTopic, Sound, Complete, Seconds, Payloads;
    if ms == [] {
      NoneSelected(topic, ms);
    } else {
      PayloadsSelect(topic, ms[1..]);
      var rest: seq<nat> :| Sound(topic, ms[1..], rest) && Complete(topic, ms[1..], rest)
                            && Seconds(ms[1..], rest, Payloads(topic, ms[1..]));
      var first: seq<nat> := if ForTopic(topic, ms[0]) then [0] else [];
      SoundCons(topic, ms, first, rest);
      CompleteCons(topic, ms, first, rest);
      SecondsCons(topic, ms, first, rest);
    }
  }

  lemma NoneSelected(topic: seq<byte>, ms: seq<seq<seq<byte>>>)
    requires ms == []
    ensures SecondParts(topic, ms, Payloads(topic, ms))
  {
    var idx: seq<nat> := [];
    assert Sound(topic, ms, idx) && Complete(topic, ms, idx) && Seconds(ms, idx, Payloads(topic, ms));
  }

  /** The frames after the greeting, arrived in one piece. */
  lemma StreamDelivers(topic: seq<byte>, fs: seq<Frame>, ms: seq<seq<seq<byte>>>, tail: seq<seq<byte>>)
    requires forall i :: 0 <= i < |fs| ==> Printable(fs[i])
    requires (forall i :: 0 <= i < |ms| ==> ms[i] != []) && Data(fs) == AllParts(ms) + Unfinished(tail)
    ensures Drain(topic, State(Stream(fs), true, [], [])) == State([], true, tail, Payloads(topic, ms))
  {
    DrainStream(topic, State(Stream(fs), true, [], []), fs);
    var s := State([], true, [], []);
    AcceptConcat(topic, s, AllParts(ms), Unfinished(tail));
    AcceptMessages(topic, s, ms);
    assert [] + Payloads(topic, ms) == Payloads(topic, ms);
    AcceptUnfinished(topic, s.(delivered := Payloads(topic, ms)), tail);
    assert [] + tail == tail;
  }

  /**
   Whatever messages the frames carry, with commands between and inside them and a last
   message perhaps cut short, in whatever chunks they arrive after the greeting: the parser
   delivers exactly the second part of each message whose first part is the topic, in order,
   and keeps the unfinished one.
   */
  lemma DeliversExactly(topic: seq<byte>, greeting: seq<byte>, fs: seq<Frame>,
                        ms: seq<seq<seq<byte>>>, tail: seq<seq<byte>>, chunks: seq<seq<byte>>)
    requires |greeting| == 64 && (forall i :: 0 <= i < |fs| ==> Printable(fs[i]))
    requires (forall i :: 0 <= i < |ms| ==> ms[i] != []) && Data(fs) == AllParts(ms) + Unfinished(tail)
    requires Concat(chunks) == greeting + Stream(fs)
    ensures FeedAll(topic, FRESH, chunks) == State([], true, tail, Payloads(topic, ms))
    ensures SecondParts(topic, ms, FeedAll(topic, FRESH, chunks).delivered)
  {
    hide Drain, Data, Stream, AllParts, Unfinished, Payloads, SecondParts, FeedAll, Concat;
    PayloadsSelect(topic, ms);
    assert Feed(topic, FRESH, []) == FRESH;
    ChunkIndependence(topic, FRESH, chunks);
    var all := greeting + Stream(fs);
    assert [] + all == all && all[GREETING..] == Stream(fs);
    StreamDelivers(topic, fs, ms, tail);
  }
}
