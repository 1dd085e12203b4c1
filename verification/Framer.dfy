/**
  The framing state machine of `Connection::handleEvent` (src/netwrk/ft_conn.cpp:118-195): it cuts
  the byte stream of a connection back into messages, one received byte at a time.
 */
module Framer {
  import opened Machine
  import opened Codec

  const MAGIC1: byte := 0x87
  const MAGIC2: byte := 0xFE
  const MAGIC3: byte := 0x77
  const MSGTYPE_MAX: byte := 5

  /** The fields of a connection that persist between events: `msg_buf` and `msg_len`. */
  datatype State = State(buf: Bytes, len: nat)

  const EMPTY := State([], 0)

  /** The state after one byte, and the buffer handed to `handleMessage` if that byte completed it. */
  datatype Fed = Fed(state: State, delivered: seq<Bytes>)

  function Step(s: State, b: byte): Fed {
    var n := |s.buf|;
    if n == 0 && b == MAGIC1 then Fed(State(s.buf + [b], s.len), [])
    else if n == 1 && b == MAGIC2 then Fed(State(s.buf + [b], s.len), [])
    else if n == 2 && b == MAGIC3 then Fed(State(s.buf + [b], s.len), [])
    else if n == 3 && 0 < b < MSGTYPE_MAX then Fed(State(s.buf + [b], s.len), [])
    else if n == 4 then Fed(State(s.buf + [b], b as int * 0x100), [])
    else if n == 5 then Fed(State(s.buf + [b], s.len / 0x100 * 0x100 + b as int), [])
    else if 6 <= n < s.len + 5 then Fed(State(s.buf + [b], s.len), [])
    else if n == s.len + 5 then Fed(EMPTY, [s.buf + [b]])
    else Fed(EMPTY, [])
  }

  /** Any number of bytes, first byte first. */
  function Feed(s: State, input: Bytes): Fed
    decreases |input|
  {
    if input == [] then Fed(s, [])
    else
      var first := Step(s, input[0]);
      var rest := Feed(first.state, input[1..]);
      Fed(rest.state, first.delivered + rest.delivered)
  }

  /** Several events, each bringing the bytes the socket had at that moment. */
  function FeedAll(s: State, events: seq<Bytes>): Fed
    decreases |events|
  {
    if events == [] then Fed(s, [])
    else
      var first := Feed(s, events[0]);
      var rest := FeedAll(first.state, events[1..]);
      Fed(rest.state, first.delivered + rest.delivered)
  }

  /** A connection; `delivered` records the calls of `handleMessage`. */
  class Connection {
    var msgBuf: Bytes
    var msgLen: nat
    var delivered: seq<Bytes>

    function Now(): State
      reads this
    {
      State(msgBuf, msgLen)
    }

    constructor ()
      ensures Now() == EMPTY && delivered == []
    {
      msgBuf, msgLen, delivered := [], 0, [];
    }

    /** The state machine proper: one received byte. */
    method Receive(b: byte)
      modifies this
      ensures Now() == Step(old(Now()), b).state
      ensures delivered == old(delivered) + Step(old(Now()), b).delivered
    {
      var n := |msgBuf|;
      if n == 0 && b == MAGIC1 {
        msgBuf := msgBuf + [b];
      } else if n == 1 && b == MAGIC2 {
        msgBuf := msgBuf + [b];
      } else if n == 2 && b == MAGIC3 {
        msgBuf := msgBuf + [b];
      } else if n == 3 && b > 0 && b < MSGTYPE_MAX {
        msgBuf := msgBuf + [b];
      } else if n == 4 {
        msgBuf := msgBuf + [b];
        msgLen := b as int * 0x100;
      } else if n == 5 {
        msgBuf := msgBuf + [b];
        msgLen := msgLen / 0x100 * 0x100 + b as int;
      } else if n >= 6 && n < msgLen + 6 - 1 {
        msgBuf := msgBuf + [b];
      } else if n == msgLen + 6 - 1 {
        msgBuf := msgBuf + [b];
        delivered := delivered + [msgBuf];
        msgBuf, msgLen := [], 0;
      } else {
        msgBuf, msgLen := [], 0;
      }
    }

    method HandleEvent(received: Bytes)
      modifies this
      ensures Now() == Feed(old(Now()), received).state
      ensures delivered == old(delivered) + Feed(old(Now()), received).delivered
    {
      hide Step;
      var i := 0;
      while i < |received|
        invariant 0 <= i <= |received|
        invariant Feed(old(Now()), received).state == Feed(Now(), received[i..]).state
        invariant old(delivered) + Feed(old(Now()), received).delivered
               == delivered + Feed(Now(), received[i..]).delivered
      {
        assert received[i..][0] == received[i] && received[i..][1..] == received[i + 1..];
        Receive(received[i]);
        i := i + 1;
      }
    }
  }

  // ---------------------------------------------------------------- how bytes compose

  lemma {:induction false} FeedConcat(s: State, a: Bytes, b: Bytes)
    ensures Feed(s, a + b).state == Feed(Feed(s, a).state, b).state
    ensures Feed(s, a + b).delivered == Feed(s, a).delivered + Feed(Feed(s, a).state, b).delivered
    decreases |a|
  {
    if a == [] {
      assert a + b == b;
    } else {
      assert (a + b)[0] == a[0] && (a + b)[1..] == a[1..] + b;
      FeedConcat(Step(s, a[0]).state, a[1..], b);
    }
  }

  function Concat(parts: seq<Bytes>): Bytes {
    if parts == [] then [] else parts[0] + Concat(parts[1..])
  }

  /** How the stream is cut into events makes no difference. */
  lemma {:induction false} SplitsDoNotMatter(s: State, events: seq<Bytes>)
    ensures FeedAll(s, events) == Feed(s, Concat(events))
    decreases |events|
  {
    if events != [] {
      FeedConcat(s, events[0], Concat(events[1..]));
      SplitsDoNotMatter(Feed(s, events[0]).state, events[1..]);
    }
  }

  // ---------------------------------------------------------------- one frame

  /** Magic, a type in 1..4, and a length field that counts the (non-empty) rest. */
  predicate IsFrame(f: Bytes) {
    && 7 <= |f|
    && f[0] == MAGIC1 && f[1] == MAGIC2 && f[2] == MAGIC3
    && FILE_OFFER <= f[3] <= FILE_COMPLETE
    && |f| == GetU16(f, 4) + 6
  }

  /** What the machine holds after the first `n` bytes of a frame. */
  function Partial(f: Bytes, n: nat): State
    requires 6 <= |f| && n <= |f|
  {
    State(f[..n], if n < 5 then 0 else if n == 5 then f[4] as int * 0x100 else GetU16(f, 4))
  }

  lemma PartialStep(f: Bytes, n: nat)
    requires IsFrame(f) && n < |f|
    ensures Step(Partial(f, n), f[n]) == if n + 1 < |f| then Fed(Partial(f, n + 1), []) else Fed(EMPTY, [f])
  {
    assert f[..n] + [f[n]] == f[..n + 1];
    assert n + 1 == |f| ==> f[..n + 1] == f;
  }

  lemma {:induction false} FeedRestOfFrame(f: Bytes, n: nat)
    requires IsFrame(f) && n < |f|
    ensures Feed(Partial(f, n), f[n..]) == Fed(EMPTY, [f])
    decreases |f| - n
  {
    PartialStep(f, n);
    assert f[n..][0] == f[n] && f[n..][1..] == f[n + 1..];
    if n + 1 < |f| {
      FeedRestOfFrame(f, n + 1);
    }
  }

  /** A frame, fed from an empty buffer, is delivered whole whatever its payload contains. */
  lemma FeedFrame(f: Bytes)
    requires IsFrame(f)
    ensures Feed(EMPTY, f) == Fed(EMPTY, [f])
  {
    FeedRestOfFrame(f, 0);
    assert f[0..] == f && Partial(f, 0) == EMPTY;
  }

  lemma {:induction false} FeedFrames(frames: seq<Bytes>)
    requires forall f :: f in frames ==> IsFrame(f)
    ensures Feed(EMPTY, Concat(frames)) == Fed(EMPTY, frames)
  {
    if frames != [] {
      FeedConcat(EMPTY, frames[0], Concat(frames[1..]));
      FeedFrame(frames[0]);
      FeedFrames(frames[1..]);
      assert [frames[0]] + frames[1..] == frames;
    }
  }

  // ---------------------------------------------------------------- the stream is a FIFO of messages

  lemma MagicBytes(f: Bytes, t: byte)
    requires 4 <= |f| && GetU32(f, 0) == MAGIC + t
    ensures f[0] == MAGIC1 && f[1] == MAGIC2 && f[2] == MAGIC3 && f[3] == t
  {
    Digits(f[0], f[1], f[2], f[3], GetU32(f, 0));
    Digits(MAGIC1, MAGIC2, MAGIC3, t, MAGIC + t);
  }

  lemma EncodedIsFrame(m: Message)
    requires Sendable(m)
    ensures IsFrame(Frame(m))
  {
    FrameLayout(m);
    PayloadFits(m);
    MagicBytes(Frame(m), TypeOf(m.body));
  }

  function Frames(ms: seq<Message>): (r: seq<Bytes>)
    ensures |r| == |ms|
    ensures forall i :: 0 <= i < |ms| ==> r[i] == Frame(ms[i])
  {
    seq(|ms|, i requires 0 <= i < |ms| => Frame(ms[i]))
  }

  /** What a receiver obtains by parsing each delivered buffer. */
  function Received(delivered: seq<Bytes>): seq<Message>
    requires forall f :: f in delivered ==> Fits(f) && Decode(f).Ok?
  {
    seq(|delivered|, i requires 0 <= i < |delivered| => Decode(delivered[i]).value.msg)
  }

  /**
    The byte stream refines a reliable queue of messages: however the concatenated messages are
    cut into events, exactly these messages come out, in order, and the buffer ends empty.
   */
  lemma StreamIsFifo(ms: seq<Message>, events: seq<Bytes>)
    requires forall m :: m in ms ==> Sendable(m)
    requires Concat(events) == Concat(Frames(ms))
    ensures FeedAll(EMPTY, events) == Fed(EMPTY, Frames(ms))
    ensures forall f :: f in Frames(ms) ==> Fits(f) && Decode(f).Ok?
    ensures Received(Frames(ms)) == seq(|ms|, i requires 0 <= i < |ms| => OnWire(ms[i]))
  {
    forall i | 0 <= i < |ms|
      ensures IsFrame(Frame(ms[i])) && Fits(Frame(ms[i])) && Decode(Frame(ms[i])).Ok?
      ensures Decode(Frame(ms[i])).value.msg == OnWire(ms[i])
    {
      EncodedIsFrame(ms[i]);
      ParseUndoesSerialize(ms[i]);
    }
    hide Frame, Decode, Fits, IsFrame, Feed;
    FeedFrames(Frames(ms));
    SplitsDoNotMatter(EMPTY, events);
  }

  /** At every moment what has been delivered is a prefix of what was sent. */
  lemma NeverAheadOfSender(ms: seq<Message>, arrived: Bytes, pending: Bytes)
    requires forall m :: m in ms ==> Sendable(m)
    requires arrived + pending == Concat(Frames(ms))
    ensures Feed(EMPTY, arrived).delivered <= Frames(ms)
  {
    assert Concat([arrived, pending]) == arrived + pending by {
      assert [arrived, pending][1..] == [pending] && [pending][1..] == [];
      assert Concat([pending]) == pending;
    }
    StreamIsFifo(ms, [arrived, pending]);
    SplitsDoNotMatter(EMPTY, [arrived, pending]);
    FeedConcat(EMPTY, arrived, pending);
  }

  // ---------------------------------------------------------------- arbitrary input

  /** The buffer is a prefix of some candidate frame, and `len` is what its length bytes say. */
  predicate Candidate(s: State) {
    var n := |s.buf|;
    && (0 < n ==> s.buf[0] == MAGIC1)
    && (1 < n ==> s.buf[1] == MAGIC2)
    && (2 < n ==> s.buf[2] == MAGIC3)
    && (3 < n ==> FILE_OFFER <= s.buf[3] <= FILE_COMPLETE)
    && s.len == (if n < 5 then 0 else if n == 5 then s.buf[4] as int * 0x100 else GetU16(s.buf, 4))
    && n <= Max(6, s.len + 5)
  }

  lemma StepKeepsCandidate(s: State, b: byte)
    requires Candidate(s)
    ensures Candidate(Step(s, b).state)
    ensures forall f :: f in Step(s, b).delivered ==> IsFrame(f)
    ensures Step(s, b).state.buf == [] || |Step(s, b).state.buf| == |s.buf| + 1
  {
  }

  /** For any bytes at all: the buffer stays within its bound and only frames are delivered. */
  lemma {:induction false} AnyInput(s: State, input: Bytes)
    requires Candidate(s)
    ensures Candidate(Feed(s, input).state)
    ensures forall f :: f in Feed(s, input).delivered ==> IsFrame(f)
    decreases |input|
  {
    if input != [] {
      StepKeepsCandidate(s, input[0]);
      AnyInput(Step(s, input[0]).state, input[1..]);
    }
  }

  lemma {:induction false} GrowsOrEmpties(s: State, input: Bytes)
    requires Candidate(s)
    requires forall k :: 0 < k <= |input| ==> Feed(s, input[..k]).state.buf != []
    ensures |Feed(s, input).state.buf| == |s.buf| + |input|
    decreases |input|
  {
    if input != [] {
      var n := |input| - 1;
      var init := input[..n];
      forall k | 0 < k <= n
        ensures Feed(s, init[..k]).state.buf != []
      {
        assert init[..k] == input[..k];
      }
      GrowsOrEmpties(s, init);
      AnyInput(s, init);
      StepKeepsCandidate(Feed(s, init).state, input[n]);
      assert input == init + [input[n]] && input[..|input|] == input;
      FeedConcat(s, init, [input[n]]);
      assert [input[n]][1..] == [];
    }
  }

  /** The machine recovers: its buffer is empty again within the longest possible frame. */
  lemma EmptyAgain(s: State, input: Bytes)
    requires Candidate(s) && |input| >= 65541 - |s.buf|
    ensures exists k :: 0 < k <= 65541 - |s.buf| && Feed(s, input[..k]).state.buf == []
  {
    var n := 65541 - |s.buf|;
    if forall k :: 0 < k <= n ==> Feed(s, input[..k]).state.buf != [] {
      var first := input[..n];
      forall k | 0 < k <= |first|
        ensures Feed(s, first[..k]).state.buf != []
      {
        assert first[..k] == input[..k];
      }
      GrowsOrEmpties(s, first);
      AnyInput(s, first);
      assert false;
    }
  }

  /** Noise without the first magic byte, arriving between frames, is dropped without trace. */
  lemma {:induction false} NoiseIsSkipped(noise: Bytes)
    requires MAGIC1 !in noise
    ensures Feed(EMPTY, noise) == Fed(EMPTY, [])
    decreases |noise|
  {
    if noise != [] {
      NoiseIsSkipped(noise[1..]);
    }
  }

  // ---------------------------------------------------------------- exactly which noise is harmless

  /** The state that holds just these bytes. */
  function Holding(buf: Bytes): State {
    State(buf, if |buf| < 5 then 0 else if |buf| == 5 then buf[4] as int * 0x100 else GetU16(buf, 4))
  }

  lemma OneByte(s: State, b: byte)
    ensures Feed(s, [b]) == Step(s, b)
  {
    assert [b][1..] == [];
    assert Feed(Step(s, b).state, []) == Fed(Step(s, b).state, []);
  }

  lemma {:induction false} HeldBytes(buf: Bytes)
    requires Candidate(Holding(buf))
    ensures Feed(EMPTY, buf) == Fed(Holding(buf), [])
    decreases |buf|
  {
    if buf != [] {
      var n := |buf| - 1;
      var init, last := buf[..n], buf[n];
      assert buf == init + [last];
      HeldBytes(init);
      FeedConcat(EMPTY, init, [last]);
      OneByte(Holding(init), last);
      assert Step(Holding(init), last) == Fed(Holding(buf), []);
    }
  }

  /**
    Length of the block at the front of `noise` that the machine collects and then throws away: a byte that does not
    fit the magic or the type, with what was collected before it, or an empty frame and the byte after it. 0 if there is none.
   */
  function Rejected(noise: Bytes): (r: nat)
    ensures r <= |noise|
  {
    if noise == [] then 0
    else if noise[0] != MAGIC1 then 1
    else if |noise| < 2 then 0
    else if noise[1] != MAGIC2 then 2
    else if |noise| < 3 then 0
    else if noise[2] != MAGIC3 then 3
    else if |noise| < 4 then 0
    else if !(FILE_OFFER <= noise[3] <= FILE_COMPLETE) then 4
    else if |noise| >= 7 && GetU16(noise, 4) == 0 then 7
    else 0
  }

  /** The noise is a sequence of such blocks. */
  predicate Harmless(noise: Bytes)
    decreases |noise|
  {
    noise == [] || (Rejected(noise) > 0 && Harmless(noise[Rejected(noise)..]))
  }

  lemma RejectedIsSkipped(noise: Bytes)
    requires Rejected(noise) > 0
    ensures Feed(EMPTY, noise[..Rejected(noise)]) == Fed(EMPTY, [])
  {
    hide Feed;
    var r := Rejected(noise);
    var block := noise[..r];
    var init, last := block[..r - 1], block[r - 1];
    assert block == init + [last];
    HeldBytes(init);
    FeedConcat(EMPTY, init, [last]);
    OneByte(Holding(init), last);
    assert Step(Holding(init), last) == Fed(EMPTY, []);
  }

  /** A front that is not thrown away is held, or is a frame and delivered. */
  lemma NotRejected(noise: Bytes)
    requires noise != [] && Rejected(noise) == 0
    ensures Feed(EMPTY, noise).state.buf != [] || Feed(EMPTY, noise).delivered != []
  {
    if Candidate(Holding(noise)) {
      HeldBytes(noise);
    } else {
      var n := GetU16(noise, 4) + 6;
      var f, rest := noise[..n], noise[n..];
      assert IsFrame(f);
      assert noise == f + rest;
      FeedFrame(f);
      FeedConcat(EMPTY, f, rest);
    }
  }

  lemma {:induction false} HarmlessIff(noise: Bytes)
    ensures Harmless(noise) <==> Feed(EMPTY, noise).state.buf == [] && Feed(EMPTY, noise).delivered == []
    ensures Harmless(noise) ==> Feed(EMPTY, noise) == Fed(EMPTY, [])
    decreases |noise|
  {
    if noise != [] {
      var r := Rejected(noise);
      if r == 0 {
        NotRejected(noise);
      } else {
        RejectedIsSkipped(noise);
        assert noise == noise[..r] + noise[r..];
        FeedConcat(EMPTY, noise[..r], noise[r..]);
        HarmlessIff(noise[r..]);
      }
    }
  }

  /** Every frame that follows is still delivered, and nothing else. */
  ghost predicate CostsNothing(noise: Bytes) {
    forall frames: seq<Bytes> :: (forall f :: f in frames ==> IsFrame(f)) ==>
      Feed(EMPTY, noise + Concat(frames)).delivered == frames
  }

  lemma {:induction false} BufferStaysInFront(s: State, input: Bytes)
    requires s.buf != [] && MAGIC1 !in input
    ensures var d := Feed(s, input).delivered; d == [] || s.buf <= d[0]
    decreases |input|
  {
    if input != [] {
      var next := Step(s, input[0]);
      if next.delivered == [] {
        if next.state.buf == [] {
          NoiseIsSkipped(input[1..]);
        } else {
          BufferStaysInFront(next.state, input[1..]);
        }
      }
    }
  }

  lemma MagicInside(f: Bytes, d: Bytes, n: nat)
    requires 0 < n < |d| && d[n] == MAGIC1 && f != [] && MAGIC1 !in f[1..]
    ensures d != f
  {
    if n < |f| {
      assert f[n] == f[1..][n - 1];
    }
  }

  lemma StepOutcome(s: State, b: byte)
    ensures var r := Step(s, b);
      || r == Fed(EMPTY, [s.buf + [b]])
      || r == Fed(EMPTY, [])
      || (r.delivered == [] && r.state.buf == s.buf + [b])
  {
  }

  /** A frame that arrives while something else is held is not delivered as it is. */
  lemma HeldSpoilsAFrame(s: State, f: Bytes)
    requires s.buf != [] && IsFrame(f) && MAGIC1 !in f[1..]
    ensures Feed(s, f).delivered != [f]
  {
    var rest, next, n := f[1..], Step(s, MAGIC1), |s.buf|;
    assert f == [MAGIC1] + rest;
    FeedConcat(s, [MAGIC1], rest);
    OneByte(s, MAGIC1);
    StepOutcome(s, MAGIC1);
    hide Feed, Step, IsFrame;
    var total, d := Feed(s, f).delivered, Feed(next.state, rest).delivered;
    assert total == next.delivered + d;
    if next.delivered != [] {
      assert total[0] == s.buf + [MAGIC1];
      MagicInside(f, total[0], n);
    } else if next.state == EMPTY {
      NoiseIsSkipped(rest);
    } else {
      BufferStaysInFront(next.state, rest);
      if d != [] {
        assert total[0] == d[0] && d[0][n] == next.state.buf[n] == MAGIC1;
        MagicInside(f, total[0], n);
      }
    }
  }

  /** A shortest frame. */
  lemma AFrame() returns (f: Bytes)
    ensures IsFrame(f) && MAGIC1 !in f[1..]
  {
    f := [MAGIC1, MAGIC2, MAGIC3, FILE_OFFER, 0, 1, 0];
    assert f[1..] == [MAGIC2, MAGIC3, FILE_OFFER, 0, 1, 0];
  }

  /** Noise between frames costs nothing if and only if it is a sequence of blocks that the machine throws away. */
  lemma NoiseCostsNothingIff(noise: Bytes)
    ensures CostsNothing(noise) <==> Harmless(noise)
  {
    HarmlessIff(noise);
    var r := Feed(EMPTY, noise);
    if Harmless(noise) {
      forall frames: seq<Bytes> | forall f :: f in frames ==> IsFrame(f)
        ensures Feed(EMPTY, noise + Concat(frames)).delivered == frames
      {
        FeedFrames(frames);
        FeedConcat(EMPTY, noise, Concat(frames));
      }
    } else if r.delivered != [] {
      assert Concat([]) == [] && noise + Concat([]) == noise;
      assert Feed(EMPTY, noise + Concat([])).delivered != [];
    } else {
      var f := AFrame();
      HeldSpoilsAFrame(r.state, f);
      assert Concat([f]) == f by { assert Concat([f][1..]) == []; }
      FeedConcat(EMPTY, noise, f);
      assert Feed(EMPTY, noise + Concat([f])).delivered != [f];
    }
  }

  /** In particular noise without the first magic byte. */
  lemma {:induction false} NoMagicIsHarmless(noise: Bytes)
    requires MAGIC1 !in noise
    ensures Harmless(noise)
    decreases |noise|
  {
    if noise != [] {
      NoMagicIsHarmless(noise[1..]);
    }
  }

  lemma NoiseCostsNothing(noise: Bytes, frames: seq<Bytes>)
    requires MAGIC1 !in noise
    requires forall f :: f in frames ==> IsFrame(f)
    ensures Feed(EMPTY, noise + Concat(frames)) == Fed(EMPTY, frames)
  {
    NoMagicIsHarmless(noise);
    HarmlessIff(noise);
    FeedFrames(frames);
    FeedConcat(EMPTY, noise, Concat(frames));
  }

  /** One stray magic byte just before a frame makes the frame vanish. */
  lemma StrayMagicLosesAFrame(f: Bytes)
    requires IsFrame(f) && MAGIC1 !in f[1..]
    ensures Feed(EMPTY, [MAGIC1] + f) == Fed(EMPTY, [])
  {
    var stray := State([MAGIC1], 0);
    assert ([MAGIC1] + f)[1..] == f && Step(EMPTY, MAGIC1) == Fed(stray, []);
    assert Step(stray, f[0]) == Fed(EMPTY, []);
    NoiseIsSkipped(f[1..]);
  }
}
