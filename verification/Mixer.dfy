/** The two-channel mixer of audio.py: framing, bounded queues, mixing and its shortcuts. */
module Mixer {
  import opened Base
  import opened Ulaw

  const FRAME_BYTES: nat := 160
  const MAX_FRAMES: nat := 400
  const SILENCE: byte := 0xFF

  function SilentFrame(): (f: seq<byte>)
    ensures |f| == FRAME_BYTES && forall i :: 0 <= i < FRAME_BYTES ==> f[i] == SILENCE
  {
    seq(FRAME_BYTES, _ => SILENCE)
  }

  /** The mix of two frames: each byte encodes the sum of the decoded samples. */
  function Mixed(caller: seq<byte>, agent: seq<byte>): (r: seq<byte>)
    requires |caller| >= FRAME_BYTES && |agent| >= FRAME_BYTES
    ensures |r| == FRAME_BYTES
  {
    seq(FRAME_BYTES, i requires 0 <= i < FRAME_BYTES => Encode(Decode(caller[i]) + Decode(agent[i])))
  }

  /** Clamping a sum to 16 bits before encoding changes nothing: the encoder clips lower. */
  lemma ClampSubsumed(x: int)
    ensures Encode(if x > 32767 then 32767 else if x < -32768 then -32768 else x) == Encode(x)
  {
    assert x > 32767 ==> Magnitude(x) == Magnitude(32767);
    assert x < -32768 ==> Magnitude(x) == Magnitude(-32768);
  }

  method MixFrames(table: seq<int>, caller: seq<byte>, agent: seq<byte>) returns (mixed: seq<byte>)
    requires |table| == 256 && forall b: byte :: table[b] == Decode(b)
    requires |caller| >= FRAME_BYTES && |agent| >= FRAME_BYTES
    ensures mixed == Mixed(caller, agent)
  {
    var out := new byte[FRAME_BYTES];
    for i := 0 to FRAME_BYTES
      invariant forall j :: 0 <= j < i ==> out[j] == Mixed(caller, agent)[j]
    {
      var c, a := table[caller[i]], table[agent[i]];
      var sum := c + a;
      if sum > 32767 {
        sum := 32767;
      } else if sum < -32768 {
        sum := -32768;
      }
      ClampSubsumed(c + a);
      out[i] := LinearToUlaw(sum);
    }
    mixed := out[..];
  }

  lemma MixCommutes(caller: seq<byte>, agent: seq<byte>)
    requires |caller| >= FRAME_BYTES && |agent| >= FRAME_BYTES
    ensures Mixed(caller, agent) == Mixed(agent, caller)
  {}

  /** Mixing is exact up to the codec: each sample is off by at most a 32nd of its size. */
  lemma MixError(caller: seq<byte>, agent: seq<byte>, i: nat)
    requires |caller| >= FRAME_BYTES && |agent| >= FRAME_BYTES && i < FRAME_BYTES
    requires var sum := Decode(caller[i]) + Decode(agent[i]); -CLIP <= sum <= CLIP
    ensures var sum := Decode(caller[i]) + Decode(agent[i]);
      32 * Distance(Decode(Mixed(caller, agent)[i]), sum) <= (if sum < 0 then -sum else sum) + BIAS
  {
    ErrorBound(Decode(caller[i]) + Decode(agent[i]));
  }

  /** A sum beyond the clip comes out at the outermost level on its own side. */
  lemma MixSaturates(caller: seq<byte>, agent: seq<byte>, i: nat)
    requires |caller| >= FRAME_BYTES && |agent| >= FRAME_BYTES && i < FRAME_BYTES
    ensures var sum := Decode(caller[i]) + Decode(agent[i]);
      && (sum >= CLIP ==> Decode(Mixed(caller, agent)[i]) == 32124)
      && (sum <= -CLIP ==> Decode(Mixed(caller, agent)[i]) == -32124)
  {
    var sum := Decode(caller[i]) + Decode(agent[i]);
    if sum >= CLIP || sum <= -CLIP { Saturates(sum); }
  }

  /** Two frames that sound the same. */
  ghost predicate SameSound(f: seq<byte>, g: seq<byte>) {
    |f| == |g| && forall i :: 0 <= i < |f| ==> Decode(f[i]) == Decode(g[i])
  }

  /** Adding a silent sample: every byte comes back, except a negative zero. */
  lemma ByteWithSilence(b: byte)
    ensures var e := Encode(Decode(b) + Decode(SILENCE)); Decode(e) == Decode(b) && (e == b <==> b != 0x7F)
  {
    assert Decode(SILENCE) == 0;
    assert Decode(0x7F) == 0;
    EncodeDecode(b);
  }

  /** Mixing with silence keeps the sound; it keeps the bytes exactly of frames without a
      negative zero, which comes out as positive zero. */
  lemma MixWithSilence(frame: seq<byte>)
    requires |frame| == FRAME_BYTES
    ensures SameSound(Mixed(frame, SilentFrame()), frame)
    ensures Mixed(frame, SilentFrame()) == frame <==> 0x7F !in frame
  {
    var mixed := Mixed(frame, SilentFrame());
    forall i | 0 <= i < FRAME_BYTES
      ensures Decode(mixed[i]) == Decode(frame[i]) && (mixed[i] == frame[i] <==> frame[i] != 0x7F)
    {
      ByteWithSilence(frame[i]);
    }
    if 0x7F in frame {
      var i :| 0 <= i < FRAME_BYTES && frame[i] == 0x7F;
      assert mixed[i] != frame[i];
    }
  }

  const NEGATIVE_ZEROS: seq<byte> := seq(FRAME_BYTES, _ => 0x7F)

  /** A frame whose bytes the shortcut changes: negative zeros, which sound like silence. */
  lemma ShortcutKeepsNegativeZeros()
    ensures Mixed(NEGATIVE_ZEROS, SilentFrame()) != NEGATIVE_ZEROS && SameSound(NEGATIVE_ZEROS, SilentFrame())
  {
    assert NEGATIVE_ZEROS[0] == 0x7F;
    MixWithSilence(NEGATIVE_ZEROS);
    assert Decode(0x7F) == Decode(SILENCE);
  }

  // ---- framing

  function PadFrame(part: seq<byte>): (f: seq<byte>)
    ensures |part| <= FRAME_BYTES ==> |f| == FRAME_BYTES
    ensures part <= f && forall i :: |part| <= i < |f| ==> f[i] == SILENCE
  {
    if |part| >= FRAME_BYTES then part else part + seq(FRAME_BYTES - |part|, _ => SILENCE)
  }

  /** A chunk cut into frames, the last one padded. */
  function Frames(chunk: seq<byte>): (fs: seq<seq<byte>>)
    ensures forall i :: 0 <= i < |fs| ==> |fs[i]| == FRAME_BYTES
    decreases |chunk|
  {
    if chunk == [] then []
    else if |chunk| <= FRAME_BYTES then [PadFrame(chunk)]
    else [chunk[..FRAME_BYTES]] + Frames(chunk[FRAME_BYTES..])
  }

  /** Framing loses nothing: the frames are the chunk and fewer than 160 bytes of silence. */
  lemma {:induction false} FramesHoldChunk(chunk: seq<byte>)
    ensures chunk <= Concat(Frames(chunk)) && |Concat(Frames(chunk))| < |chunk| + 160
    ensures forall i :: |chunk| <= i < |Concat(Frames(chunk))| ==> Concat(Frames(chunk))[i] == 0xFF
    ensures forall i :: 0 <= i < |Frames(chunk)| ==> |Frames(chunk)[i]| == 160
    decreases |chunk|
  {
    if chunk != [] {
      if |chunk| <= FRAME_BYTES {
        assert Frames(chunk)[1..] == [];
      } else {
        FramesHoldChunk(chunk[FRAME_BYTES..]);
        assert Frames(chunk)[1..] == Frames(chunk[FRAME_BYTES..]);
        assert chunk == chunk[..FRAME_BYTES] + chunk[FRAME_BYTES..];
      }
    }
  }

  lemma {:induction false} FramesSplit(chunk: seq<byte>, n: nat)
    requires n * FRAME_BYTES <= |chunk|
    ensures Frames(chunk) == Frames(chunk[..n * FRAME_BYTES]) + Frames(chunk[n * FRAME_BYTES..])
    decreases n
  {
    if n > 0 {
      var rest := chunk[FRAME_BYTES..];
      FramesSplit(rest, n - 1);
      assert rest[..(n - 1) * FRAME_BYTES] == chunk[..n * FRAME_BYTES][FRAME_BYTES..];
      assert rest[(n - 1) * FRAME_BYTES..] == chunk[n * FRAME_BYTES..];
      assert chunk[..n * FRAME_BYTES][..FRAME_BYTES] == chunk[..FRAME_BYTES];
      HeadFrame(chunk);
      HeadFrame(chunk[..n * FRAME_BYTES]);
    } else {
      assert chunk[0..] == chunk;
    }
  }

  lemma HeadFrame(chunk: seq<byte>)
    requires |chunk| >= FRAME_BYTES
    ensures Frames(chunk) == [chunk[..FRAME_BYTES]] + Frames(chunk[FRAME_BYTES..])
  {
    if |chunk| == FRAME_BYTES {
      assert chunk[..FRAME_BYTES] == chunk == PadFrame(chunk);
      assert Frames(chunk[FRAME_BYTES..]) == [];
    }
  }

  /** The newest frames that fit a bounded queue. */
  function Newest(frames: seq<seq<byte>>): (r: seq<seq<byte>>)
    ensures |r| <= MAX_FRAMES
    ensures forall f :: f in r ==> f in frames
  {
    if |frames| <= MAX_FRAMES then frames else frames[|frames| - MAX_FRAMES..]
  }

  /** They are the last of them, all of them if they fit, and 400 otherwise. */
  lemma NewestAreLast(frames: seq<seq<byte>>)
    ensures var r := Newest(frames);
      |r| == Min(|frames|, 400) && forall i :: 0 <= i < |r| ==> r[i] == frames[|frames| - |r| + i]
  {}

  /** The newest of what was kept and of what comes are the newest of all, so a queue that is
      only written to holds the last 400 frames ever written. */
  lemma NewestOfAll(before: seq<seq<byte>>, more: seq<seq<byte>>)
    ensures Newest(Newest(before) + more) == Newest(before + more)
  {
    var x, y := Newest(Newest(before) + more), Newest(before + more);
    assert |x| == |y|;
    assert forall i :: 0 <= i < |x| ==> x[i] == y[i];
  }

  class AudioMixer {
    var caller: seq<seq<byte>>
    var agent: seq<seq<byte>>
    const table: seq<int>

    ghost predicate Valid()
      reads this
    {
      && |table| == 256 && (forall b: byte :: table[b] == Decode(b))
      && (forall f :: f in caller + agent ==> |f| == FRAME_BYTES)
      && |caller| <= MAX_FRAMES && |agent| <= MAX_FRAMES
    }

    constructor ()
      ensures Valid() && caller == [] && agent == []
    {
      var t := BuildTable();
      table := t;
      caller, agent := [], [];
    }

    /** Frames a chunk onto a bounded queue, dropping the oldest frames on overflow. */
    static method Append(queue: seq<seq<byte>>, chunk: seq<byte>) returns (r: seq<seq<byte>>)
      requires |queue| <= MAX_FRAMES
      ensures r == Newest(queue + Frames(chunk))
    {
      r := queue;
      var i := 0;
      ghost var n := 0;
      assert queue + Frames(chunk[..0]) == queue;
      while i < |chunk|
        invariant (i == n * FRAME_BYTES && i <= |chunk|) || i >= |chunk|
        invariant i < |chunk| ==> r == Newest(queue + Frames(chunk[..i]))
        invariant i >= |chunk| ==> r == Newest(queue + Frames(chunk))
        decreases |chunk| - i
      {
        var end := if i + FRAME_BYTES <= |chunk| then i + FRAME_BYTES else |chunk|;
        var frame := chunk[i..end];
        if |frame| < FRAME_BYTES { frame := PadFrame(frame); }
        r := r + [frame];
        if |r| > MAX_FRAMES { r := r[1..]; }
        FramesSplit(chunk[..end], n);
        assert chunk[..end][..i] == chunk[..i] && chunk[..end][i..] == chunk[i..end];
        assert Frames(chunk[i..end]) == [frame];
        NewestSnoc(queue + Frames(chunk[..i]), frame);
        assert queue + Frames(chunk[..i]) + [frame] == queue + Frames(chunk[..end]);
        assert end == |chunk| ==> chunk[..end] == chunk;
        i := i + FRAME_BYTES;
        n := n + 1;
      }
      assert |chunk| == 0 ==> queue + Frames(chunk) == queue;
    }

    static lemma NewestSnoc(frames: seq<seq<byte>>, frame: seq<byte>)
      ensures var r := Newest(frames) + [frame];
        Newest(frames + [frame]) == if |r| > MAX_FRAMES then r[1..] else r
    {}

    method WriteCaller(chunk: seq<byte>)
      requires Valid()
      modifies `caller
      ensures Valid() && caller == Newest(old(caller) + Frames(chunk))
    {
      caller := Append(caller, chunk);
    }

    method WriteAgent(chunk: seq<byte>)
      requires Valid()
      modifies `agent
      ensures Valid() && agent == Newest(old(agent) + Frames(chunk))
    {
      agent := Append(agent, chunk);
    }

    /** One tick of the mix loop. A queue that ran dry supplies silence. The shortcuts
        test object identity; `callerIsSilence` and `agentIsSilence` say whether a queued
        frame happens to be the silence object itself. Whatever path is taken, the result
        sounds like the mix of the two frames. */
    method Tick(callerIsSilence: bool, agentIsSilence: bool) returns (mixed: seq<byte>)
      requires Valid()
      requires caller != [] && callerIsSilence ==> caller[0] == SilentFrame()
      requires agent != [] && agentIsSilence ==> agent[0] == SilentFrame()
      modifies this
      ensures Valid()
      ensures caller == if old(caller) == [] then [] else old(caller)[1..]
      ensures agent == if old(agent) == [] then [] else old(agent)[1..]
      ensures SameSound(mixed, Mixed(old(Head(caller)), old(Head(agent))))
      ensures old(caller) == [] && old(agent) == [] ==> |mixed| == 160 && forall i :: 0 <= i < 160 ==> mixed[i] == 0xFF
    {
      var c, a := Head(caller), Head(agent);
      var cSilent, aSilent := caller == [] || callerIsSilence, agent == [] || agentIsSilence;
      if caller != [] { assert caller[0] in caller + agent; caller := caller[1..]; }
      if agent != [] { assert agent[0] in caller + agent; agent := agent[1..]; }
      MixWithSilence(c);
      MixWithSilence(a);
      MixCommutes(c, a);
      if cSilent && aSilent {
        mixed := SilentFrame();
      } else if aSilent {
        mixed := c;
      } else if cSilent {
        mixed := a;
      } else {
        mixed := MixFrames(table, c, a);
      }
    }

    static function Head(queue: seq<seq<byte>>): seq<byte> { if queue == [] then SilentFrame() else queue[0] }
  }
}
