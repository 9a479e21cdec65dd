/**
 * What the tick routine and the control operations of PCMMoby.c promise:
 * single-tick facts about each branch of the tick, and end-to-end facts about
 * runs of ticks after a start or a stop.
 */
module PcmProperties {
  import opened Runs
  import opened PcmState

  /** `n` ramp values counting down from `top`: `top, top - 1, …, top - n + 1`. */
  function Descent(top: byte, n: nat): (r: seq<byte>)
    requires n <= top
    ensures |r| == n
    ensures forall k :: 0 <= k < n ==> r[k] == top - k
  {
    if n == 0 then [] else Descent(top, n - 1) + [top - (n - 1)]
  }

  /** The whole ramp from amplitude `v`: `v, v - 1, …, 1`, and no zero. */
  function Ramp(v: byte): seq<byte>
  {
    Descent(v, v)
  }

  /** The samples of entries `i .. n - 1` of a playlist, back to back. */
  function Samples(list: seq<Entry>, i: int, n: int): seq<byte>
    requires PlayableList(list, n) && 0 <= i <= n
    decreases n - i
  {
    if i == n then []
    else list[i].data[..list[i].length] + Samples(list, i + 1, n)
  }

  // ---------------------------------------------------------------------
  // One tick

  /** While not playing, a tick writes nothing and changes nothing, not even the offset. */
  lemma IdleTick(s: State)
    requires !s.playing
    ensures Written(s) == None && Step(s) == s
  {
  }

  /** Inside the buffer a tick writes the sample at the offset and moves the offset by one. */
  lemma StreamingTick(s: State)
    requires s.playing && 0 <= s.offset < s.length <= |s.data|
    ensures Written(s) == Some(s.data[s.offset])
    ensures Step(s) == s.(offset := s.offset + 1)
  {
  }

  /** The state right after the tick that moves from `s`'s buffer to the next playlist entry. */
  function NextEntryStarted(s: State): State
    requires 0 <= s.playListOffset + 1 < |s.playList|
    requires 1 <= s.playList[s.playListOffset + 1].length <= |s.playList[s.playListOffset + 1].data|
  {
    var e := s.playList[s.playListOffset + 1];
    s.(playListOffset := s.playListOffset + 1, data := e.data, length := e.length,
       lastSample := e.data[e.length - 1], offset := 1)
  }

  /**
   * At the end of a buffer with a next playlist entry, one tick loads that
   * entry, takes its last byte as the ramp amplitude and already writes its
   * first sample, so that the next tick reads at offset 1.
   */
  lemma AdvanceTick(s: State)
    requires Consistent(s) && s.playing && s.offset >= s.length && HasNext(s)
    ensures var e := s.playList[s.playListOffset + 1];
      && Playable(e)
      && Written(s) == Some(e.data[0])
      && Step(s) == NextEntryStarted(s)
      && Consistent(NextEntryStarted(s))
  {
    StepConsistent(s);
  }

  /**
   * A ramp tick writes `length + lastSample - offset`, which is between 1 and
   * 255, keeps playing, and the following ramp tick, if any, writes exactly one less.
   */
  lemma RampTick(s: State)
    requires Ramping(s) && s.offset <= s.length + s.lastSample
    ensures 1 <= s.length + s.lastSample - s.offset <= s.lastSample <= 255
    ensures Written(s) == Some(s.length + s.lastSample - s.offset)
    ensures Step(s) == s.(offset := s.offset + 1) && Step(s).playing
    ensures Ramping(Step(s)) ==> Written(Step(s)) == Some(Written(s).value - 1)
  {
  }

  /**
   * The terminal tick, at offset `length + lastSample` with no next entry,
   * clears `pcmPlaying` and the playlist, writes nothing, and still bumps the offset.
   */
  lemma TerminalTick(s: State)
    requires AtEnd(s) && s.offset == s.length + s.lastSample
    ensures Written(s) == None
    ensures Step(s) == s.(playing := false, playList := [], playListLen := 0,
                          playListOffset := 0, offset := s.offset + 1)
    ensures !Step(s).playing && !HasNext(Step(s))
  {
  }

  /**
   * Under the invariant the 16-bit counters never wrap: the offset, and the
   * sum `pcm_length + lastSample` it is compared with, stay below 2^16.
   */
  lemma CountersFit16(s: State)
    requires Consistent(s)
    ensures 0 <= s.offset < 0x1_0000 && 0 <= s.length + s.lastSample < 0x1_0000
  {
  }

  // ---------------------------------------------------------------------
  // Runs of ticks

  /** A run of `n > 0` ticks ends one tick after the run of `n - 1` ticks. */
  lemma AfterSnoc(s: State, n: nat)
    requires n > 0
    ensures After(s, n) == Step(After(s, n - 1))
  {
    RunStateSnoc(Step, s, n);
  }

  /** A run of `n > 0` ticks writes what the run of `n - 1` ticks writes, then what its last tick writes. */
  lemma PlayedSnoc(s: State, n: nat)
    requires n > 0
    ensures Played(s, n) == Played(s, n - 1) + Out(After(s, n - 1))
  {
    RunOutSnoc(Step, Out, s, n);
  }

  /** One tick as a run of length one. */
  lemma OneTick(s: State)
    ensures After(s, 1) == Step(s) && Played(s, 1) == Out(s)
  {
    AfterSnoc(s, 1);
    PlayedSnoc(s, 1);
    assert [] + Out(s) == Out(s);
  }

  /** A run that passes through `t` after `a` ticks continues as the run from `t`. */
  lemma RunThrough(s: State, a: nat, t: State, b: nat, c: nat)
    requires After(s, a) == t && c == a + b
    ensures After(s, c) == After(t, b)
    ensures Played(s, c) == Played(s, a) + Played(t, b)
  {
    RunStateAppend(Step, s, a, b);
    RunOutAppend(Step, Out, s, a, b);
  }

  /** Once playback is off, any number of ticks writes nothing and changes nothing. */
  lemma {:induction false} IdleRun(s: State, n: nat)
    requires !s.playing
    ensures After(s, n) == s && Played(s, n) == []
  {
    if n > 0 {
      IdleRun(s, n - 1);
      AfterSnoc(s, n);
      PlayedSnoc(s, n);
    }
  }

  /** After a run that ends idle, further ticks change neither the state nor the output. */
  lemma StaysIdle(s: State, a: nat, b: nat)
    requires !After(s, a).playing
    ensures After(s, a + b) == After(s, a) && Played(s, a + b) == Played(s, a)
  {
    RunThrough(s, a, After(s, a), b, a + b);
    IdleRun(After(s, a), b);
    assert Played(s, a) + [] == Played(s, a);
  }

  /** Playback never turns back on by itself: a run still playing at tick b was playing at every earlier tick. */
  lemma {:induction false} PlayingBefore(s: State, a: nat, b: nat)
    requires a <= b && After(s, b).playing
    ensures After(s, a).playing
    decreases b - a
  {
    if a < b {
      AfterSnoc(s, b);
      PlayingBefore(s, a, b - 1);
    }
  }

  /** A slice grown by the element at its end. */
  lemma SliceSnoc(d: seq<byte>, i: int, j: int, k: int)
    requires 0 <= i <= j < |d| && k == j + 1
    ensures d[i..j] + [d[j]] == d[i..k]
  {
  }

  /** `n` ticks inside the buffer move the offset by `n` and change nothing else. */
  lemma {:induction false} StreamState(s: State, n: nat)
    requires s.playing && 0 <= s.offset && s.offset + n <= s.length <= |s.data|
    ensures After(s, n) == s.(offset := s.offset + n)
  {
    if n > 0 {
      StreamState(s, n - 1);
      var t := s.(offset := s.offset + (n - 1));
      StreamingTick(t);
      AfterSnoc(s, n);
      assert t.(offset := t.offset + 1) == s.(offset := s.offset + n);
    }
  }

  /** Tick `k + 1` inside the buffer writes the sample at `offset + k`. */
  lemma StreamWrite(s: State, k: nat)
    requires s.playing && 0 <= s.offset && s.offset + k < s.length <= |s.data|
    ensures Out(After(s, k)) == [s.data[s.offset + k]]
  {
    StreamState(s, k);
    StreamingTick(s.(offset := s.offset + k));
  }

  /** `n` ticks inside the buffer write the next `n` samples in order. */
  lemma {:induction false} StreamOut(s: State, n: nat)
    requires s.playing && 0 <= s.offset && s.offset + n <= s.length <= |s.data|
    ensures Played(s, n) == s.data[s.offset..s.offset + n]
  {
    if n > 0 {
      StreamOut(s, n - 1);
      StreamWrite(s, n - 1);
      PlayedSnoc(s, n);
      SliceSnoc(s.data, s.offset, s.offset + (n - 1), s.offset + n);
    }
  }

  /** Streaming `n` samples: both the state and the writes. */
  lemma StreamRun(s: State, n: nat)
    requires s.playing && 0 <= s.offset && s.offset + n <= s.length <= |s.data|
    ensures After(s, n) == s.(offset := s.offset + n)
    ensures Played(s, n) == s.data[s.offset..s.offset + n]
  {
    StreamState(s, n);
    StreamOut(s, n);
  }

  /** Streaming the rest of the buffer reaches its end and writes exactly the remaining samples. */
  lemma StreamToEnd(s: State)
    requires s.playing && 0 <= s.offset <= s.length <= |s.data|
    ensures After(s, s.length - s.offset) == s.(offset := s.length)
    ensures Played(s, s.length - s.offset) == s.data[s.offset..s.length]
  {
    StreamRun(s, s.length - s.offset);
    assert s.offset + (s.length - s.offset) == s.length;
  }

  /** `n` ticks of ramp move the offset by `n` and change nothing else; playback stays on. */
  lemma {:induction false} RampState(s: State, n: nat)
    requires AtEnd(s) && s.offset + n <= s.length + s.lastSample
    ensures After(s, n) == s.(offset := s.offset + n)
  {
    if n > 0 {
      RampState(s, n - 1);
      var t := s.(offset := s.offset + (n - 1));
      RampTick(t);
      AfterSnoc(s, n);
      assert t.(offset := t.offset + 1) == s.(offset := s.offset + n);
    }
  }

  /** Tick `k + 1` of a ramp from amplitude `top` writes `top - k`. */
  lemma RampWrite(s: State, k: nat, top: int)
    requires AtEnd(s) && s.offset + k < s.length + s.lastSample
    requires top == s.length + s.lastSample - s.offset
    ensures Out(After(s, k)) == [top - k]
  {
    RampState(s, k);
    RampTick(s.(offset := s.offset + k));
  }

  /** `n` ticks of ramp write the descending values from the current ramp amplitude `top`. */
  lemma {:induction false} RampOut(s: State, n: nat, top: int)
    requires AtEnd(s) && s.offset + n <= s.length + s.lastSample
    requires top == s.length + s.lastSample - s.offset
    ensures Played(s, n) == Descent(top, n)
  {
    if n > 0 {
      RampOut(s, n - 1, top);
      RampWrite(s, n - 1, top);
      PlayedSnoc(s, n);
    }
  }

  /**
   * From the end of the last buffer, exactly `a = length + lastSample - offset`
   * ramp ticks follow, counting down to 1 while still playing; the next tick
   * is terminal, writes nothing, and leaves playback off with no playlist.
   */
  lemma RampToSilence(s: State, a: nat)
    requires AtEnd(s) && a == s.length + s.lastSample - s.offset
    ensures a <= s.lastSample
    ensures Played(s, a) == Descent(a, a) && After(s, a).playing
    ensures Played(s, a + 1) == Descent(a, a)
    ensures After(s, a + 1) == Finished(s).(playing := false, offset := s.length + s.lastSample + 1)
  {
    RampState(s, a);
    RampOut(s, a, a);
    var e := s.(offset := s.offset + a);
    TerminalTick(e);
    OneTick(e);
    RunThrough(s, a, e, 1, a + 1);
    assert e.offset + 1 == s.length + s.lastSample + 1;
    assert Played(s, a) + [] == Played(s, a);
  }

  // ---------------------------------------------------------------------
  // End to end

  /**
   * A run that reaches the end of the last buffer after `k` ticks goes on
   * with the whole ramp from that buffer's last byte while still playing,
   * then one silent tick that turns playback off and drops the playlist.
   */
  lemma RunEndsInRamp(s0: State, k: nat, w: seq<byte>, s1: State, v: int)
    requires After(s0, k) == s1 && Played(s0, k) == w
    requires AtEnd(s1) && s1.offset == s1.length && v == s1.lastSample
    ensures Played(s0, k + v) == w + Ramp(v)
    ensures After(s0, k + v).playing
    ensures Played(s0, k + v + 1) == w + Ramp(v)
    ensures After(s0, k + v + 1) == Finished(s1).(playing := false, offset := s1.length + v + 1)
    ensures !After(s0, k + v + 1).playing && After(s0, k + v + 1).playListLen == 0
  {
    RampToSilence(s1, v);
    RunThrough(s0, k, s1, v, k + v);
    RunThrough(s0, k, s1, v + 1, k + v + 1);
  }

  /**
   * `startPlayback` of a buffer of length L whose last byte is v: ticks
   * 1..L write the buffer, ticks L+1..L+v write v down to 1 while
   * `isPlaying()` stays true, and tick L+v+1 ends playback without a write
   * (after which `StaysIdle` applies).
   */
  lemma SingleBufferPlayback(s: State, data: seq<byte>, length: int)
    requires Consistent(s) && Playable(Entry(data, length))
    ensures var s0 := Started(s, data, length); var v: int := data[length - 1];
      && Played(s0, length) == data[..length]
      && Played(s0, length + v) == data[..length] + Ramp(v)
      && (forall k: nat :: k <= length + v ==> After(s0, k).playing)
      && !After(s0, length + v + 1).playing
      && Played(s0, length + v + 1) == data[..length] + Ramp(v)
  {
    var s0 := Started(s, data, length);
    assert s0.offset == 0 && s0.length == length && s0.data == data && !HasNext(s0);
    BufferRun(s0, length, data[length - 1]);
  }

  /** `SingleBufferPlayback` for any state at the start of its only buffer. */
  lemma BufferRun(s0: State, n: nat, v: int)
    requires Consistent(s0) && s0.playing && s0.offset == 0 && !HasNext(s0)
    requires n == s0.length && v == s0.lastSample
    ensures Played(s0, n) == s0.data[..n]
    ensures Played(s0, n + v) == s0.data[..n] + Ramp(v)
    ensures forall k: nat :: k <= n + v ==> After(s0, k).playing
    ensures !After(s0, n + v + 1).playing
    ensures Played(s0, n + v + 1) == s0.data[..n] + Ramp(v)
  {
    StreamToEnd(s0);
    assert s0.length - s0.offset == n;
    assert s0.data[s0.offset..s0.length] == s0.data[..n];
    RunEndsInRamp(s0, n, s0.data[..n], s0.(offset := s0.length), v);
    forall k: nat | k <= n + v
      ensures After(s0, k).playing
    {
      PlayingBefore(s0, k, n + v);
    }
  }

  /** What is left to stream of the current buffer and the later playlist entries. */
  function Remaining(s: State): seq<byte>
    requires Consistent(s) && s.playListLen > 0 && s.offset <= s.length
  {
    s.data[s.offset..s.length] + Samples(s.playList, s.playListOffset + 1, s.playListLen)
  }

  /** `r` is playing at the very end of the last entry of the playlist of `s`. */
  predicate AtLastEntryEnd(r: State, s: State)
  {
    && r.playing && r.offset == r.length
    && r.playList == s.playList && r.playListLen == s.playListLen
    && r.playListOffset == s.playListLen - 1
  }

  /**
   * From inside a buffer with a next entry, the rest of the buffer and the
   * next entry's first sample take one tick each, with no gap tick between.
   */
  lemma CrossEntry(s: State)
    requires Consistent(s) && s.offset <= s.length && HasNext(s)
    ensures Playable(s.playList[s.playListOffset + 1])
    ensures Consistent(NextEntryStarted(s))
    ensures After(s, s.length - s.offset + 1) == NextEntryStarted(s)
    ensures Played(s, s.length - s.offset + 1)
         == s.data[s.offset..s.length] + [s.playList[s.playListOffset + 1].data[0]]
  {
    StreamToEnd(s);
    var s1 := s.(offset := s.length);
    AdvanceTick(s1);
    assert NextEntryStarted(s1) == NextEntryStarted(s);
    OneTick(s1);
    RunThrough(s, s.length - s.offset, s1, 1, s.length - s.offset + 1);
  }

  /** What remains from `s` is the rest of its buffer, the next entry's first sample, and what remains after the move. */
  lemma RemainingCross(s: State)
    requires Consistent(s) && s.offset <= s.length && HasNext(s)
    requires Consistent(NextEntryStarted(s))
    ensures Remaining(s)
         == (s.data[s.offset..s.length] + [s.playList[s.playListOffset + 1].data[0]])
          + Remaining(NextEntryStarted(s))
  {
    var i := s.playListOffset + 1;
    var e := s.playList[i];
    var rest := Samples(s.playList, i + 1, s.playListLen);
    assert e.data[..e.length] == [e.data[0]] + e.data[1..e.length];
    assert Samples(s.playList, i, s.playListLen) == e.data[..e.length] + rest;
  }

  /**
   * With a playlist active and the offset inside the current buffer, the
   * ticks write the rest of this buffer and then every later entry back to
   * back, one write per tick with no gap tick, and end at the end of the
   * last entry, still playing.
   */
  lemma {:induction false} PlaylistStream(s: State)
    requires Consistent(s) && s.playListLen > 0 && s.offset <= s.length
    ensures Played(s, |Remaining(s)|) == Remaining(s)
    ensures AtLastEntryEnd(After(s, |Remaining(s)|), s)
    decreases s.playListLen - s.playListOffset
  {
    if HasNext(s) {
      CrossEntry(s);
      var s2 := NextEntryStarted(s);
      RemainingCross(s);
      PlaylistStream(s2);
      RunThrough(s, s.length - s.offset + 1, s2, |Remaining(s2)|, |Remaining(s)|);
    } else {
      StreamToEnd(s);
      assert Samples(s.playList, s.playListOffset + 1, s.playListLen) == [];
      assert Remaining(s) == s.data[s.offset..s.length];
      assert |Remaining(s)| == s.length - s.offset;
    }
  }

  /** Right after `startPlayback_multiple` of n >= 1 entries, all of their samples remain to be played. */
  lemma StartedListRemaining(s: State, list: seq<Entry>, n: int)
    requires Consistent(s) && n > 0 && CountFits(n) && PlayableList(list, n)
    ensures var s0 := StartedList(s, list, n);
      s0.playListLen > 0 && s0.offset <= s0.length && Remaining(s0) == Samples(list, 0, n)
  {
    var s0 := StartedList(s, list, n);
    assert s0.data[0..s0.length] == list[0].data[..list[0].length];
  }

  /**
   * From inside a buffer of an active playlist, the ticks write everything
   * that remains, then the ramp from the last entry's last byte `v`, then
   * end playback with the playlist cleared.
   */
  lemma PlaylistRun(s0: State, all: seq<byte>, v: int)
    requires Consistent(s0) && s0.playListLen > 0 && s0.offset <= s0.length && Remaining(s0) == all
    requires var last := s0.playList[s0.playListLen - 1]; v == last.data[last.length - 1]
    ensures Played(s0, |all|) == all
    ensures Played(s0, |all| + v) == all + Ramp(v)
    ensures forall k: nat :: k <= |all| + v ==> After(s0, k).playing
    ensures !After(s0, |all| + v + 1).playing
    ensures After(s0, |all| + v + 1).playListLen == 0
    ensures Played(s0, |all| + v + 1) == all + Ramp(v)
  {
    PlaylistStream(s0);
    var s1 := After(s0, |all|);
    AfterConsistent(s0, |all|);
    RunEndsInRamp(s0, |all|, all, s1, v);
    forall k: nat | k <= |all| + v
      ensures After(s0, k).playing
    {
      PlayingBefore(s0, k, |all| + v);
    }
  }

  /**
   * `startPlayback_multiple` with n >= 1 playable entries: the ticks write
   * the entries' samples concatenated in order, one per tick, then the ramp
   * from the last entry's last byte down to 1, then playback ends with the
   * playlist cleared.
   */
  lemma PlaylistPlayback(s: State, list: seq<Entry>, n: int)
    requires Consistent(s) && n > 0 && CountFits(n) && PlayableList(list, n)
    ensures var s0 := StartedList(s, list, n);
      var all := Samples(list, 0, n);
      var v: int := list[n - 1].data[list[n - 1].length - 1];
      && Played(s0, |all|) == all
      && Played(s0, |all| + v) == all + Ramp(v)
      && (forall k: nat :: k <= |all| + v ==> After(s0, k).playing)
      && !After(s0, |all| + v + 1).playing
      && After(s0, |all| + v + 1).playListLen == 0
      && Played(s0, |all| + v + 1) == all + Ramp(v)
  {
    StartedListRemaining(s, list, n);
    PlaylistRun(StartedList(s, list, n), Samples(list, 0, n), list[n - 1].data[list[n - 1].length - 1]);
  }

  // ---------------------------------------------------------------------
  // Control operations

  /**
   * `startPlayback` drops any playlist, loads the buffer at offset 0 with its
   * last byte as ramp amplitude and turns playback on; the first tick then
   * writes the first sample (the one `startISR` already put in the register).
   */
  lemma StartEffect(s: State, data: seq<byte>, length: int)
    requires Consistent(s) && Playable(Entry(data, length))
    ensures var r := Started(s, data, length);
      && r.data == data && r.length == length && r.offset == 0
      && r.lastSample == data[length - 1] && r.playing
      && r.playList == [] && r.playListLen == 0 && r.playListOffset == 0
      && Written(r) == Some(data[0])
  {
  }

  /**
   * `startPlayback_multiple` always installs the playlist at position 0. With
   * a positive count it loads entry 0 and starts; otherwise buffer, offset,
   * ramp amplitude and `pcmPlaying` are untouched and no next entry exists.
   */
  lemma StartListEffect(s: State, list: seq<Entry>, n: int)
    requires Consistent(s) && CountFits(n)
    requires n > 0 ==> PlayableList(list, n)
    ensures var r := StartedList(s, list, n);
      && r.playList == list && r.playListLen == n && r.playListOffset == 0
      && (n > 0 ==> r == Started(s, list[0].data, list[0].length).(playList := list, playListLen := n))
      && (n <= 0 ==> r.data == s.data && r.length == s.length && r.offset == s.offset
                     && r.lastSample == s.lastSample && r.playing == s.playing && !HasNext(r))
  {
  }

  /** An empty playlist started while idle leaves `isPlaying()` false and every tick a no-op. */
  lemma EmptyPlaylistStaysIdle(s: State, list: seq<Entry>, n: int, ticks: nat)
    requires Consistent(s) && !s.playing && CountFits(n) && n <= 0
    ensures !StartedList(s, list, n).playing
    ensures After(StartedList(s, list, n), ticks) == StartedList(s, list, n)
    ensures Played(StartedList(s, list, n), ticks) == []
  {
    IdleRun(StartedList(s, list, n), ticks);
  }

  /**
   * `stopPlayback` while playing: the next ticks ramp from the current
   * buffer's last byte v down to 1, whatever was written last, and then
   * playback ends.
   */
  lemma StopRampsFromBufferEnd(s: State)
    requires Consistent(s) && s.playing
    ensures var t := Stopped(s); var v: int := s.data[s.length - 1];
      && AtEnd(t) && t.data == s.data && t.lastSample == v && t.playing
      && Played(t, v) == Ramp(v)
      && After(t, v).playing
      && !After(t, v + 1).playing
  {
    RampToSilence(Stopped(s), s.lastSample);
  }

  /**
   * Stop after one tick of the buffer [200, 5]: the register last received
   * 200, yet the next tick writes 5, the buffer's last byte.
   */
  lemma StopRampsFromLastByteNotLastWrite()
    ensures var s0 := Started(Initial, [200, 5], 2);
      && Played(s0, 1) == [200]
      && Written(Stopped(After(s0, 1))) == Some(5)
  {
    var s0 := Started(Initial, [200, 5], 2);
    StreamRun(s0, 1);
  }

  /**
   * A stop on a buffer whose last byte is 0 has no ramp: the very next tick
   * is terminal, writes nothing, and leaves the register at whatever was
   * written last.
   */
  lemma StopWithZeroLastByteIsAbrupt(s: State)
    requires Consistent(s) && s.playing && s.lastSample == 0
    ensures Written(Stopped(s)) == None
    ensures !Step(Stopped(s)).playing
  {
  }

  /**
   * Stop after one tick of the buffer [200, 0]: the register received 200,
   * and the next tick ends playback without writing, so it stays at 200.
   */
  lemma StopOnZeroLastByteKeepsLastWrite()
    ensures var s0 := Started(Initial, [200, 0], 2);
      && Played(s0, 1) == [200]
      && Written(Stopped(After(s0, 1))) == None
      && !Step(Stopped(After(s0, 1))).playing
  {
    var s0 := Started(Initial, [200, 0], 2);
    StreamRun(s0, 1);
  }

  /**
   * A stop during a ramp moves the offset back to the end of the buffer, so
   * the next tick writes `lastSample` again, above the ramp value it would
   * have written.
   */
  lemma StopDuringRampRestartsRamp(s: State)
    requires Consistent(s) && Ramping(s) && s.offset > s.length
    ensures Written(s) == Some(s.length + s.lastSample - s.offset)
    ensures Written(Stopped(s)) == Some(s.lastSample)
    ensures Written(s).value < s.lastSample
  {
  }

  /** `finishPlayback` touches only the three playlist fields and is idempotent. */
  lemma FinishEffect(s: State)
    ensures Finished(s).data == s.data && Finished(s).length == s.length
    ensures Finished(s).offset == s.offset && Finished(s).lastSample == s.lastSample
    ensures Finished(s).playing == s.playing
    ensures Finished(s).playList == [] && Finished(s).playListLen == 0
    ensures Finished(s).playListOffset == 0
    ensures Finished(Finished(s)) == Finished(s)
  {
  }

  /** The periods the source quotes: 2000 timer counts at 8000 Hz, 1000 at 16000 Hz. */
  lemma TimerPeriodExamples()
    ensures TimerPeriod(8000) == 2000 && TimerPeriod(16000) == 1000
  {
  }

  // ---------------------------------------------------------------------
  // Concrete runs

  /**
   * The buffer [10, 20, 30]: three ticks write it, the next thirty write
   * 30 down to 1, and tick 34 ends playback.
   */
  lemma ThreeSampleBuffer()
    ensures var s0 := Started(Initial, [10, 20, 30], 3);
      && Played(s0, 33) == [10, 20, 30] + Ramp(30)
      && Ramp(30)[0] == 30 && Ramp(30)[29] == 1
      && After(s0, 33).playing
      && !After(s0, 34).playing
  {
    SingleBufferPlayback(Initial, [10, 20, 30], 3);
    assert [10, 20, 30][..3] == [10, 20, 30];
  }

  /**
   * The playlist [[5, 5], [9]]: ticks write 5, 5, then 9 at once on the
   * switch, then 9 down to 1, and tick 13 ends playback.
   */
  lemma TwoEntryPlaylist()
    ensures var list := [Entry([5, 5], 2), Entry([9], 1)];
      var s0 := StartedList(Initial, list, 2);
      && Played(s0, 3) == [5, 5, 9]
      && Played(s0, 12) == [5, 5, 9] + Ramp(9)
      && !After(s0, 13).playing
  {
    var list := [Entry([5, 5], 2), Entry([9], 1)];
    PlaylistPlayback(Initial, list, 2);
    assert Samples(list, 2, 2) == [];
    assert Samples(list, 1, 2) == [9];
    assert Samples(list, 0, 2) == [5, 5, 9];
  }
}
