/**
 * The playback state of PCMMoby as a value, and the per-sample tick and the
 * control operations as functions on it.
 *
 * The fields of `State` are the module globals of PCMMoby.c: the current
 * buffer (`pcm_data`, `pcm_length`), `current_pcm_offset`, `lastSample`,
 * `pcmPlaying` and the playlist (`pcmPlayList`, `pcmPlayListLen`,
 * `pcmPlayListOffset`). A NULL playlist pointer is the empty sequence.
 */
module PcmState {

  import opened Runs

  /** An unsigned 8-bit value: a sample, or the value of the 8-bit PWM duty register. */
  type byte = x: int | 0 <= x < 256

  /** The largest buffer length the 16-bit `int` length parameter can carry. */
  const MaxLength: int := 32767

  /**
   * A playlist count the 16-bit `int` parameter of `startPlayback_multiple`
   * can carry, without -32768, for which `pcmPlayListLen - 1` in the tick
   * (PCMMoby.c:67) overflows.
   */
  predicate CountFits(n: int)
  {
    -32768 < n <= MaxLength
  }

  /** The CPU clock the sample timer counts, in Hz. */
  const CpuHz: int := 16000000

  datatype Option<T> = None | Some(value: T)

  /** One playlist entry: a buffer of samples in flash and the number of samples to play. */
  datatype Entry = Entry(data: seq<byte>, length: int)

  /** An entry the player can play: at least one sample, all of them present, within 16 bits. */
  predicate Playable(e: Entry)
  {
    1 <= e.length <= |e.data| && e.length <= MaxLength
  }

  /** The first `n` entries of `list` are all playable. */
  predicate PlayableList(list: seq<Entry>, n: int)
  {
    n <= |list| && forall i :: 0 <= i < n ==> Playable(list[i])
  }

  datatype State = State(
    data: seq<byte>,      // pcm_data
    length: int,          // pcm_length
    offset: int,          // current_pcm_offset
    lastSample: byte,     // lastSample
    playing: bool,        // pcmPlaying
    playList: seq<Entry>, // pcmPlayList
    playListLen: int,     // pcmPlayListLen
    playListOffset: int   // pcmPlayListOffset
  )

  /** The zero-initialised globals before anything has been played. */
  const Initial: State := State([], 0, 0, 0, false, [], 0, 0)

  /**
   * The invariant every operation keeps. Besides bounds it says that while
   * playing the offset never passes the end of the ramp, that `lastSample` is
   * the last byte of the current buffer, and that an active playlist is only
   * ever present while playing and names the current buffer.
   */
  predicate Consistent(s: State)
  {
    && 0 <= s.length <= |s.data|
    && s.length <= MaxLength
    && 0 <= s.offset <= s.length + s.lastSample + 1
    && (1 <= s.length ==> s.lastSample == s.data[s.length - 1])
    && (s.playing ==> 1 <= s.length && s.offset <= s.length + s.lastSample)
    && 0 <= s.playListOffset
    && (s.playListLen <= 0 ==> s.playListOffset == 0)
    && (s.playListLen > 0 ==>
          && s.playing
          && PlayableList(s.playList, s.playListLen)
          && s.playListOffset < s.playListLen
          && s.data == s.playList[s.playListOffset].data
          && s.length == s.playList[s.playListOffset].length)
  }

  /** The playlist has an entry after the current one (PCMMoby.c:67). */
  predicate HasNext(s: State)
  {
    s.playListOffset < s.playListLen - 1
  }

  /** The tick is past the current buffer and has no next entry: it ramps or ends. */
  predicate AtEnd(s: State)
  {
    s.playing && s.offset >= s.length && !HasNext(s)
  }

  /** The tick writes a ramp value: at the end, but not yet at the terminal offset. */
  predicate Ramping(s: State)
  {
    AtEnd(s) && s.offset != s.length + s.lastSample
  }

  /**
   * `pgm_read_byte(d + i)`. Reads outside the buffer are undefined in C;
   * here they give 0, and `Consistent` rules them out on every path taken.
   */
  function Peek(d: seq<byte>, i: int): byte
  {
    if 0 <= i < |d| then d[i] else 0
  }

  /** `pcmPlayList[i]`, with the same convention for an index past the list. */
  function EntryAt(list: seq<Entry>, i: int): Entry
  {
    if 0 <= i < |list| then list[i] else Entry([], 0)
  }

  /** Moving to the next playlist entry (PCMMoby.c:69-74), before the offset increment. */
  function Advance(s: State): (r: State)
    ensures r.playListOffset == s.playListOffset + 1 && r.offset == 0
    ensures r.playing == s.playing && r.playList == s.playList && r.playListLen == s.playListLen
    ensures 1 <= r.length <= |r.data| ==> r.lastSample == r.data[r.length - 1]
  {
    var i := s.playListOffset + 1;
    var e := EntryAt(s.playList, i);
    s.(playListOffset := i, data := e.data, length := e.length, offset := 0,
       lastSample := Peek(e.data, e.length - 1))
  }

  /** `finishPlayback`: drops the playlist linkage and nothing else. */
  function Finished(s: State): (r: State)
    ensures r.playList == [] && r.playListLen == 0 && r.playListOffset == 0 && !HasNext(r)
    ensures r.(playList := s.playList, playListLen := s.playListLen, playListOffset := s.playListOffset) == s
  {
    s.(playList := [], playListLen := 0, playListOffset := 0)
  }

  /**
   * The state after one `TIMER1_COMPA` tick. Whenever playback was on, the
   * offset is incremented after the branch (PCMMoby.c:100), on the terminal
   * tick too; after `Advance` that leaves it at 1.
   */
  function Step(s: State): (r: State)
    ensures !s.playing ==> r == s
    ensures r.playing ==> s.playing
    ensures s.playing && !r.playing <==> AtEnd(s) && s.offset == s.length + s.lastSample
  {
    if !s.playing then s
    else if s.offset < s.length then s.(offset := s.offset + 1)
    else if HasNext(s) then
      var t := Advance(s);
      t.(offset := t.offset + 1)
    else if s.offset == s.length + s.lastSample then
      var t := Finished(s.(playing := false));
      t.(offset := t.offset + 1)
    else s.(offset := s.offset + 1)
  }

  /**
   * What one tick writes to the PWM duty register `OCR2A`, if anything. The
   * ramp value is truncated to the register's 8 bits as C's assignment does.
   */
  function Written(s: State): (r: Option<byte>)
    ensures r == None <==> !s.playing || (AtEnd(s) && s.offset == s.length + s.lastSample)
  {
    if !s.playing then None
    else if s.offset < s.length then Some(Peek(s.data, s.offset))
    else if HasNext(s) then Some(Peek(Advance(s).data, 0))
    else if s.offset == s.length + s.lastSample then None
    else Some((s.length + s.lastSample - s.offset) % 256)
  }

  function Emit(o: Option<byte>): seq<byte>
  {
    match o
    case None => []
    case Some(v) => [v]
  }

  /** What one tick writes, as a sequence of zero or one values. */
  function Out(s: State): seq<byte>
  {
    Emit(Written(s))
  }

  /** The state `n` ticks after `s`. */
  function After(s: State, n: nat): State
  {
    RunState(Step, s, n)
  }

  /** The values the first `n` ticks from `s` write to `OCR2A`, in order. */
  function Played(s: State, n: nat): seq<byte>
  {
    RunOut(Step, Out, s, n)
  }

  /** A tick keeps the invariant: every branch of the tick preserves `Consistent`. */
  lemma StepConsistent(s: State)
    requires Consistent(s)
    ensures Consistent(Step(s))
  {
  }

  /** Any number of ticks keeps the invariant. */
  lemma {:induction false} AfterConsistent(s: State, n: nat)
    requires Consistent(s)
    ensures Consistent(After(s, n))
  {
    if n > 0 {
      AfterConsistent(s, n - 1);
      StepConsistent(After(s, n - 1));
    }
  }

  /** The state part of `startISR` (PCMMoby.c:154-156). */
  function Begin(s: State): (r: State)
    requires 1 <= s.length <= |s.data|
    ensures r.(offset := s.offset, lastSample := s.lastSample, playing := s.playing) == s
    ensures r.playing && r.offset == 0 && r.lastSample == r.data[r.length - 1]
  {
    s.(lastSample := s.data[s.length - 1], offset := 0, playing := true)
  }

  /** `startPlayback(data, length, _)`: drop the playlist, load the buffer, start. */
  function Started(s: State, data: seq<byte>, length: int): (r: State)
    requires Consistent(s) && Playable(Entry(data, length))
    ensures Consistent(r)
  {
    Begin(s.(playList := [], playListLen := 0, playListOffset := 0,
             data := data, length := length))
  }

  /**
   * `startPlayback_multiple(list, n, _)`: the playlist fields are always
   * overwritten; only a positive count loads entry 0 and starts.
   */
  function StartedList(s: State, list: seq<Entry>, n: int): (r: State)
    requires Consistent(s) && CountFits(n)
    requires n > 0 ==> PlayableList(list, n)
    ensures Consistent(r)
    ensures r.playList == list && r.playListLen == n && r.playListOffset == 0
    ensures n <= 0 ==> r.data == s.data && r.length == s.length && r.offset == s.offset
                       && r.lastSample == s.lastSample && r.playing == s.playing
  {
    var t := s.(playList := list, playListLen := n, playListOffset := 0);
    if n > 0 then Begin(t.(data := list[0].data, length := list[0].length)) else t
  }

  /** `stopPlayback`: drop the playlist and jump the offset to the end of the buffer. */
  function Stopped(s: State): (r: State)
    requires Consistent(s)
    ensures Consistent(r)
    ensures r.offset == s.length && r.playList == [] && r.playListLen == 0 && r.playListOffset == 0
    ensures r.(offset := s.offset, playList := s.playList, playListLen := s.playListLen,
               playListOffset := s.playListOffset) == s
  {
    Finished(s).(offset := s.length)
  }

  /**
   * The sample timer's compare value `F_CPU / sampleRate` (PCMMoby.c:149),
   * stored into the 16-bit `OCR1A`. Rates from 245 Hz up are not truncated,
   * and then the period is the largest tick count that fits the rate.
   */
  function TimerPeriod(sampleRate: int): (p: int)
    requires 1 <= sampleRate < 0x1_0000
    ensures 0 <= p < 0x1_0000
    ensures sampleRate >= 245 ==> p * sampleRate <= CpuHz < (p + 1) * sampleRate
  {
    QuotientFits(sampleRate);
    (CpuHz / sampleRate) % 0x1_0000
  }

  lemma QuotientFits(r: int)
    requires 1 <= r
    ensures var q := CpuHz / r; q * r <= CpuHz < (q + 1) * r
    ensures r >= 245 ==> CpuHz / r < 0x1_0000
  {
    DivBounds(CpuHz, r);
    if r >= 245 {
      MulMono(CpuHz / r, 245, r);
    }
  }

  /** Truncating division of a non-negative number: the quotient is the largest multiple that fits. */
  lemma DivBounds(x: int, r: int)
    requires 0 <= x && 1 <= r
    ensures 0 <= x / r && (x / r) * r <= x < (x / r + 1) * r
  {
    var q, m := x / r, x % r;
    assert x == q * r + m && 0 <= m < r;
    assert (q + 1) * r == q * r + r;
    if q < 0 {
      MulMono(r, 1, -q);
      assert false;
    }
  }

  lemma MulMono(q: int, x: int, y: int)
    requires 0 <= q && x <= y
    ensures q * x <= q * y
  {
    assert q * y - q * x == q * (y - x);
  }
}
