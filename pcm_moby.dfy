/**
 * The PCMMoby player as the program has it: module globals updated in place
 * by the timer interrupt and by the control functions. Each method is proved
 * against the function of `PcmState` that specifies it, applied to the state
 * before the call; the properties of those functions are in `PcmProperties`.
 */
module PcmMoby {
  import opened PcmState

  class Player {
    var pcmData: seq<byte>         // pcm_data
    var pcmLength: int             // pcm_length
    var currentOffset: int         // current_pcm_offset
    var lastSample: byte           // lastSample
    var playing: bool              // pcmPlaying
    var playList: seq<Entry>       // pcmPlayList
    var playListLen: int           // pcmPlayListLen
    var playListOffset: int        // pcmPlayListOffset

    /** The PWM duty register `OCR2A`: the speaker output. */
    var ocr2a: byte
    /** The sample timer's compare register `OCR1A`. */
    var ocr1a: int
    /** Every value written to `OCR2A` so far, oldest first. */
    ghost var written: seq<byte>

    /** The globals as a value. */
    function Snapshot(): State
      reads this
    {
      State(pcmData, pcmLength, currentOffset, lastSample, playing,
            playList, playListLen, playListOffset)
    }

    ghost predicate Valid()
      reads this
    {
      Consistent(Snapshot())
    }

    /** The zero-initialised globals at reset, before any sound is started. */
    constructor()
      ensures Snapshot() == Initial && Valid()
      ensures ocr2a == 0 && ocr1a == 0 && written == []
    {
      pcmData, pcmLength, currentOffset, lastSample, playing := [], 0, 0, 0, false;
      playList, playListLen, playListOffset := [], 0, 0;
      ocr2a, ocr1a := 0, 0;
      written := [];
    }

    /**
     * `ISR(TIMER1_COMPA_vect)`: one sample period. The new globals are
     * `Step` of the old ones, the register receives what `Written` says
     * (nothing on an idle or terminal tick), and the invariant is kept.
     */
    method Tick()
      requires Valid()
      modifies this
      ensures Valid()
      ensures Snapshot() == Step(old(Snapshot()))
      ensures written == old(written) + Out(old(Snapshot()))
      ensures ocr2a == (match Written(old(Snapshot())) case Some(v) => v case None => old(ocr2a))
      ensures ocr1a == old(ocr1a)
    {
      StepConsistent(Snapshot());
      if playing {
        if currentOffset >= pcmLength {
          EndOfBuffer();
        } else {
          ocr2a := Peek(pcmData, currentOffset);
          written := written + [ocr2a];
        }
        currentOffset := currentOffset + 1;
      }
    }

    /**
     * The part of the tick past the end of the buffer (PCMMoby.c:66-94):
     * the next playlist entry, the terminal tick or one ramp value. The
     * offset increment that follows it is the caller's.
     */
    method EndOfBuffer()
      requires Valid() && playing && currentOffset >= pcmLength
      modifies this
      ensures Snapshot().(offset := currentOffset + 1) == Step(old(Snapshot()))
      ensures written == old(written) + Out(old(Snapshot()))
      ensures ocr2a == (match Written(old(Snapshot())) case Some(v) => v case None => old(ocr2a))
      ensures ocr1a == old(ocr1a)
    {
      ghost var s := Snapshot();
      if playListOffset < playListLen - 1 {
        playListOffset := playListOffset + 1;
        var e := EntryAt(playList, playListOffset);
        pcmData := e.data;
        pcmLength := e.length;
        currentOffset := 0;
        lastSample := Peek(pcmData, pcmLength - 1);
        ocr2a := Peek(pcmData, currentOffset);
        written := written + [ocr2a];
        assert Snapshot() == Advance(s);
      } else if currentOffset == pcmLength + lastSample {
        playing := false;
        FinishPlayback();
        assert Snapshot() == Finished(s.(playing := false));
      } else {
        ocr2a := (pcmLength + lastSample - currentOffset) % 256;
        written := written + [ocr2a];
        assert Snapshot() == s;
      }
    }

    /**
     * The timer firing `n` times in a row: the globals become `After` of
     * the old ones, the register receives `Played`, in order, and ends
     * holding the last value written (its old value if the run wrote
     * nothing); the sample period is untouched.
     */
    method Ticks(n: nat)
      requires Valid()
      modifies this
      ensures Valid()
      ensures Snapshot() == After(old(Snapshot()), n)
      ensures written == old(written) + Played(old(Snapshot()), n)
      ensures ocr2a == LastOr(Played(old(Snapshot()), n), old(ocr2a))
      ensures ocr1a == old(ocr1a)
    {
      ghost var s0 := Snapshot();
      ghost var w0 := written;
      var o0, p0 := ocr2a, ocr1a;
      for i := 0 to n
        invariant Valid()
        invariant Snapshot() == After(s0, i)
        invariant written == w0 + Played(s0, i)
        invariant ocr2a == LastOr(Played(s0, i), o0)
        invariant ocr1a == p0
      {
        Tick();
        assert written == (w0 + Played(s0, i)) + Out(After(s0, i));
        LastOrSnoc(Played(s0, i), Written(After(s0, i)), o0);
      }
    }

    /**
     * The state-setting part of `startISR`: the first sample goes to the
     * register at once, the sample timer gets its period, and playback
     * starts at offset 0 with the buffer's last byte as ramp amplitude.
     * The caller must have loaded a non-empty buffer.
     */
    method StartIsr(sampleRate: int)
      requires 1 <= pcmLength <= |pcmData|
      requires 1 <= sampleRate < 0x1_0000
      modifies this
      ensures Snapshot() == Begin(old(Snapshot()))
      ensures ocr2a == pcmData[0] && written == old(written) + [pcmData[0]]
      ensures ocr1a == TimerPeriod(sampleRate)
    {
      ocr2a := pcmData[0];
      written := written + [ocr2a];
      ocr1a := TimerPeriod(sampleRate);
      lastSample := pcmData[pcmLength - 1];
      currentOffset := 0;
      playing := true;
    }

    /** `startPlayback(data, length, sampleRate)`. */
    method StartPlayback(data: seq<byte>, length: int, sampleRate: int)
      requires Valid() && Playable(Entry(data, length))
      requires 1 <= sampleRate < 0x1_0000
      modifies this
      ensures Valid()
      ensures Snapshot() == Started(old(Snapshot()), data, length)
      ensures ocr2a == data[0] && written == old(written) + [data[0]]
      ensures ocr1a == TimerPeriod(sampleRate)
    {
      playList := [];
      playListLen, playListOffset := 0, 0;
      pcmData := data;
      pcmLength := length;
      StartIsr(sampleRate);
    }

    /**
     * `startPlayback_multiple(list, length, sampleRate)`: the playlist
     * fields are always overwritten; only a positive count starts anything.
     */
    method StartPlaybackMultiple(list: seq<Entry>, length: int, sampleRate: int)
      requires Valid() && CountFits(length) && (length > 0 ==> PlayableList(list, length))
      requires length > 0 ==> 1 <= sampleRate < 0x1_0000
      modifies this
      ensures Valid()
      ensures Snapshot() == StartedList(old(Snapshot()), list, length)
      ensures length > 0 ==> ocr2a == list[0].data[0] && written == old(written) + [list[0].data[0]]
      ensures length > 0 ==> ocr1a == TimerPeriod(sampleRate)
      ensures length <= 0 ==> ocr2a == old(ocr2a) && ocr1a == old(ocr1a) && written == old(written)
    {
      playList := list;
      playListLen := length;
      playListOffset := 0;
      if length > 0 {
        pcmData := list[0].data;
        pcmLength := list[0].length;
        StartIsr(sampleRate);
      }
    }

    /** `finishPlayback`: only the three playlist globals change. */
    method FinishPlayback()
      modifies this
      ensures old(Valid()) ==> Valid()
      ensures Snapshot() == Finished(old(Snapshot()))
      ensures ocr2a == old(ocr2a) && ocr1a == old(ocr1a) && written == old(written)
    {
      playList := [];
      playListLen, playListOffset := 0, 0;
    }

    /** `stopPlayback`: drop the playlist and skip to the end of the buffer, where the ramp begins. */
    method StopPlayback()
      requires Valid()
      modifies this
      ensures Valid()
      ensures Snapshot() == Stopped(old(Snapshot()))
      ensures ocr2a == old(ocr2a) && ocr1a == old(ocr1a) && written == old(written)
    {
      playList := [];
      playListLen, playListOffset := 0, 0;
      currentOffset := pcmLength;
    }

    /** `isPlaying`: true from a start until the terminal tick, through the whole ramp. */
    method IsPlaying() returns (b: bool)
      ensures b == playing
    {
      b := playing;
    }
  }

  /** The last element of `w`, or `d` when `w` is empty: what a register holds after the writes `w`. */
  function LastOr(w: seq<byte>, d: byte): byte
  {
    if w == [] then d else w[|w| - 1]
  }

  /** One more tick: the register holds the new write if there is one, and keeps its value otherwise. */
  lemma LastOrSnoc(w: seq<byte>, o: Option<byte>, d: byte)
    ensures LastOr(w + Emit(o), d) == (match o case Some(v) => v case None => LastOr(w, d))
  {
    if o == None {
      assert w + Emit(o) == w;
    }
  }
}
