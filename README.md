# PCMMoby playback state machine in Dafny

PCMMoby plays 8-bit PCM audio on an AVR microcontroller. Timer 1 fires at the
sample rate. Its compare interrupt, `ISR(TIMER1_COMPA_vect)`, writes one sample
per tick into `OCR2A`, the 8-bit PWM duty register of timer 2. A sound is either
one buffer (`startPlayback`) or a playlist of buffers played back to back
(`startPlayback_multiple`). After the last buffer the tick ramps the duty cycle
down, one step per tick, from the buffer's last byte. Then a terminal tick turns
`pcmPlaying` off and calls `finishPlayback`. `stopPlayback` drops the playlist
and moves the offset to the end of the buffer, so the ramp starts on the next
tick. `isPlaying` reports the flag, which stays true through the whole ramp.

The project has four modules:

- `PcmState` (pcm_state.dfy) holds the module globals of PCMMoby.c as the
  `State` value. `Entry` mirrors `pcm2560_entry`, and `byte` is the 8-bit value.
  It defines the tick (`Step`), what the tick writes to `OCR2A` (`Written`),
  and the control operations `Begin`, `Started`, `StartedList`, `Stopped` and
  `Finished`, all as functions. `Consistent` is the invariant that every one
  of them keeps. `After(s, n)` and `Played(s, n)` are the state after `n`
  ticks and the values those ticks write.
- `Runs` (runs.dfy) covers runs of any deterministic ticked machine: the state
  after `n` ticks, the output of `n` ticks, and how runs split and grow.
- `PcmMoby` (pcm_moby.dfy) is the program as written. `Player` is a class
  whose fields are the C globals plus the two registers, and a ghost `written`
  trace records every value stored into `OCR2A`. `Tick` and the control methods
  update the fields in place, branch for branch as in the C code. Each method is
  proved to leave exactly the state that the `PcmState` function gives for the
  old state. `Ticks(n)` is the timer firing `n` times.
- `PcmProperties` (pcm_properties.dfy) states what the player promises:
  - one fact per branch of the tick;
  - streaming a buffer, crossing into the next playlist entry without a gap
    tick, the ramp and the terminal tick;
  - end-to-end playback of a buffer and of a playlist;
  - the effects of start, stop and finish;
  - two concrete sounds.

## Behaviour of the code worth knowing

- The ramp never writes 0. PCMMoby.c:92 writes
  `pcm_length + lastSample - current_pcm_offset`. The offset there is at least
  `pcm_length` and below `pcm_length + lastSample`, so the values run from
  `lastSample` down to 1. The terminal tick (PCMMoby.c:80-83) writes nothing.
  When `lastSample >= 1`, `OCR2A` therefore keeps 1. For the buffer
  `[10, 20, 30]`, ticks 4..33 write 30 down to 1 (`ThreeSampleBuffer`,
  `TwoEntryPlaylist`).
- When the buffer's last byte is 0, there is no ramp at all. The tick that
  reaches `pcm_length` is already terminal (PCMMoby.c:80-83), and `OCR2A`
  keeps the last byte written. At a natural end that byte is 0. After a
  `stopPlayback` (PCMMoby.c:222) it is the last streamed byte. The buffer
  `[200, 0]` stopped after one tick goes silent on the next tick with `OCR2A`
  still at 200 and no click-free ramp (`StopWithZeroLastByteIsAbrupt`,
  `StopOnZeroLastByteKeepsLastWrite`).
- The comment on `pcmPlaying` (PCMMoby.c:48) says it is false while ramping
  down. The code keeps it true through the whole ramp and clears it only on the
  terminal tick (PCMMoby.c:80-93, and the comment at 88-90). The model follows
  the code: `SingleBufferPlayback` and `PlaylistPlayback` prove `pcmPlaying`
  true at every ramp tick.
- A stop ramps from `lastSample`, which is the last byte of the current buffer
  (PCMMoby.c:74, 154). `stopPlayback` only moves the offset to `pcm_length`
  (PCMMoby.c:222). The ramp therefore does not start from the last value
  written (`StopRampsFromLastByteNotLastWrite`).
- A stop during a ramp moves the offset back to `pcm_length` (PCMMoby.c:222).
  The ramp then restarts at `lastSample` (`StopDuringRampRestartsRamp`).
- The terminal tick still increments `current_pcm_offset`, because the increment
  at PCMMoby.c:100 follows the whole `if`/`else`. In the idle state that follows
  a ramp, the offset is therefore `pcm_length + lastSample + 1`.

## Model

| member | source | states |
|---|---|---|
| PcmState.Step | PCMMoby.c:60-102 | the tick: an idle tick changes nothing, a tick never turns playback on, and a playing tick turns it off exactly when it is at the end of the last buffer at offset `pcm_length + lastSample` |
| PcmState.Written | PCMMoby.c:60-102 | the value stored into `OCR2A` (lines 76, 92, 97); there is no store exactly on idle ticks and on the terminal tick |
| PcmState.Advance | PCMMoby.c:69-74 | the move to the next playlist entry: the playlist position advances by one, the offset is 0, the flag and playlist are unchanged, and `lastSample` is the new buffer's last byte |
| PcmState.Begin | PCMMoby.c:154-156 | the state part of `startISR`: playback on at offset 0 with `lastSample` the buffer's last byte, every other field unchanged |
| PcmState.Finished | PCMMoby.c:205-212 | `finishPlayback` clears the three playlist fields, leaving no next entry, and changes nothing else |
| PcmState.StepConsistent | PCMMoby.c:60-102 | every branch of the tick keeps the invariant: offset within buffer plus ramp, `lastSample` is the buffer's last byte, an active playlist is playing and names the current buffer |
| PcmState.AfterConsistent | PCMMoby.c:60-102 | any number of ticks keeps the invariant |
| PcmState.Started | PCMMoby.c:175-187 | `startPlayback` of a playable buffer yields a state satisfying the invariant |
| PcmState.StartedList | PCMMoby.c:189-203 | `startPlayback_multiple` keeps the invariant for any count the 16-bit `int` carries (-32768 excluded), always installs the list with its count at position 0, and for a count of at most 0 leaves buffer, offset, amplitude and flag untouched |
| PcmState.Stopped | PCMMoby.c:214-224 | `stopPlayback` keeps the invariant, sets the offset to `pcm_length`, clears the three playlist fields, and leaves buffer, length, `lastSample` and `pcmPlaying` unchanged |
| PcmState.TimerPeriod | PCMMoby.c:149 | `OCR1A = F_CPU / sampleRate` is a 16-bit value; from 245 Hz up it is the largest tick count whose multiple of the rate fits in 16 MHz |
| PcmProperties.Descent | PCMMoby.c:86-93 | the ramp values are `top, top - 1, …`: element k is `top - k` and the length is the number of ticks |
| PcmProperties.IdleTick | PCMMoby.c:60-61 | while `pcmPlaying` is false a tick writes nothing and changes nothing |
| PcmProperties.StreamingTick | PCMMoby.c:96-100 | inside the buffer a tick writes the byte at the offset and advances the offset by one, nothing else |
| PcmProperties.AdvanceTick | PCMMoby.c:64-77 | at the end of a buffer with a next entry, the tick loads that entry, sets `lastSample` to its last byte, writes its first byte at once, and leaves the offset at 1; the new state satisfies the invariant |
| PcmProperties.RampTick | PCMMoby.c:86-93 | a ramp tick writes `pcm_length + lastSample - offset`, which lies in 1..`lastSample` ⊆ 1..255, keeps playing, and the next ramp tick writes exactly one less |
| PcmProperties.TerminalTick | PCMMoby.c:80-83 | at offset `pcm_length + lastSample` with no next entry the tick writes nothing, clears `pcmPlaying` and the playlist, and still increments the offset |
| PcmProperties.CountersFit16 | PCMMoby.c:45-47 | under the invariant the 16-bit offset and the sum `pcm_length + lastSample` never wrap |
| PcmProperties.IdleRun | PCMMoby.c:60-61 | any number of ticks while idle writes nothing and changes nothing |
| PcmProperties.PlayingBefore | PCMMoby.c:60-102 | no tick turns playback on, so a run that is playing at tick b was playing at every tick before b |
| PcmProperties.StaysIdle | PCMMoby.c:60-61 | once a run is idle, further ticks change neither the state nor the output, so `isPlaying` stays false until the next start |
| PcmProperties.StreamState | PCMMoby.c:96-100 | n ticks inside the buffer only move the offset by n |
| PcmProperties.StreamWrite | PCMMoby.c:96-97 | tick k+1 inside the buffer writes the byte at offset + k |
| PcmProperties.StreamOut | PCMMoby.c:96-100 | n ticks inside the buffer write the next n bytes in order |
| PcmProperties.StreamRun | PCMMoby.c:96-100 | both of the above for the same run |
| PcmProperties.StreamToEnd | PCMMoby.c:96-100 | streaming the rest of the buffer ends at offset `pcm_length` having written exactly the remaining bytes |
| PcmProperties.RampState | PCMMoby.c:86-100 | n ramp ticks only move the offset by n and keep playing |
| PcmProperties.RampWrite | PCMMoby.c:86-93 | ramp tick k+1 from amplitude `top` writes `top - k` |
| PcmProperties.RampOut | PCMMoby.c:86-100 | n ramp ticks write `top, top - 1, …, top - n + 1` |
| PcmProperties.RampToSilence | PCMMoby.c:79-100 | from the end of the last buffer exactly `lastSample` ramp ticks write `lastSample` down to 1 while playing; the next tick writes nothing and leaves playback off with the playlist cleared |
| PcmProperties.RunEndsInRamp | PCMMoby.c:60-102 | a run that reaches the end of the last buffer continues with the whole ramp, then the silent terminal tick |
| PcmProperties.SingleBufferPlayback | PCMMoby.c:175-187 | after `startPlayback(data, L)` with last byte v: the first L ticks write `data[..L]`, the next v write v down to 1, `isPlaying` is true after every one of the first L+v ticks, and tick L+v+1 ends playback without a write |
| PcmProperties.BufferRun | PCMMoby.c:60-102 | the same for any state at offset 0 of its only buffer, playing at every tick up to L+v |
| PcmProperties.CrossEntry | PCMMoby.c:64-77 | from inside a buffer with a next entry, the rest of the buffer and the next entry's first byte take one tick each with no gap tick, ending at offset 1 of the next entry |
| PcmProperties.RemainingCross | PCMMoby.c:64-77 | what remains to stream splits at the entry switch into the rest of the buffer, the next entry's first byte, and what remains after the switch |
| PcmProperties.PlaylistStream | PCMMoby.c:60-102 | with a playlist active, the ticks write the rest of the buffer and every later entry back to back, one byte per tick, and stop at the end of the last entry, still playing |
| PcmProperties.StartedListRemaining | PCMMoby.c:189-203 | right after `startPlayback_multiple` of n ≥ 1 entries, all their bytes remain to be played |
| PcmProperties.PlaylistRun | PCMMoby.c:60-102 | from inside an active playlist: everything remaining, then the ramp from the last entry's last byte while playing at every tick, then playback off with the playlist cleared |
| PcmProperties.PlaylistPlayback | PCMMoby.c:189-203 | after `startPlayback_multiple` of n ≥ 1 entries the ticks write the entries concatenated in order, then the ramp from the last entry's last byte with `isPlaying` true at every tick up to its end, then playback ends with the playlist cleared |
| PcmProperties.StartEffect | PCMMoby.c:175-187 | `startPlayback` drops the playlist, loads the buffer at offset 0 with its last byte as ramp amplitude and turns playback on; the first tick writes `data[0]` |
| PcmProperties.StartListEffect | PCMMoby.c:189-203 | `startPlayback_multiple` always overwrites the three playlist fields; a positive count loads entry 0 and starts, otherwise buffer, offset, amplitude and flag are untouched |
| PcmProperties.EmptyPlaylistStaysIdle | PCMMoby.c:189-203 | an empty playlist started while idle keeps `isPlaying` false and every later tick a no-op |
| PcmProperties.StopRampsFromBufferEnd | PCMMoby.c:214-224 | after `stopPlayback` while playing, the ticks ramp from the buffer's last byte v down to 1 and then playback ends |
| PcmProperties.StopRampsFromLastByteNotLastWrite | PCMMoby.c:214-224 | for the buffer [200, 5] stopped after one tick, the register last received 200 but the next tick writes 5 |
| PcmProperties.StopWithZeroLastByteIsAbrupt | PCMMoby.c:214-224 | a stop while playing a buffer whose last byte is 0 makes the next tick terminal: no write, no ramp, playback off |
| PcmProperties.StopOnZeroLastByteKeepsLastWrite | PCMMoby.c:214-224 | for the buffer [200, 0] stopped after one tick, 200 was written and the next tick ends playback without a write, so the register stays at 200 |
| PcmProperties.StopDuringRampRestartsRamp | PCMMoby.c:214-224 | a stop during a ramp makes the next tick write `lastSample`, above the ramp value it would have written |
| PcmProperties.FinishEffect | PCMMoby.c:205-212 | `finishPlayback` changes only the three playlist fields and is idempotent |
| PcmProperties.TimerPeriodExamples | PCMMoby.c:147-149 | the periods quoted in the source: 2000 at 8000 Hz, 1000 at 16000 Hz |
| PcmProperties.ThreeSampleBuffer | PCMMoby.c:60-102 | buffer [10, 20, 30]: ticks 1-3 write it, ticks 4-33 write 30 down to 1 while playing, tick 34 ends playback |
| PcmProperties.TwoEntryPlaylist | PCMMoby.c:60-102 | playlist [[5, 5], [9]]: ticks write 5, 5, then 9 on the switch tick, then 9 down to 1, and tick 13 ends playback |
| PcmMoby.Player.constructor | PCMMoby.c:43-57 | the zero-initialised globals: idle, empty buffer and playlist, invariant holds |
| PcmMoby.Player.Tick | PCMMoby.c:60-102 | the interrupt updates the globals in place to `Step` of the old ones, stores into `OCR2A` exactly what `Written` gives (nothing on idle and terminal ticks), appends it to the trace, keeps the invariant and leaves `OCR1A` alone |
| PcmMoby.Player.EndOfBuffer | PCMMoby.c:64-94 | past the end of the buffer: the next entry, the terminal tick or one ramp value, agreeing with `Step` and `Written` up to the offset increment that follows |
| PcmMoby.Player.Ticks | PCMMoby.c:60-102 | the timer firing n times leaves the globals at `After(old, n)`, appends `Played(old, n)` to the trace of `OCR2A` writes, leaves `OCR2A` holding the last value written (its old value if none) and `OCR1A` untouched |
| PcmMoby.LastOrSnoc | PCMMoby.c:60-102 | after one more tick the register holds that tick's write if it made one, and otherwise keeps the value it had |
| PcmMoby.Player.StartIsr | PCMMoby.c:129-156 | `OCR2A` gets the first byte, `OCR1A` the timer period, and playback starts at offset 0 with the buffer's last byte as `lastSample` |
| PcmMoby.Player.StartPlayback | PCMMoby.c:175-187 | the globals become `Started(old, data, length)`, the first byte goes to `OCR2A`, and the invariant is kept |
| PcmMoby.Player.StartPlaybackMultiple | PCMMoby.c:189-203 | for a count the 16-bit `int` carries, -32768 excluded, the globals become `StartedList(old, list, length)`; registers and trace change only for a positive count |
| PcmMoby.Player.FinishPlayback | PCMMoby.c:205-212 | the globals become `Finished(old)`: only the playlist fields change, registers untouched, and the invariant is kept when it held before |
| PcmMoby.Player.StopPlayback | PCMMoby.c:214-224 | the globals become `Stopped(old)`: playlist dropped and offset at `pcm_length`, registers untouched, invariant kept |
| PcmMoby.Player.IsPlaying | PCMMoby.c:227-230 | returns `pcmPlaying` |

## Left out

- The CPU clock `F_CPU` is a build-time setting that PCMMoby.c does not
  define. The model fixes it at 16 MHz (`CpuHz`), the value the comments at
  PCMMoby.c:147-148 quote. That is the clock of the Uno, Nano and Mega boards.
  `TimerPeriod` and its bounds hold for that clock only.

- Hardware set-up in `startISR` (PCMMoby.c:108-127, 138-142, 152): pin mode,
  timer modes and prescalers, and the interrupt enable. Only the register
  values that matter to playback are modelled: `OCR2A`, `OCR1A` and the
  globals.
- `cli()`/`sei()` and the concurrency between the interrupt and the control
  functions. Every operation is one atomic step on the state, and ticks happen
  only between operations.
- `stopISR` (PCMMoby.c:160-173) and `speakerPin`: nothing in PCMMoby.c calls
  `stopISR`.
- `pgm_read_byte` from flash is indexing into the buffer's bytes (`Peek`). A NULL
  `pcmPlayList` is the empty sequence.
- Misuse that is undefined in C is excluded by preconditions rather than
  modelled:
  - a buffer of length below 1 or shorter than its length, where `startISR`
    reads before or past the buffer;
  - a length above 32767, which the 16-bit `int` parameter cannot carry;
  - a playlist count outside -32767..32767 (`CountFits`): above 32767 the
    16-bit `int` cannot carry it, and for -32768 the tick's
    `pcmPlayListLen - 1` (PCMMoby.c:67) overflows;
  - a sample rate of 0, a division by zero, or above 65535, the range of the
    16-bit `unsigned int`.
  These are the requires of `Player.StartPlayback`,
  `Player.StartPlaybackMultiple` and `Player.StartIsr`.
- Player.StartIsr: requires a loaded buffer of length at least 1, because C's
  `pcm_data + pcm_length - 1` reads outside the buffer otherwise.
- Player.StartPlaybackMultiple: requires `CountFits(length)`, so the
  overflow of `pcmPlayListLen - 1` at PCMMoby.c:67 for a count of -32768 is not
  modelled, and neither is any wrapped result it might have.
- 16-bit and 8-bit widths are not built into the types. `CountersFit16` shows
  that the offset and `pcm_length + lastSample` stay below 2^16 under the
  invariant, so C's unsigned arithmetic at PCMMoby.c:80 and 92 never wraps. The
  ramp value is still reduced modulo 256 as the 8-bit register store does.
- `isPlaying` is modelled as reading the flag. `Player.IsPlaying` promises
  nothing beyond that.
