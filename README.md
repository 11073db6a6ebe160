# audiotool-rs: the tone callback and the parameter sliders, in Dafny

audiotool-rs plays a continuous sine tone whose frequency and amplitude are
set from two sliders. This project models its two pieces of sequential logic
and proves what they promise:

- `audio.dfy`, module `Audio`: the `fill_block` output callback of
  `src/audio.rs`. `Audio.BlockFiller` holds what the closure captures: the
  shared parameters, the stream's sample rate and channel count, and the
  running `sample_clock`. `Fill` fills an interleaved `array<real>` frame
  by frame, in place, with nested loops. It is proved equal to `Render`, a
  recursive reference definition that builds the buffer chunk by chunk, as
  `chunks_mut(channels)` does. It is also proved to advance the clock to
  `NextClock`. The sine is left abstract: `wave(x)` stands for `sin(2πx)`,
  and a sample is `a * wave(t * f / sampleRate)`.
- `gui.dfy`, module `Gui`: `AudioSettings::update` of `src/gui.rs`, the
  `MUTE` sentinel (-61), and the part of `view` that maps the stored
  optional level back to a slider position and a label. The record
  `{frequency: i16, amplitude: Option<i16>}` is the class `Gui.AudioParams`.
  `Update` and `View` work on it through the handle held by
  `Gui.AudioSettings`. The label's number is Rust's decimal `Display` of
  the level. It is modelled by `DecimalString`, with a parser that reads
  it back.

The two `AudioParams` types are different in the source. The audio one
holds `f32` frequency and amplitude. The GUI one holds a key number and an
optional level in dB. `src/main.rs` does not declare `mod gui`. So they are
two unrelated types here.

## Model

| member | source | states |
|---|---|---|
| `Audio.AudioParams.Default` | src/audio.rs:12-18 | the default parameters are 1000 Hz and amplitude 0.5 |
| `Audio.Sample` | src/audio.rs:46-47 | defines the sample at time `t` as `a * wave(t * f / sampleRate)`, with `wave(x)` standing for `sin(2πx)`; its contract states that amplitude 0 gives 0; `RenderAt` and `FrameTime` state which time each element uses |
| `Audio.Render` | src/audio.rs:45-51 | the filled block has exactly the buffer's length; chunks of `channels` samples, a shorter trailing chunk, consecutive time indices |
| `Audio.RenderAt` | src/audio.rs:45-50 | element `k` holds the sample of frame `k / channels`, at time `clock + k / channels` |
| `Audio.RenderPointwise` | src/audio.rs:45-50 | conversely, a buffer holding its frame's sample at every position is the rendered block, so `Render` is exactly the pointwise rule |
| `Audio.RenderAppendFrame` | src/audio.rs:45-51 | after `i` whole frames, the next chunk of up to `channels` elements all hold the sample at time `clock + i` |
| `Audio.FrameBroadcast` | src/audio.rs:48-50 | all channel samples within one frame are equal |
| `Audio.FrameTime` | src/audio.rs:45-46 | frame `i` starts at element `i * channels` and uses time index `clock + i`: one index per frame, consecutive |
| `Audio.MutedBlockIsSilent` | src/audio.rs:47-50 | with amplitude 0 every sample written is 0 |
| `Audio.TrailingPartialFrame` | src/audio.rs:45-54 | when `len % channels != 0` the trailing partial frame is still written, with frame `len / channels`'s sample; without a wrap the next block starts at that same time index |
| `Audio.NextClock` | src/audio.rs:53-54 | the new clock is below the sample rate, and equals `clock + len / channels` when that does not reach the rate |
| `Audio.ClockTracksFrames` | src/audio.rs:53-54 | over any sequence of blocks the clock is the total of whole frames counted, modulo the sample rate |
| `Audio.WriteFrame` | src/audio.rs:48-50 | the inner loop writes the frame's one sample into each of its slots and nothing else |
| `Audio.BlockFiller.constructor` | src/audio.rs:32-36 | the callback starts with clock 0, below the sample rate, and captures the rate, channel count and parameters |
| `Audio.BlockFiller.Fill` | src/audio.rs:37-55 | reads the parameters once; the buffer becomes `Render` of that snapshot from the old clock; the clock becomes `NextClock`; only the buffer and the clock change; zero channels panics with nothing written |
| `Gui.AmplitudeSetting` | src/gui.rs:42-45 | a slider position is stored as no level exactly when it is `MUTE`, otherwise as that level |
| `Gui.SliderPosition` | src/gui.rs:63-66 | defines the slider position shown for a stored amplitude; its contract states that the slider sits at `MUTE` exactly for `None` or `Some(MUTE)`, and otherwise at the stored level; `SliderRoundTrip` and `SettingRoundTrip` relate it to `AmplitudeSetting` |
| `Gui.SliderRoundTrip` | src/gui.rs:42-68 | the slider shown after writing position `a` is `a`, for every `a` |
| `Gui.SettingRoundTrip` | src/gui.rs:42-45 | writing back the shown position reproduces every stored value except `Some(MUTE)` |
| `Gui.MuteLevelNeverStored` | src/gui.rs:42-45 | no write stores `Some(MUTE)`, the one value that would show as muted without being muted |
| `Gui.Digits` | src/gui.rs:71 | the decimal digits of a number: at least one, all digit characters, a single digit exactly below 10, and a leading `0` only for the number 0 (no leading zeros) |
| `Gui.DecimalString` | src/gui.rs:71 | defines `format!("{d}")`: a minus sign exactly for negative numbers, followed by the digits; `DecimalRoundTrip` states that it reads back as the number |
| `Gui.DigitsRoundTrip` | src/gui.rs:71 | the digits read back as the number |
| `Gui.DecimalRoundTrip` | src/gui.rs:71 | the signed decimal form reads back as the number |
| `Gui.AmplitudeLabel` | src/gui.rs:69-72 | defines the amplitude label: `"MUTE"` for no level, otherwise the level's decimal form followed by `" dBFS"`; `LabelIsMuteIffNone`, `LabelShowsLevel` and `LabelDeterminesAmplitude` state its properties |
| `Gui.LabelIsMuteIffNone` | src/gui.rs:69-72 | the amplitude label is `"MUTE"` exactly when no level is stored |
| `Gui.LabelShowsLevel` | src/gui.rs:69-72 | a level's label ends in `" dBFS"` and the level can be read back from it |
| `Gui.LabelDeterminesAmplitude` | src/gui.rs:69-72 | two stored amplitudes with the same label are equal |
| `Gui.AudioSettings.constructor` | src/gui.rs:26-27 | the application holds the handle on the shared record it was given |
| `Gui.AudioSettings.Update` | src/gui.rs:38-55 | `SetAmplitude` stores `AmplitudeSetting(a)` and keeps the frequency; `SetFrequency` overwrites the frequency and keeps the amplitude; `FontLoaded` changes nothing and panics only on an error |
| `Gui.AudioSettings.View` | src/gui.rs:58-72 | one snapshot of the record gives the amplitude slider position, the amplitude label and the frequency slider position |
| `Gui.SliderShowsWrittenPosition` | src/gui.rs:38-72 | after `update(SetAmplitude(a))`, `view` shows the slider at `a`, labelled `"MUTE"` exactly when `a == MUTE` |
| `Gui.FrequencyLastWriteWins` | src/gui.rs:47-49 | two frequency messages in a row leave only the second; the amplitude is untouched |
| `Gui.AmplitudeLastWriteWins` | src/gui.rs:41-46 | two amplitude messages in a row leave only the second; the frequency is untouched |

## Left out

- Device, host and stream setup, the sample-format assertion, `build_output_stream`, `play` and the error callback (src/audio.rs:24-34, 57-66). These are driver I/O.
- The mutexes. Each lock is modelled as one read or one write of the record's fields. A panic while the lock is held poisons the mutex in the source. That is not modelled: `Update` only reports the panic.
- `sin`, `PI` and `f32` arithmetic. Samples are reals, and `wave` is an abstract function. Phase continuity across the clock's wrap is not claimed.
- Audio.BlockFiller.Fill: the clock is an exact natural number. The source keeps it in an `f32`, which is exact only below 2^24. The clock stays below the sample rate, so it is exact at every real rate.
- Audio.BlockFiller.constructor: it requires a positive sample rate. With a 0 Hz rate, the source's `% sample_rate` on `f32` yields NaN, and a natural-number clock cannot represent that. A device never reports a 0 Hz rate.
- The layout, widgets, fonts, window settings and `start_gui` of src/gui.rs. `title` and the font-loading command in `new` are left out too.
- `key_to_freq`, `db_to_amplitude`, `key_note_name`, `key_note_octave` and `freq_slider_range`. Their definitions are not part of this model. So the frequency label, the Hz text and the linear-amplitude text of `view` are left out.
- The initial contents of the GUI's record. The type that creates them is not part of this model, so `Gui.AudioParams` is built from given values.
- `src/main.rs`: startup, a ten-second sleep and ownership of the stream.
