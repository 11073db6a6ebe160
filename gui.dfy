/** Model of the control surface's parameter logic (src/gui.rs): how a slider
    message is written into the shared parameter record, and how the record
    is shown back as a slider position and a text label. */
module Gui {

  /** Rust's `i16`. */
  newtype i16 = x: int | -0x8000 <= x < 0x8000

  datatype Option<T> = None | Some(value: T)

  /** The amplitude slider position that stands for "muted". */
  const MUTE: i16 := -61

  /** The outcome of the font-loading task, as delivered to `update`. */
  datatype FontResult = FontOk | FontError

  datatype AudioMessage =
    | SetFrequency(key: i16)
    | SetAmplitude(db: i16)
    | FontLoaded(result: FontResult)

  /** What `update` does besides changing the record: it returns no command,
      or it panics on `result.unwrap()` for a failed font load. */
  datatype UpdateOutcome = NoCommand | Panic

  // ---------------------------------------------------------------------
  // The amplitude encoding: slider position <-> stored optional level.

  /** The amplitude stored for a slider position: `MUTE` stores "no level". */
  function AmplitudeSetting(a: i16): (o: Option<i16>)
    ensures o == None <==> a == MUTE
    ensures o.Some? ==> o.value == a
  {
    if a == MUTE then None else Some(a)
  }

  /** The slider position shown for a stored amplitude. */
  function SliderPosition(a0: Option<i16>): (p: i16)
    ensures p == MUTE <==> a0 == None || a0 == Some(MUTE)
    ensures a0.Some? ==> p == a0.value
  {
    match a0
    case None => MUTE
    case Some(a) => a
  }

  /** Showing what was written gives back the slider position that wrote it,
      for every position (the slider itself only offers `MUTE ..= 0`). */
  lemma SliderRoundTrip(a: i16)
    ensures SliderPosition(AmplitudeSetting(a)) == a
  {
  }

  /** Writing back the shown position reproduces every stored amplitude that
      a write can produce: all but `Some(MUTE)`. */
  lemma SettingRoundTrip(a0: Option<i16>)
    requires a0 != Some(MUTE)
    ensures AmplitudeSetting(SliderPosition(a0)) == a0
  {
  }

  /** `Some(MUTE)` is the one stored value no write produces; it would be
      shown as muted without being muted. */
  lemma MuteLevelNeverStored(a: i16)
    ensures AmplitudeSetting(a) != Some(MUTE)
    ensures SliderPosition(Some(MUTE)) == SliderPosition(None)
  {
  }

  // ---------------------------------------------------------------------
  // The amplitude label: "MUTE" or the level in dBFS.

  function DigitChar(d: nat): (c: char)
    requires d < 10
    ensures '0' <= c <= '9'
  {
    ('0' as int + d) as char
  }

  function DigitValue(c: char): nat
    requires '0' <= c <= '9'
  {
    c as int - '0' as int
  }

  predicate IsDigits(s: string)
  {
    forall k :: 0 <= k < |s| ==> '0' <= s[k] <= '9'
  }

  /** The decimal digits of `n`, most significant first, no leading zeros. */
  function Digits(n: nat): (s: string)
    ensures |s| >= 1 && IsDigits(s)
    ensures |s| == 1 <==> n < 10
    ensures s[0] == '0' <==> n == 0
    decreases n
  {
    if n < 10 then [DigitChar(n)] else Digits(n / 10) + [DigitChar(n % 10)]
  }

  /** The value of a string of decimal digits. */
  function DigitsValue(s: string): nat
    requires IsDigits(s)
    decreases |s|
  {
    if s == [] then 0 else DigitsValue(s[..|s| - 1]) * 10 + DigitValue(s[|s| - 1])
  }

  /** Rust's `Display` for an integer: an optional minus sign, then the digits. */
  function DecimalString(n: int): (s: string)
    ensures |s| >= 1
    ensures s[0] == '-' <==> n < 0
    ensures n < 0 ==> IsDigits(s[1..])
    ensures n >= 0 ==> IsDigits(s)
  {
    if n < 0 then "-" + Digits(-n) else Digits(n)
  }

  /** Reads back a string produced by `DecimalString`. */
  function ParseDecimal(s: string): Option<int>
  {
    if |s| >= 2 && s[0] == '-' && IsDigits(s[1..]) then Some(0 - DigitsValue(s[1..]))
    else if |s| >= 1 && IsDigits(s) then Some(DigitsValue(s))
    else None
  }

  lemma {:induction false} DigitsRoundTrip(n: nat)
    ensures DigitsValue(Digits(n)) == n
    decreases n
  {
    if n >= 10 {
      DigitsRoundTrip(n / 10);
      var s := Digits(n);
      assert s[..|s| - 1] == Digits(n / 10);
    }
  }

  /** The decimal form of a number reads back as that number. */
  lemma DecimalRoundTrip(n: int)
    ensures ParseDecimal(DecimalString(n)) == Some(n)
  {
    if n < 0 {
      var digits := Digits(-n);
      var s := "-" + digits;
      assert s[1..] == digits;
      DigitsRoundTrip(-n);
      assert ParseDecimal(s) == Some(n);
    } else {
      var s := Digits(n);
      assert s[0] != '-';
      DigitsRoundTrip(n);
      assert ParseDecimal(s) == Some(n);
    }
  }

  /** The text shown under the amplitude slider. */
  function AmplitudeLabel(a0: Option<i16>): (s: string)
    ensures a0 == None ==> s == "MUTE"
    ensures a0.Some? ==> |s| > 5 && s[|s| - 5..] == " dBFS" && s[..|s| - 5] == DecimalString(a0.value as int)
  {
    match a0
    case None => "MUTE"
    case Some(d) => DecimalString(d as int) + " dBFS"
  }

  /** The label reads "MUTE" exactly when no level is stored. */
  lemma LabelIsMuteIffNone(a0: Option<i16>)
    ensures AmplitudeLabel(a0) == "MUTE" <==> a0 == None
  {
  }

  /** A level's label is its value in decimal followed by " dBFS", and the
      value can be read back from it. */
  lemma LabelShowsLevel(d: i16)
    ensures var shown := AmplitudeLabel(Some(d));
            |shown| > 5 && shown[|shown| - 5..] == " dBFS"
            && ParseDecimal(shown[..|shown| - 5]) == Some(d as int)
  {
    var shown := AmplitudeLabel(Some(d));
    assert shown[..|shown| - 5] == DecimalString(d as int);
    DecimalRoundTrip(d as int);
  }

  /** Distinct stored amplitudes have distinct labels. */
  lemma LabelDeterminesAmplitude(a0: Option<i16>, b0: Option<i16>)
    requires AmplitudeLabel(a0) == AmplitudeLabel(b0)
    ensures a0 == b0
  {
    if a0.Some? && b0.Some? {
      LabelShowsLevel(a0.value);
      LabelShowsLevel(b0.value);
    }
  }

  // ---------------------------------------------------------------------
  // The shared record and the application that writes and shows it.

  /** The parameter record as the control surface sees it: a key number and
      an optional level in dBFS (absent means muted). */
  class AudioParams {
    var frequency: i16
    var amplitude: Option<i16>

    constructor (frequency: i16, amplitude: Option<i16>)
      ensures this.frequency == frequency && this.amplitude == amplitude
    {
      this.frequency := frequency;
      this.amplitude := amplitude;
    }
  }

  /** What `view` puts on the screen for the amplitude and the key. */
  datatype Display = Display(amplitudeSlider: i16, amplitudeLabel: string, frequencySlider: i16)

  /** The application state: a handle on the shared record. */
  class AudioSettings {
    const params: AudioParams

    constructor (params: AudioParams)
      ensures this.params == params
    {
      this.params := params;
    }

    /** Applies one message to the record under the lock: the amplitude and
        the frequency messages overwrite their own field only; a successful
        font load changes nothing, a failed one panics. */
    method Update(message: AudioMessage) returns (outcome: UpdateOutcome)
      modifies params
      ensures message.SetAmplitude? ==>
                params.amplitude == AmplitudeSetting(message.db)
                && params.frequency == old(params.frequency)
      ensures message.SetFrequency? ==>
                params.frequency == message.key
                && params.amplitude == old(params.amplitude)
      ensures message.FontLoaded? ==>
                params.frequency == old(params.frequency)
                && params.amplitude == old(params.amplitude)
      ensures outcome == Panic <==> message == FontLoaded(FontError)
    {
      outcome := NoCommand;
      match message
      case SetAmplitude(a) =>
        params.amplitude := AmplitudeSetting(a);
      case SetFrequency(f) =>
        params.frequency := f;
      case FontLoaded(result) =>
        if result == FontError {
          outcome := Panic;
        }
    }

    /** Takes one snapshot of the record and derives everything shown from it. */
    method View() returns (d: Display)
      ensures d.amplitudeSlider == SliderPosition(params.amplitude)
      ensures d.amplitudeLabel == AmplitudeLabel(params.amplitude)
      ensures d.frequencySlider == params.frequency
    {
      var a0 := params.amplitude;
      var f := params.frequency;
      d := Display(SliderPosition(a0), AmplitudeLabel(a0), f);
    }
  }

  // ---------------------------------------------------------------------
  // Clients: what a sequence of messages leaves behind.

  /** Moving the amplitude slider to `a` and redrawing shows the slider at `a`. */
  method SliderShowsWrittenPosition(settings: AudioSettings, a: i16) returns (d: Display)
    modifies settings.params
    ensures d.amplitudeSlider == a
    ensures d.amplitudeLabel == "MUTE" <==> a == MUTE
  {
    var _ := settings.Update(SetAmplitude(a));
    d := settings.View();
    SliderRoundTrip(a);
    LabelIsMuteIffNone(settings.params.amplitude);
  }

  /** Two frequency messages in a row: only the second one is kept. */
  method FrequencyLastWriteWins(settings: AudioSettings, f1: i16, f2: i16)
    modifies settings.params
    ensures settings.params.frequency == f2
    ensures settings.params.amplitude == old(settings.params.amplitude)
  {
    var _ := settings.Update(SetFrequency(f1));
    var _ := settings.Update(SetFrequency(f2));
  }

  /** Two amplitude messages in a row: only the second one is kept. */
  method AmplitudeLastWriteWins(settings: AudioSettings, a1: i16, a2: i16)
    modifies settings.params
    ensures settings.params.amplitude == AmplitudeSetting(a2)
    ensures settings.params.frequency == old(settings.params.frequency)
  {
    var _ := settings.Update(SetAmplitude(a1));
    var _ := settings.Update(SetAmplitude(a2));
  }
}
