/**
 * The recording session of the transcribing screen: the two recording
 * modes, the level meter and the MM:SS timer shown while recording, and the
 * invariant that ties the recording flags, the meter and the timer together.
 */
module RecordingSession {
  import opened Wrappers
  import opened Text
  import opened Decimal

  datatype Mode = Press | Hold

  // ----- level meter -----

  /** Number of bars in the level meter. */
  const WindowSize: nat := 20

  /** The height every bar has while nothing is recorded. */
  const IdleLevel: real := 0.1

  function IdleWaveform(): (w: seq<real>)
    ensures |w| == WindowSize
  {
    seq(WindowSize, _ => IdleLevel)
  }

  predicate InUnitRange(x: real) {
    0.0 <= x <= 1.0
  }

  /** Twenty bars, each between 0 and 1. */
  predicate WellShaped(w: seq<real>) {
    |w| == WindowSize && forall i :: 0 <= i < |w| ==> InUnitRange(w[i])
  }

  lemma IdleWaveformWellShaped()
    ensures WellShaped(IdleWaveform())
  {
  }

  /** `Math.min(Math.max((m + 60) / 60, 0), 1)`: a level in dB mapped onto a bar height. */
  function Level(db: real): (r: real)
    ensures InUnitRange(r)
    ensures -60.0 <= db <= 0.0 ==> r == (db + 60.0) / 60.0
    ensures db <= -60.0 ==> r == 0.0
    ensures 0.0 <= db ==> r == 1.0
  {
    var x := (db + 60.0) / 60.0;
    if x < 0.0 then 0.0 else if x > 1.0 then 1.0 else x
  }

  /** A louder input never gives a lower bar. */
  lemma LevelMonotone(a: real, b: real)
    requires a <= b
    ensures Level(a) <= Level(b)
  {
  }

  /** `if (e.metering)`: a metering value that is present and not zero. */
  predicate MeterTruthy(m: Option<real>) {
    m.Some? && m.value != 0.0
  }

  /** The meter after one metering event: drop the oldest bar and append the new level. */
  function Metered(w: seq<real>, m: Option<real>): (r: seq<real>)
    requires |w| > 0
    ensures |r| == |w|
    ensures MeterTruthy(m) ==> r[..|w| - 1] == w[1..] && r[|w| - 1] == Level(m.value)
    ensures !MeterTruthy(m) ==> r == w
  {
    if MeterTruthy(m) then w[1..] + [Level(m.value)] else w
  }

  /** A metering event keeps the meter at twenty bars between 0 and 1. */
  lemma MeteredKeepsShape(w: seq<real>, m: Option<real>)
    requires WellShaped(w)
    ensures WellShaped(Metered(w, m))
  {
    var r := Metered(w, m);
    if MeterTruthy(m) {
      forall i | 0 <= i < |r|
        ensures InUnitRange(r[i])
      {
        if i < |w| - 1 {
          assert r[i] == r[..|w| - 1][i] == w[i + 1];
        }
      }
    }
  }

  /** The meter after a run of metering events, oldest first. */
  function MeteredAll(w: seq<real>, ms: seq<Option<real>>): seq<real>
    requires |w| > 0
    decreases |ms|
  {
    if ms == [] then w else MeteredAll(Metered(w, ms[0]), ms[1..])
  }

  /** The bar heights of a run of metering values. */
  function Levels(ms: seq<Option<real>>): (r: seq<real>)
    requires forall i :: 0 <= i < |ms| ==> ms[i].Some? && ms[i].value != 0.0
    ensures |r| == |ms| && forall i :: 0 <= i < |ms| ==> r[i] == Level(ms[i].value)
  {
    if ms == [] then [] else [Level(ms[0].value)] + Levels(ms[1..])
  }

  /**
   * After a run of non-zero metering values the meter shows the last twenty
   * levels, older bars to the left: the window slides over the appended levels.
   */
  lemma {:induction false} MeteredAllSlides(w: seq<real>, ms: seq<Option<real>>)
    requires |w| > 0
    requires forall i :: 0 <= i < |ms| ==> ms[i].Some? && ms[i].value != 0.0
    ensures MeteredAll(w, ms) == (w + Levels(ms))[|ms|..]
    decreases |ms|
  {
    if ms != [] {
      var a := Level(ms[0].value);
      var w' := Metered(w, ms[0]);
      assert w' == w[1..] + [a];
      MeteredAllSlides(w', ms[1..]);
      assert Levels(ms) == [a] + Levels(ms[1..]);
      ShiftAppend(w, a, Levels(ms[1..]));
      DropAfterShift(w + Levels(ms), |ms|);
    }
  }

  /** Appending behind a window and then dropping its first bar is sliding the window by one. */
  lemma ShiftAppend(w: seq<real>, a: real, rest: seq<real>)
    requires |w| > 0
    ensures (w + ([a] + rest))[1..] == (w[1..] + [a]) + rest
  {
  }

  lemma DropAfterShift(x: seq<real>, k: nat)
    requires 1 <= k <= |x|
    ensures x[1..][k - 1..] == x[k..]
  {
  }

  // ----- timer text -----

  /** `formatDuration`: minutes and seconds, each padded to two digits, around a colon. */
  function FormatDuration(seconds: nat): string {
    PadStart2(NatToString(seconds / 60)) + ":" + PadStart2(NatToString(seconds % 60))
  }

  /** A number below one hundred has at most two digits, and only those. */
  lemma NatToStringShort(n: nat)
    ensures |NatToString(n)| <= 2 <==> n < 100
  {
    if n >= 10 {
      assert NatToString(n) == NatToString(n / 10) + [DigitChar(n % 10)];
      if n >= 100 {
        assert NatToString(n / 10) == NatToString(n / 100) + [DigitChar(n / 10 % 10)];
      }
    }
  }

  /** A number written by `toString` and padded to two digits: digits, at least two, reading back the number. */
  lemma PaddedDigits(n: nat)
    ensures var p := PadStart2(NatToString(n));
      AllDigits(p) && Value(p) == n && 2 <= |p| && (|p| == 2 <==> n < 100)
  {
    NatToStringShort(n);
    PadStart2KeepsValue(NatToString(n));
    ValueOfNatToString(n);
  }

  /** The parts of `mm + ":" + ss` when the seconds part has two characters. */
  lemma SplitAtColon(mm: string, ss: string)
    requires |ss| == 2
    ensures var r := mm + ":" + ss; var k := |r| - 3;
      k == |mm| && r[..k] == mm && r[k] == ':' && r[k + 1..] == ss
  {
  }

  /**
   * The timer text is `mm:ss`: at least two minute digits, a colon, exactly
   * two second digits, which read back as `seconds / 60` and `seconds % 60`.
   * The text is five characters long exactly when `seconds` is under 100
   * minutes.
   */
  lemma FormatDurationShape(seconds: nat)
    ensures var r := FormatDuration(seconds); var k := |r| - 3;
      2 <= k && r[k] == ':' && AllDigits(r[..k]) && AllDigits(r[k + 1..])
      && Value(r[..k]) == seconds / 60 && Value(r[k + 1..]) == seconds % 60
      && (|r| == 5 <==> seconds < 6000)
  {
    var m, q := seconds / 60, seconds % 60;
    MinutesAndSeconds(seconds);
    var mm, ss := PadStart2(NatToString(m)), PadStart2(NatToString(q));
    PaddedDigits(m);
    PaddedDigits(q);
    assert |ss| == 2;
    var r := FormatDuration(seconds);
    assert r == mm + ":" + ss;
    SplitAtColon(mm, ss);
    var k := |r| - 3;
    assert r[..k] == mm && r[k + 1..] == ss;
    assert |r| == |mm| + 3;
  }

  /** Reading the timer text back gives the duration: minutes times sixty plus seconds under sixty. */
  lemma FormatDurationReadsBack(seconds: nat)
    ensures var r := FormatDuration(seconds); var k := |r| - 3;
      2 <= k && AllDigits(r[..k]) && AllDigits(r[k + 1..])
      && Value(r[k + 1..]) < 60 && 60 * Value(r[..k]) + Value(r[k + 1..]) == seconds
  {
    FormatDurationShape(seconds);
    MinutesAndSeconds(seconds);
  }

  lemma MinutesAndSeconds(seconds: nat)
    ensures 60 * (seconds / 60) + seconds % 60 == seconds && seconds % 60 < 60
    ensures seconds < 6000 <==> seconds / 60 < 100
  {
  }

  // ----- the session -----

  /**
   * The recording state of the screen: the two mode flags (the state hooks
   * `isRecordingPress`, `isRecordingHold` and their mirror refs),
   * `isRecordingInProgressRef`, the mode of a start whose `startRecorder` is
   * still awaited, whether the record-back listener and the one-second
   * interval timer are registered, the duration shown and the meter bars.
   */
  datatype Session = Session(
    isRecordingPress: bool, isRecordingHold: bool, inProgress: bool, awaitingStart: Option<Mode>,
    meterListening: bool, timerRunning: bool, duration: nat, waveform: seq<real>)
  {
    predicate Recording() {
      isRecordingPress || isRecordingHold
    }

    /** The flag of `mode` is up. */
    predicate RecordingIn(mode: Mode) {
      if mode == Press then isRecordingPress else isRecordingHold
    }

    /**
     * The flags, the meter and the timer agree: at most one mode records; a
     * recording or an awaited start holds the in-progress flag, and that flag
     * is held by nothing else; the listener and the timer run exactly while a
     * mode records; the meter has twenty bars in range, idle with the timer
     * at 0 when nothing records. `allowed` says whether a start can get past
     * its guards at all (a server URL is set and audio may be recorded).
     */
    predicate Valid(allowed: bool) {
      !(isRecordingPress && isRecordingHold)
      && (Recording() ==> inProgress && awaitingStart.None?)
      && (awaitingStart.Some? ==> inProgress)
      && (inProgress ==> awaitingStart.Some? || Recording())
      && (inProgress ==> allowed)
      && meterListening == Recording() && timerRunning == Recording()
      && WellShaped(waveform)
      && (!Recording() ==> waveform == IdleWaveform() && duration == 0)
    }
  }

  /** The session before any recording and after every cleanup. */
  function Idle(): Session {
    Session(false, false, false, None, false, false, 0, IdleWaveform())
  }

  /** The session right after a start in `mode` succeeded: that flag up, meter and timer fresh. */
  function Fresh(mode: Mode): Session {
    Idle().(isRecordingPress := mode == Press, isRecordingHold := mode == Hold, inProgress := true,
      meterListening := true, timerRunning := true)
  }

  /** The idle session is consistent, whether or not recording is allowed. */
  lemma IdleValid(allowed: bool)
    ensures Idle().Valid(allowed) && !Idle().Recording() && !Idle().inProgress
  {
    IdleWaveformWellShaped();
  }

  /**
   * A fresh session is consistent and records in its mode only, with the
   * meter idle and the timer at 0.
   */
  lemma FreshValid(mode: Mode)
    ensures Fresh(mode).Valid(true)
    ensures Fresh(mode).RecordingIn(mode) && !Fresh(mode).RecordingIn(if mode == Press then Hold else Press)
    ensures Fresh(mode).duration == 0 && Fresh(mode).waveform == IdleWaveform()
  {
    IdleWaveformWellShaped();
  }

  /** A consistent session that neither records nor awaits a start is the idle one. */
  lemma QuietIsIdle(s: Session, allowed: bool)
    requires s.Valid(allowed) && !s.inProgress
    ensures s == Idle()
  {
  }
}
