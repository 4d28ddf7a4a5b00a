/**
 * The native controller of the slow-motion recorder: the record toggle, the search for a
 * 240 frames-per-second camera format, the elapsed-time label driven by a repeating timer,
 * the camera-permission dispatch, the name of the temporary movie file, the handler that
 * runs when a recording finishes, and the speed sheet shown over the player.
 *
 * Platform objects become values: a device's formats are lists of maximum frame rates,
 * whether `lockForConfiguration` succeeds is an oracle indexed by format position, clock
 * readings are whole seconds passed in, and the run loop's scheduled timers are a set of ids.
 */
module CameraController {
  import opened Options
  import opened Decimal
  import opened Playback

  // ---------------------------------------------------------------------------------------
  // Camera permission

  datatype AuthorizationStatus = Authorized | NotDetermined | Denied | Restricted

  datatype PermissionAction = SetUpSession | ShowPermissionAlert

  /**
   * What `checkPermissionsAndSetup` ends up doing; `granted` is the answer of the access
   * request, which is only asked for when the status is not determined yet.
   */
  function PermissionDispatch(status: AuthorizationStatus, granted: bool): (a: PermissionAction)
    ensures a == SetUpSession <==> status == Authorized || (status == NotDetermined && granted)
    ensures a == ShowPermissionAlert <==> status != Authorized && (status != NotDetermined || !granted)
  {
    match status
    case Authorized => SetUpSession
    case NotDetermined => if granted then SetUpSession else ShowPermissionAlert
    case _ => ShowPermissionAlert
  }

  // ---------------------------------------------------------------------------------------
  // Elapsed-time label

  const ResetText: string := "00:00"

  /** The label text for `elapsed` whole seconds: minutes and seconds, each `%02d`. */
  function TimerText(elapsed: nat): (t: string)
    ensures |t| >= 5 && t[|t| - 3] == ':'
    ensures IsDigits(t[..|t| - 3]) && IsDigits(t[|t| - 2..])
    ensures '0' <= t[|t| - 2] <= '5'
    ensures elapsed < 6000 ==> |t| == 5
    ensures |t| > 5 ==> t[0] != '0'
  {
    var mm, ss := Pad2(elapsed / 60), Pad2(elapsed % 60);
    var t := mm + ":" + ss;
    assert t[..|t| - 3] == mm && t[|t| - 2..] == ss;
    SecondsFieldLeadingDigit(elapsed % 60);
    t
  }

  /** A seconds value below 60 prints with a leading digit from 0 to 5. */
  lemma SecondsFieldLeadingDigit(s: nat)
    requires s < 60
    ensures '0' <= Pad2(s)[0] <= '5'
  {
    var p := Pad2(s);
    if s >= 10 {
      assert p == Digits(s / 10) + [DigitChar(s % 10)];
      assert Digits(s / 10) == [DigitChar(s / 10)];
    }
  }

  /**
   * Reference reading of a label: a minutes numeral, a colon, and a two-digit seconds
   * numeral below 60; the result is the number of seconds the label stands for.
   */
  function ParseTimerText(t: string): (seconds: Option<nat>) {
    if |t| >= 5 && t[|t| - 3] == ':' && IsDigits(t[..|t| - 3]) && IsDigits(t[|t| - 2..])
       && ParseDigits(t[|t| - 2..]) < 60
    then Some(60 * ParseDigits(t[..|t| - 3]) + ParseDigits(t[|t| - 2..]))
    else None
  }

  /** Reading a label back gives the elapsed seconds it was made from. */
  lemma TimerTextRoundTrip(elapsed: nat)
    ensures ParseTimerText(TimerText(elapsed)) == Some(elapsed)
  {
    var mm, ss := Pad2(elapsed / 60), Pad2(elapsed % 60);
    var t := TimerText(elapsed);
    assert t == mm + ":" + ss;
    assert t[..|t| - 3] == mm && t[|t| - 2..] == ss;
  }

  /** Different elapsed times never show the same label. */
  lemma TimerTextInjective(a: nat, b: nat)
    ensures TimerText(a) == TimerText(b) ==> a == b
  {
    TimerTextRoundTrip(a);
    TimerTextRoundTrip(b);
  }

  /** The label shown on stop is the label of zero elapsed seconds. */
  lemma ResetTextIsZero()
    ensures TimerText(0) == ResetText
    ensures ParseTimerText(ResetText) == Some(0)
  {
    TimerTextRoundTrip(0);
    assert TimerText(0) == ResetText;
  }

  // ---------------------------------------------------------------------------------------
  // Temporary movie file

  const NamePrefix: string := "swing_"
  const NameSuffix: string := ".mov"

  /** `swing_<whole seconds since 1970>.mov` */
  function TempFileName(epochSeconds: nat): (name: string)
    ensures |name| > |NamePrefix| + |NameSuffix|
    ensures name[..|NamePrefix|] == NamePrefix && name[|name| - |NameSuffix|..] == NameSuffix
    ensures IsDigits(name[|NamePrefix|..|name| - |NameSuffix|])
    ensures |name| > |NamePrefix| + |NameSuffix| + 1 ==> name[|NamePrefix|] != '0'
  {
    NamePrefix + Digits(epochSeconds) + NameSuffix
  }

  /** Reference reading of a temporary file name back to its timestamp. */
  function ParseTempFileName(name: string): (epochSeconds: Option<nat>) {
    var p, q := |NamePrefix|, |NameSuffix|;
    if |name| > p + q && name[..p] == NamePrefix && name[|name| - q..] == NameSuffix && IsDigits(name[p..|name| - q])
    then Some(ParseDigits(name[p..|name| - q]))
    else None
  }

  lemma TempFileNameRoundTrip(epochSeconds: nat)
    ensures ParseTempFileName(TempFileName(epochSeconds)) == Some(epochSeconds)
  {
    var d := Digits(epochSeconds);
    var name := TempFileName(epochSeconds);
    assert name[|NamePrefix|..|name| - |NameSuffix|] == d;
    ParseDigitsOfDigits(epochSeconds);
  }

  /** File names made at different seconds differ. */
  lemma TempFileNameInjective(a: nat, b: nat)
    requires TempFileName(a) == TempFileName(b)
    ensures a == b
  {
    TempFileNameRoundTrip(a);
    TempFileNameRoundTrip(b);
  }

  /** `appendingPathComponent`: the directory, a separator unless it already ends in one, the name. */
  function TempPath(tmpDir: string, epochSeconds: nat): (p: string)
    ensures |p| >= |tmpDir| + |TempFileName(epochSeconds)|
    ensures p[..|tmpDir|] == tmpDir
    ensures p[|p| - |TempFileName(epochSeconds)|..] == TempFileName(epochSeconds)
    ensures |p| == |tmpDir| + |TempFileName(epochSeconds)| + (if |tmpDir| > 0 && tmpDir[|tmpDir| - 1] == '/' then 0 else 1)
    ensures p[|p| - |TempFileName(epochSeconds)| - 1] == '/'
  {
    var name := TempFileName(epochSeconds);
    if |tmpDir| > 0 && tmpDir[|tmpDir| - 1] == '/' then tmpDir + name else tmpDir + "/" + name
  }

  // ---------------------------------------------------------------------------------------
  // High-frame-rate format search

  const HighFrameRate: nat := 240

  /** A capture format, given by the maximum rates of its supported frame-rate ranges. */
  datatype Format = Format(maxFrameRates: seq<nat>)

  /** A frame duration, `CMTime(value:timescale:)`. */
  datatype FrameDuration = FrameDuration(value: int, timescale: int)

  const HighSpeedFrameDuration: FrameDuration := FrameDuration(1, 240)

  /** The part of a device's state the search may change. */
  datatype DeviceConfig = DeviceConfig(format: Format, minFrameDuration: FrameDuration, maxFrameDuration: FrameDuration)

  /** `contains(where:)`: a scan of the rates, front to back, for one at least `bound`. */
  function ContainsAtLeast(rates: seq<nat>, bound: nat): (found: bool)
    ensures found <==> exists k :: 0 <= k < |rates| && rates[k] >= bound
  {
    if rates == [] then false
    else if rates[0] >= bound then true
    else
      var found := ContainsAtLeast(rates[1..], bound);
      assert found <== exists k :: 0 <= k < |rates| && rates[k] >= bound by {
        if k :| 0 <= k < |rates| && rates[k] >= bound {
          assert k > 0 && rates[1..][k - 1] == rates[k];
        }
      }
      found
  }

  /** Some frame-rate range of the format reaches 240 frames per second. */
  function Qualifies(f: Format): (q: bool)
    ensures q <==> exists k :: 0 <= k < |f.maxFrameRates| && f.maxFrameRates[k] >= HighFrameRate
  {
    ContainsAtLeast(f.maxFrameRates, HighFrameRate)
  }

  /** The search commits to format `i`: it qualifies and locking the device for it succeeds. */
  predicate Commits(formats: seq<Format>, lockOk: nat -> bool, i: nat)
    requires i < |formats|
  {
    Qualifies(formats[i]) && lockOk(i)
  }

  /** The first position at or after `from` where the search commits, if any. */
  function FirstLockable(formats: seq<Format>, lockOk: nat -> bool, from: nat): (r: Option<nat>)
    requires from <= |formats|
    decreases |formats| - from
    ensures r.Some? ==> from <= r.value < |formats| && Commits(formats, lockOk, r.value)
    ensures forall j :: from <= j < |formats| && (r.None? || j < r.value) ==> !Commits(formats, lockOk, j)
  {
    if from == |formats| then None
    else if Commits(formats, lockOk, from) then Some(from)
    else FirstLockable(formats, lockOk, from + 1)
  }

  /** The device configuration after the search: the first committed format at 1/240 s, or as before. */
  function HighFrameRateConfig(formats: seq<Format>, lockOk: nat -> bool, current: DeviceConfig): (c: DeviceConfig)
    ensures c == current
      || (c.format in formats && Qualifies(c.format)
          && c.minFrameDuration == HighSpeedFrameDuration && c.maxFrameDuration == HighSpeedFrameDuration)
  {
    match FirstLockable(formats, lockOk, 0)
    case Some(i) => DeviceConfig(formats[i], HighSpeedFrameDuration, HighSpeedFrameDuration)
    case None => current
  }

  /**
   * The search never invents a 240 fps format: either the configuration is left exactly as it
   * was, or its format is one of the device's formats, qualifies, is the first one whose lock
   * succeeded, and both frame durations are 1/240 s.
   */
  lemma HighFrameRateConfigSound(formats: seq<Format>, lockOk: nat -> bool, current: DeviceConfig)
    ensures var c := HighFrameRateConfig(formats, lockOk, current);
      c == current ||
      exists i :: 0 <= i < |formats| && c.format == formats[i] && Commits(formats, lockOk, i)
        && (forall j :: 0 <= j < i ==> !Commits(formats, lockOk, j))
        && c.minFrameDuration == HighSpeedFrameDuration && c.maxFrameDuration == HighSpeedFrameDuration
  {
  }

  /** When no format qualifies, or every lock attempt fails, the configuration is untouched. */
  lemma HighFrameRateConfigNoCommit(formats: seq<Format>, lockOk: nat -> bool, current: DeviceConfig)
    requires forall j :: 0 <= j < |formats| ==> !Commits(formats, lockOk, j)
    ensures HighFrameRateConfig(formats, lockOk, current) == current
  {
  }

  /** When some format commits, the search takes the first such one, whatever the current state. */
  lemma HighFrameRateConfigCommit(formats: seq<Format>, lockOk: nat -> bool, current: DeviceConfig, i: nat)
    requires i < |formats| && Commits(formats, lockOk, i)
    requires forall j :: 0 <= j < i ==> !Commits(formats, lockOk, j)
    ensures HighFrameRateConfig(formats, lockOk, current)
      == DeviceConfig(formats[i], HighSpeedFrameDuration, HighSpeedFrameDuration)
  {
  }

  /** The camera: its formats never change; the active format and frame durations do. */
  class CaptureDevice {
    const formats: seq<Format>
    var activeFormat: Format
    var activeMinFrameDuration: FrameDuration
    var activeMaxFrameDuration: FrameDuration

    function Config(): (c: DeviceConfig)
      reads this
    {
      DeviceConfig(activeFormat, activeMinFrameDuration, activeMaxFrameDuration)
    }

    constructor (formats: seq<Format>, config: DeviceConfig)
      ensures this.formats == formats && Config() == config
    {
      this.formats := formats;
      activeFormat := config.format;
      activeMinFrameDuration := config.minFrameDuration;
      activeMaxFrameDuration := config.maxFrameDuration;
    }

    /**
     * The loop of `startRecording` over the device's formats: for the first qualifying format
     * whose lock succeeds, make it active at 1/240 s per frame and stop looking.
     */
    method LockHighFrameRate(lockOk: nat -> bool)
      modifies this
      ensures Config() == HighFrameRateConfig(formats, lockOk, old(Config()))
    {
      for i := 0 to |formats|
        invariant FirstLockable(formats, lockOk, 0) == FirstLockable(formats, lockOk, i)
        invariant Config() == old(Config())
      {
        if Qualifies(formats[i]) {
          if lockOk(i) {
            activeFormat := formats[i];
            activeMinFrameDuration := HighSpeedFrameDuration;
            activeMaxFrameDuration := HighSpeedFrameDuration;
            break;
          }
        }
      }
    }
  }

  // ---------------------------------------------------------------------------------------
  // Speed sheet over the player

  datatype SpeedSheetAction = ChooseNormal | ChooseEighth | Close

  /** The player speed after a choice on the sheet; closing it keeps the current speed. */
  function ApplySpeedSheet(current: Speed, action: SpeedSheetAction): (s: Speed)
    ensures action == Close ==> s == current
    ensures action == ChooseNormal ==> RateThousandths(s) == 1000
    ensures action == ChooseEighth ==> RateThousandths(s) == 125
  {
    match action
    case ChooseNormal => Normal
    case ChooseEighth => Eighth
    case Close => current
  }

  // ---------------------------------------------------------------------------------------
  // The controller

  class ViewController {
    const device: CaptureDevice
    /** `fpsControl.selectedSegmentIndex`: 0 is "Normal", 1 is "240fps". */
    var fpsSegmentIndex: int
    /** `movieFileOutput.isRecording` */
    var isRecording: bool
    /** The file `movieFileOutput` is writing. */
    var recordingURL: Option<string>
    var currentVideoURL: Option<string>
    var timer: Option<nat>
    var startTime: Option<nat>
    var timerText: string
    /** The ids of the timers the run loop still fires. */
    var liveTimers: set<nat>
    /** The id the next scheduled timer gets; ids are never reused. */
    var nextTimerId: nat

    /** At most one timer is live, and it is the one `timer` holds. */
    ghost predicate Valid()
      reads this
    {
      liveTimers == (if timer.Some? then {timer.value} else {})
      && (timer.Some? ==> timer.value < nextTimerId)
    }

    /** The controller after `viewDidLoad`, before any recording. */
    constructor (device: CaptureDevice)
      ensures Valid() && this.device == device
      ensures fpsSegmentIndex == 0 && !isRecording && recordingURL == None && currentVideoURL == None
      ensures timer == None && startTime == None && timerText == ResetText
    {
      this.device := device;
      fpsSegmentIndex := 0;
      isRecording := false;
      recordingURL := None;
      currentVideoURL := None;
      timer := None;
      startTime := None;
      timerText := ResetText;
      liveTimers := {};
      nextTimerId := 0;
    }

    /** Invalidates the current timer, if any, and schedules a fresh one. */
    method StartTimer()
      requires Valid()
      modifies this`timer, this`liveTimers, this`nextTimerId
      ensures Valid()
      ensures timer == Some(old(nextTimerId)) && liveTimers == {old(nextTimerId)}
      ensures nextTimerId == old(nextTimerId) + 1
      ensures old(timer).Some? ==> old(timer).value !in liveTimers
    {
      liveTimers := {};
      timer := Some(nextTimerId);
      liveTimers := {nextTimerId};
      nextTimerId := nextTimerId + 1;
    }

    /** Invalidates the current timer, forgets it and resets the label. */
    method StopTimer()
      requires Valid()
      modifies this`timer, this`liveTimers, this`timerText
      ensures Valid()
      ensures timer == None && liveTimers == {} && timerText == ResetText
    {
      liveTimers := {};
      timer := None;
      timerText := ResetText;
    }

    /** One firing of timer `id`, `elapsed` whole seconds after `startTime`. */
    method Tick(id: nat, elapsed: nat)
      modifies this`timerText
      ensures timerText == if id in liveTimers && startTime.Some? then TimerText(elapsed) else old(timerText)
    {
      if id in liveTimers && startTime.Some? {
        timerText := TimerText(elapsed);
      }
    }

    /**
     * With "240fps" selected, searches the formats; then starts writing a fresh temporary
     * file named after the clock reading `now`, records `now` as the start time and
     * (re)starts the timer.
     */
    method StartRecording(lockOk: nat -> bool, now: nat, tmpDir: string)
      requires Valid()
      modifies this, device
      ensures Valid()
      ensures fpsSegmentIndex == 1 ==> device.Config() == HighFrameRateConfig(device.formats, lockOk, old(device.Config()))
      ensures fpsSegmentIndex != 1 ==> device.Config() == old(device.Config())
      ensures isRecording && recordingURL == Some(TempPath(tmpDir, now)) && startTime == Some(now)
      ensures timer == Some(old(nextTimerId)) && liveTimers == {old(nextTimerId)}
      ensures nextTimerId == old(nextTimerId) + 1
      ensures timerText == old(timerText) && currentVideoURL == old(currentVideoURL)
      ensures fpsSegmentIndex == old(fpsSegmentIndex)
    {
      if fpsSegmentIndex == 1 {
        device.LockHighFrameRate(lockOk);
      }
      var outputURL := TempPath(tmpDir, now);
      isRecording := true;
      recordingURL := Some(outputURL);
      startTime := Some(now);
      StartTimer();
    }

    /** Stops the output if it is writing, stops the timer and resets the label. */
    method StopRecording()
      requires Valid()
      modifies this
      ensures Valid()
      ensures !isRecording && timer == None && liveTimers == {} && timerText == ResetText
      ensures recordingURL == old(recordingURL) && startTime == old(startTime)
      ensures nextTimerId == old(nextTimerId)
      ensures currentVideoURL == old(currentVideoURL) && fpsSegmentIndex == old(fpsSegmentIndex)
    {
      if isRecording {
        isRecording := false;
      }
      StopTimer();
    }

    /** The record button: stop while recording, start otherwise. */
    method ToggleRecording(lockOk: nat -> bool, now: nat, tmpDir: string)
      requires Valid()
      modifies this, device
      ensures Valid()
      ensures isRecording == !old(isRecording)
      ensures old(isRecording) ==>
        timer == None && liveTimers == {} && timerText == ResetText && device.Config() == old(device.Config())
      ensures !old(isRecording) ==> timer.Some? && recordingURL == Some(TempPath(tmpDir, now)) && startTime == Some(now)
      ensures !old(isRecording) && fpsSegmentIndex == 1 ==>
        device.Config() == HighFrameRateConfig(device.formats, lockOk, old(device.Config()))
      ensures fpsSegmentIndex != 1 ==> device.Config() == old(device.Config())
      ensures old(isRecording) ==>
        recordingURL == old(recordingURL) && startTime == old(startTime) && nextTimerId == old(nextTimerId)
      ensures !old(isRecording) ==>
        timer == Some(old(nextTimerId)) && liveTimers == {old(nextTimerId)} && timerText == old(timerText)
        && nextTimerId == old(nextTimerId) + 1
      ensures currentVideoURL == old(currentVideoURL) && fpsSegmentIndex == old(fpsSegmentIndex)
    {
      if isRecording {
        StopRecording();
      } else {
        StartRecording(lockOk, now, tmpDir);
      }
    }

    /**
     * The output has finished writing `outputFileURL`; the delegate then keeps the file as the
     * current video unless the recording failed.
     */
    method FinishRecording(outputFileURL: string, failed: bool)
      modifies this`isRecording, this`recordingURL, this`currentVideoURL
      ensures !isRecording && recordingURL == None
      ensures currentVideoURL == if failed then old(currentVideoURL) else Some(outputFileURL)
    {
      isRecording := false;
      recordingURL := None;
      if failed {
        return;
      }
      currentVideoURL := Some(outputFileURL);
    }
  }
}
