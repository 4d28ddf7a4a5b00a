# Slow-motion swing recorder: a Dafny model of its recording logic

The app records a golf swing and plays it back at normal speed or at one eighth of it. There
are two front ends. A native iOS controller (`ViewController.swift`) records through
AVFoundation. A browser page (`script.js`) records through `getUserMedia` and `MediaRecorder`.
Almost everything in them is layout, platform setup and presentation. This project models the
small rules inside their event handlers and proves what those rules promise:

- the record toggle in both front ends, with its effects on the timer, the label and the stream;
- the search for a capture format that reaches 240 frames per second;
- the `MM:SS` elapsed-time label and the timers that update it;
- the camera-permission dispatch and the name of the temporary movie file;
- the buffer of recorded chunks and the clip made from it;
- the frame-rate choice, its validation, and the two playback-speed buttons.

Platform objects become values. A capture format is the list of the maximum rates of its
frame-rate ranges. Whether `lockForConfiguration` succeeds for a format is an oracle
`lockOk: nat -> bool`, indexed by the format's position. Clock readings and elapsed times are
whole seconds passed in. The outcome of `getUserMedia` is an `Acquisition` input. Chunk
payloads are byte sequences (`seq<Byte>`). Playback speeds are the enumeration
`Speed = Normal | Eighth`, not floating-point rates.

Files:

- `options.dfy`: `Option`.
- `playback.dfy`: `Speed` and the rate each speed stands for.
- `decimal.dfy`: numerals as `%d` and `%02d` print them, with a reference parser.
- `camera_controller.dfy`: the native controller. `CaptureDevice` is a class whose active format
  and frame durations the search loop updates in place. `ViewController` is a class whose
  fields are the ones the handlers update: `isRecording`, `timer`, `startTime`, the label text
  and `currentVideoURL`.
- `web_recorder.dfy`: the browser page. `RecorderPage` is a class whose fields are `stream`,
  the recorder state, `recordedChunks`, the button label, `fpsSelect.value`, the button
  backgrounds and the video element's state. `MediaStream` holds its tracks' live flags in an
  array, and stopping all tracks is a loop over that array.

Some facts about the code that the model keeps:

- Each front end has just two recording states, recording and not recording. The native one
  reads them from the movie output; the browser one from whether it holds a stream.
- Neither front end ignores a second tap while a start or stop is still pending.
- When no format reaches 240 fps, the native controller records at the current format without
  a message.
- The browser builds a clip from however many chunks arrived, even none.

## Model

| member | source | states |
|---|---|---|
| `Playback.RateThousandths` | script.js:64-76 | The two speeds are the rates 1.0 and 0.125: normal is 1000 thousandths, and one eighth of it is the slow rate |
| `Decimal.Digits` | ViewController.swift:218 | The numeral that string interpolation of an `Int` prints (the same digits `%d` prints for a whole number): digits only, never empty, no leading zero, and one digit exactly for values below ten |
| `Decimal.Pad2` | ViewController.swift:253-254 | `%02d`: digits only, at least two of them, exactly two below 100, no leading zero when longer than two, and the reference parser reads the value back |
| `Decimal.ParseDigitsOfDigits` | ViewController.swift:218 | Parsing the `%d` numeral of n gives n |
| `CameraController.PermissionDispatch` | ViewController.swift:101-114 | Authorized sets up the session. Not determined sets it up if access is granted and shows the alert otherwise. Every other status shows the alert. Both directions are stated |
| `CameraController.TimerText` | ViewController.swift:252-255 | The label is a minutes field of at least two digits, a colon and a two-digit seconds field whose first digit is 0 to 5. It is exactly five characters below 100 minutes, and a longer label has no leading zero |
| `CameraController.TimerTextRoundTrip` | ViewController.swift:252-255 | Reading the label back as minutes*60 + seconds, with seconds below 60, gives the elapsed seconds it was made from |
| `CameraController.TimerTextInjective` | ViewController.swift:252-255 | Different elapsed times give different labels |
| `CameraController.ResetTextIsZero` | ViewController.swift:262 | The "00:00" shown on stop equals the label of zero elapsed seconds, and reads back as zero |
| `CameraController.TempFileName` | ViewController.swift:218 | The temporary file name starts with `swing_` and ends with `.mov`; between them are only digits, printed without leading zeros |
| `CameraController.TempFileNameRoundTrip` | ViewController.swift:217-221 | The timestamp can be read back from the temporary file name |
| `CameraController.TempFileNameInjective` | ViewController.swift:217-221 | Recordings started in different seconds get different file names |
| `CameraController.TempPath` | ViewController.swift:219 | The temporary path starts with the temporary directory and ends with the file name. Between them is exactly one `/`, added only when the directory does not already end in one; the character just before the name is always that `/`, for an empty directory too |
| `CameraController.Qualifies` | ViewController.swift:179-180 | A format qualifies exactly when one of its frame-rate ranges has a maximum rate of at least 240; the scan of `contains(where:)` is proved to decide that |
| `CameraController.FirstLockable` | ViewController.swift:178-192 | The position the search commits to is a format with a range reaching 240 fps whose lock succeeded, and no earlier format qualifies with a successful lock. With no result, no format does |
| `CameraController.HighFrameRateConfig` | ViewController.swift:176-193 | The configuration after the search is either the one before it, or a qualifying format of the device with both frame durations 1/240 s |
| `CameraController.HighFrameRateConfigSound` | ViewController.swift:176-193 | After the search, the device is either exactly as before, or at one of its own formats with a 240 fps range that was the first to lock, with both frame durations 1/240 s |
| `CameraController.HighFrameRateConfigNoCommit` | ViewController.swift:180-192 | If no format qualifies, or every lock attempt fails, the device configuration is unchanged |
| `CameraController.HighFrameRateConfigCommit` | ViewController.swift:178-187 | If format i is the first that qualifies and locks, the device ends at format i with both frame durations 1/240 s, whatever its earlier state |
| `CameraController.CaptureDevice.LockHighFrameRate` | ViewController.swift:177-193 | The `for` loop with `break` leaves the device in the configuration the search specification gives |
| `CameraController.ApplySpeedSheet` | ViewController.swift:292-295 | "1x" sets rate 1.0, "1/8x" sets rate 0.125, and closing the sheet keeps the current rate |
| `CameraController.ViewController.constructor` | ViewController.swift:20-87 | At load the output is not recording, there is no timer, start time or current video, segment 0 is selected and the label reads "00:00" |
| `CameraController.ViewController.StartTimer` | ViewController.swift:248-257 | The previous timer is invalidated before a new one is scheduled, so the only live timer is the new one. Its id is the next unused one, and the id counter moves past it |
| `CameraController.ViewController.StopTimer` | ViewController.swift:259-263 | No timer is live, `timer` is nil and the label reads "00:00" |
| `CameraController.ViewController.Tick` | ViewController.swift:250-256 | A tick of a live timer with a start time shows the label of the elapsed seconds. A tick of an invalidated timer changes nothing |
| `CameraController.ViewController.StartRecording` | ViewController.swift:175-201 | The format search runs only with segment 1 selected; otherwise the device is exactly as before, so an earlier 240 fps setting stays. Recording starts in either case, to the temporary path of `now`, with start time `now` and a fresh timer whose id was never used before |
| `CameraController.ViewController.StopRecording` | ViewController.swift:203-209 | Afterwards the output is not recording, `timer` is nil, no timer is live and the label reads "00:00". The timer-id counter is kept, so a cancelled timer's id is never handed out again |
| `CameraController.ViewController.ToggleRecording` | ViewController.swift:167-173 | The recording flag flips on every toggle. A toggle while recording clears the timer and resets the label, and keeps the output file, the start time, the device and the timer-id counter. A toggle while not recording starts to the temporary path of `now` with a fresh timer, whose id was never used before, as the only live one and the label as it was; the format search runs exactly when segment 1 is selected. The segment selection and `currentVideoURL` never change |
| `CameraController.ViewController.FinishRecording` | ViewController.swift:273-282 | A finished recording with an error leaves `currentVideoURL` unchanged; a successful one sets it to the output file |
| `WebRecorder.IdealFrameRate` | script.js:18 | The request asks for ideal 240 exactly when the selection is "240", and for 30 otherwise |
| `WebRecorder.ValidatedFps` | script.js:79-86 | Validation changes the selection exactly when it is "240" without frameRate support, and then to "30". Without support the result is never "240" |
| `WebRecorder.ValidatedFpsIdempotent` | script.js:79-86 | Validating an already validated selection changes nothing |
| `WebRecorder.ValidatedFpsRequests240Only` | script.js:18 | After validation, 240 is requested exactly when "240" was chosen on a browser that supports the frameRate constraint |
| `WebRecorder.NonEmpty` | script.js:25-27 | The kept chunks are all non-empty and never more than the delivered ones |
| `WebRecorder.NonEmptyAppend` | script.js:25-27 | A delivered chunk is appended at the end of the buffer when it holds data, and leaves the buffer unchanged when it is empty |
| `WebRecorder.Concat` | script.js:30 | The clip is empty exactly when every chunk is empty |
| `WebRecorder.ConcatAppend` | script.js:26-30 | A chunk pushed last ends up last in the clip |
| `WebRecorder.ConcatSize` | script.js:30 | The clip is exactly as long as all chunks together |
| `WebRecorder.ConcatAt` | script.js:30 | Byte k of chunk i is in the clip at the offset of all earlier chunks plus k, so the chunks stay in order |
| `WebRecorder.ConcatNonEmpty` | script.js:25-30 | Dropping zero-size chunks does not change the clip |
| `WebRecorder.Highlight` | script.js:65-76 | The clicked speed's button turns yellow and the other one white, for both buttons and in both directions |
| `WebRecorder.MediaStream.StopAllTracks` | script.js:45 | Every track of the stream is stopped |
| `WebRecorder.RecorderPage.constructor` | script.js:9-11 | The page starts with no stream and an empty buffer, at normal speed, with the start label |
| `WebRecorder.RecorderPage.RecordClick` | script.js:14-49 | Without a stream the click requests the ideal rate of the selection. If that fails, an alert is shown and the stream stays null, so the next click tries again. If it succeeds, a fresh stream with live tracks is shown, the buffer is emptied and the label reads stop. With a stream the click stops the recorder and every track and drops the stream, and the label reads start. The label always matches whether a stream is held |
| `WebRecorder.RecorderPage.DataAvailable` | script.js:25-27 | A chunk is pushed only if its size is above zero, at the end of the buffer |
| `WebRecorder.RecorderPage.RecorderStopped` | script.js:29-36 | The clip is the in-order join of the buffer, typed `video/mp4`, shown with controls at rate 1.0. It holds every byte delivered since the start |
| `WebRecorder.RecorderPage.FileChosen` | script.js:52-62 | A chosen file is shown with controls at rate 1.0; with no file, nothing changes |
| `WebRecorder.RecorderPage.SelectSpeed` | script.js:64-76 | The rate becomes the chosen speed, and that speed's button alone is highlighted |
| `WebRecorder.RecorderPage.FpsChanged` | script.js:79-86 | Choosing "240" without frameRate support shows an alert and resets the selection to "30". Any other choice keeps the value |

## Left out

- Layout and styling, including `setupUI` and `updateRecordingUI` (ViewController.swift:32-99, 211-215): presentation only.
- `setupSession`, its inputs and outputs, and the preview layer (ViewController.swift:127-165): platform configuration. The model assumes the session was set up, so `videoDeviceInput` exists. The crash that the implicitly unwrapped input would cause otherwise is not modelled.
- `showPermissionAlert`, `showSimpleAlert` and the Settings link: presented dialogs. `PermissionDispatch` says which path is taken.
- `saveToPhotos` (ViewController.swift:231-246): a foreign call into the photo library. The finished-recording handler is modelled up to `currentVideoURL`.
- The gallery picker and the players (ViewController.swift:223-229, 285-297, 301-321): presentation. Only the rate choice on the speed sheet is modelled, as `ApplySpeedSheet`.
- `URL.createObjectURL`, `video.play()` and `alert` display in script.js: foreign calls. Object URLs are replaced by the clip or file they point to, and alerts by a list of messages.
- Dispatch queues, the access-request callback and the `await` on `getUserMedia`: concurrency plumbing. Their results are inputs, and events are assumed to run one at a time. In particular, a data event of an old recorder that arrives after a new recording has started is not modelled.
- `startRecording` and `stopRecording` of `AVCaptureMovieFileOutput` are asynchronous. The model sets `isRecording` at once. The output's finish event also clears it, in `FinishRecording`.
- `CameraController.ViewController.Tick`: takes the elapsed whole seconds as an input, instead of computing `Int(Date().timeIntervalSince(startTime))` from fractional dates. A negative elapsed time after a clock change is not modelled.
- `CameraController.Qualifies`: frame rates are whole numbers. The source compares `Float64` maximum rates with 240.
- `CameraController.TempFileName`: takes the seconds since 1970 as a natural number. Dates before 1970 are not modelled.
- Formats are compared as values. The model does not distinguish two identical formats at different positions of the device's list.
- The HTML page (index.html) is not part of this model. The record button's initial label is taken to be the start text. The initial selection is a parameter. The initial button backgrounds are `Unstyled`.
- Errors thrown by `new MediaRecorder(stream)` or `mediaRecorder.start()` are not modelled. Only the rejection of `getUserMedia` is.
