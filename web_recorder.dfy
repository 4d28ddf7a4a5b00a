/**
 * The browser version of the recorder: one page whose record button acquires a camera
 * stream and starts a media recorder, or stops both; a buffer of recorded chunks that the
 * recorder fills and that becomes the clip when it stops; a file picker; the two playback
 * speed buttons; and the check of the frame-rate choice.
 *
 * The result of `getUserMedia`, the size of each data chunk and whether the browser knows
 * the frameRate constraint are inputs. Event handlers become methods of the page.
 */
module WebRecorder {
  import opened Options
  import opened Playback

  type Byte = b: int | 0 <= b < 256

  /** A chunk of recorded media; its size is its length. */
  type Blob = seq<Byte>

  const StartLabel: string := "녹화 시작"
  const StopLabel: string := "녹화 중지"
  const ClipType: string := "video/mp4"
  const HighFps: string := "240"
  const StandardFps: string := "30"
  const AccessFailedPrefix: string := "카메라 접근 실패: "
  const Unsupported240Message: string := "이 브라우저/디바이스는 240fps를 지원하지 않습니다."

  // ---------------------------------------------------------------------------------------
  // Frame rate

  /** The ideal frame rate asked of `getUserMedia` for the current selection. */
  function IdealFrameRate(fpsValue: string): (rate: nat)
    ensures rate == 240 <==> fpsValue == HighFps
    ensures rate != 240 ==> rate == 30
  {
    if fpsValue == HighFps then 240 else 30
  }

  /** The selection after its change handler: "240" falls back to "30" without frameRate support. */
  function ValidatedFps(value: string, frameRateSupported: bool): (r: string)
    ensures r != value <==> value == HighFps && !frameRateSupported
    ensures r != value ==> r == StandardFps
    ensures !frameRateSupported ==> r != HighFps
  {
    if value == HighFps && !frameRateSupported then StandardFps else value
  }

  /** Validating a selection that was already validated changes nothing. */
  lemma ValidatedFpsIdempotent(value: string, frameRateSupported: bool)
    ensures ValidatedFps(ValidatedFps(value, frameRateSupported), frameRateSupported)
      == ValidatedFps(value, frameRateSupported)
  {
  }

  /** After validation, 240 is requested only from a browser that supports the constraint. */
  lemma ValidatedFpsRequests240Only(value: string, frameRateSupported: bool)
    ensures IdealFrameRate(ValidatedFps(value, frameRateSupported)) == 240
      <==> value == HighFps && frameRateSupported
  {
  }

  // ---------------------------------------------------------------------------------------
  // Chunks and the clip

  /** The chunks that a recorder's data events push: the non-empty ones, in arrival order. */
  function NonEmpty(chunks: seq<Blob>): (kept: seq<Blob>)
    ensures |kept| <= |chunks|
    ensures forall i :: 0 <= i < |kept| ==> |kept[i]| > 0
  {
    if chunks == [] then []
    else if |chunks[0]| > 0 then [chunks[0]] + NonEmpty(chunks[1..])
    else NonEmpty(chunks[1..])
  }

  /** `new Blob(chunks)`: the chunks' bytes one after another. */
  function Concat(chunks: seq<Blob>): (clip: Blob)
    ensures clip == [] <==> forall i :: 0 <= i < |chunks| ==> chunks[i] == []
  {
    if chunks == [] then []
    else
      var rest := Concat(chunks[1..]);
      assert (forall i :: 0 <= i < |chunks| ==> chunks[i] == [])
        <==> chunks[0] == [] && forall i :: 0 <= i < |chunks| - 1 ==> chunks[1..][i] == [];
      chunks[0] + rest
  }

  /** The total number of bytes in the chunks. */
  function TotalSize(chunks: seq<Blob>): (size: nat) {
    if chunks == [] then 0 else |chunks[0]| + TotalSize(chunks[1..])
  }

  /** A chunk pushed last ends up last in the clip. */
  lemma {:induction false} ConcatAppend(chunks: seq<Blob>, c: Blob)
    ensures Concat(chunks + [c]) == Concat(chunks) + c
  {
    if chunks != [] {
      assert (chunks + [c])[1..] == chunks[1..] + [c];
      ConcatAppend(chunks[1..], c);
    }
  }

  /** The clip holds exactly the bytes of the chunks. */
  lemma {:induction false} ConcatSize(chunks: seq<Blob>)
    ensures |Concat(chunks)| == TotalSize(chunks)
  {
    if chunks != [] {
      ConcatSize(chunks[1..]);
    }
  }

  /** Byte `k` of chunk `i` sits in the clip after all bytes of the chunks before it. */
  lemma {:induction false} ConcatAt(chunks: seq<Blob>, i: nat, k: nat)
    requires i < |chunks| && k < |chunks[i]|
    ensures TotalSize(chunks[..i]) + k < |Concat(chunks)|
    ensures Concat(chunks)[TotalSize(chunks[..i]) + k] == chunks[i][k]
  {
    ConcatSize(chunks);
    if i == 0 {
      assert chunks[..0] == [];
    } else {
      assert chunks[1..][..i - 1] == chunks[..i][1..];
      ConcatAt(chunks[1..], i - 1, k);
      ConcatSize(chunks[1..]);
    }
  }

  /** A data event appends its chunk to the kept ones exactly when the chunk is not empty. */
  lemma {:induction false} NonEmptyAppend(chunks: seq<Blob>, c: Blob)
    ensures NonEmpty(chunks + [c]) == if |c| > 0 then NonEmpty(chunks) + [c] else NonEmpty(chunks)
  {
    if chunks != [] {
      assert (chunks + [c])[1..] == chunks[1..] + [c];
      NonEmptyAppend(chunks[1..], c);
    }
  }

  /** Dropping empty chunks does not change the clip. */
  lemma {:induction false} ConcatNonEmpty(chunks: seq<Blob>)
    ensures Concat(NonEmpty(chunks)) == Concat(chunks)
  {
    if chunks != [] {
      ConcatNonEmpty(chunks[1..]);
    }
  }

  // ---------------------------------------------------------------------------------------
  // Speed buttons

  datatype Background = Unstyled | Yellow | White

  datatype Highlighting = Highlighting(normal: Background, slow: Background)

  /** The button backgrounds after a speed button is clicked. */
  function Highlight(selected: Speed): (h: Highlighting)
    ensures h.normal == Yellow <==> selected == Normal
    ensures h.slow == Yellow <==> selected == Eighth
    ensures h.normal == White <==> selected == Eighth
    ensures h.slow == White <==> selected == Normal
  {
    match selected
    case Normal => Highlighting(Yellow, White)
    case Eighth => Highlighting(White, Yellow)
  }

  // ---------------------------------------------------------------------------------------
  // The page

  /** What `getUserMedia` resolves to: a stream with some tracks, or a rejection. */
  datatype Acquisition = Acquired(trackCount: nat) | Rejected(message: string)

  /** What the video element shows. */
  datatype VideoSource = NoSource | LiveStream | RecordedClip(payload: Blob, mimeType: string) | PickedFile(file: string)

  /** A camera stream; each track is live until stopped. */
  class MediaStream {
    const tracks: array<bool>

    constructor (trackCount: nat)
      ensures fresh(tracks) && tracks.Length == trackCount
      ensures forall i :: 0 <= i < trackCount ==> tracks[i]
    {
      tracks := new bool[trackCount](_ => true);
    }

    /** `getTracks().forEach(track => track.stop())` */
    method StopAllTracks()
      modifies tracks
      ensures forall i :: 0 <= i < tracks.Length ==> !tracks[i]
    {
      for i := 0 to tracks.Length
        invariant forall k :: 0 <= k < i ==> !tracks[k]
      {
        tracks[i] := false;
      }
    }
  }

  class RecorderPage {
    var stream: MediaStream?
    /** Whether `mediaRecorder` is recording. */
    var recorderActive: bool
    var recordedChunks: seq<Blob>
    /** Every chunk delivered since the last start, empty ones included. */
    ghost var arrived: seq<Blob>
    var recordLabel: string
    /** `fpsSelect.value` */
    var fpsValue: string
    var playbackRate: Speed
    var normalBackground: Background
    var slowBackground: Background
    var source: VideoSource
    var controls: bool
    /** The messages shown with `alert`, oldest first. */
    var alerts: seq<string>

    /**
     * The record button reads "stop" exactly while a stream is held, the recorder runs
     * exactly then, and the buffer holds the non-empty delivered chunks in order.
     */
    ghost predicate Valid()
      reads this
    {
      recordLabel == (if stream == null then StartLabel else StopLabel)
      && recorderActive == (stream != null)
      && recordedChunks == NonEmpty(arrived)
    }

    ghost function TrackFrame(): set<object>
      reads this
    {
      if stream == null then {} else {stream.tracks}
    }

    constructor (initialFps: string)
      ensures Valid()
      ensures stream == null && recordedChunks == [] && fpsValue == initialFps && playbackRate == Normal
      ensures normalBackground == Unstyled && slowBackground == Unstyled
      ensures source == NoSource && !controls && alerts == []
    {
      stream := null;
      recorderActive := false;
      recordedChunks := [];
      arrived := [];
      recordLabel := StartLabel;
      fpsValue := initialFps;
      playbackRate := Normal;
      normalBackground, slowBackground := Unstyled, Unstyled;
      source := NoSource;
      controls := false;
      alerts := [];
    }

    /**
     * A click on the record button. Without a stream it asks for one at the ideal rate of
     * the selection (returned as `requested`) and, given one, starts a new recording into an
     * empty buffer; with a stream it stops the recorder and every track and drops the stream.
     */
    method RecordClick(acquisition: Acquisition) returns (requested: Option<nat>)
      requires Valid()
      modifies this, TrackFrame()
      ensures Valid()
      ensures old(stream) == null ==> requested == Some(IdealFrameRate(old(fpsValue)))
      ensures old(stream) == null && acquisition.Rejected? ==>
        stream == null && recordedChunks == old(recordedChunks) && arrived == old(arrived)
        && source == old(source) && alerts == old(alerts) + [AccessFailedPrefix + acquisition.message]
      ensures old(stream) == null && acquisition.Acquired? ==>
        stream != null && fresh(stream.tracks) && stream.tracks.Length == acquisition.trackCount
        && (forall i :: 0 <= i < stream.tracks.Length ==> stream.tracks[i])
        && recordedChunks == [] && arrived == [] && source == LiveStream && alerts == old(alerts)
      ensures old(stream) != null ==>
        requested == None && stream == null
        && (forall i :: 0 <= i < old(stream).tracks.Length ==> !old(stream).tracks[i])
        && recordedChunks == old(recordedChunks) && arrived == old(arrived)
        && source == old(source) && alerts == old(alerts)
      ensures fpsValue == old(fpsValue) && playbackRate == old(playbackRate) && controls == old(controls)
      ensures normalBackground == old(normalBackground) && slowBackground == old(slowBackground)
    {
      if stream == null {
        requested := Some(IdealFrameRate(fpsValue));
        match acquisition
        case Rejected(message) =>
          alerts := alerts + [AccessFailedPrefix + message];
        case Acquired(trackCount) =>
          stream := new MediaStream(trackCount);
          source := LiveStream;
          recorderActive := true;
          recordedChunks := [];
          arrived := [];
          recordLabel := StopLabel;
      } else {
        requested := None;
        recorderActive := false;
        stream.StopAllTracks();
        stream := null;
        recordLabel := StartLabel;
      }
    }

    /** `ondataavailable`: keeps the chunk only if it holds data. */
    method DataAvailable(data: Blob)
      requires Valid()
      modifies this`recordedChunks, this`arrived
      ensures Valid()
      ensures recordedChunks == if |data| > 0 then old(recordedChunks) + [data] else old(recordedChunks)
      ensures arrived == old(arrived) + [data]
    {
      NonEmptyAppend(arrived, data);
      if |data| > 0 {
        recordedChunks := recordedChunks + [data];
      }
      arrived := arrived + [data];
    }

    /**
     * `onstop`: the clip is the chunks joined in order, typed video/mp4, shown with controls
     * at normal speed; it holds every byte delivered since the start.
     */
    method RecorderStopped()
      requires Valid()
      modifies this`source, this`controls, this`playbackRate
      ensures source == RecordedClip(Concat(recordedChunks), ClipType)
      ensures source.payload == Concat(arrived)
      ensures controls && playbackRate == Normal
    {
      ConcatNonEmpty(arrived);
      source := RecordedClip(Concat(recordedChunks), ClipType);
      controls := true;
      playbackRate := Normal;
    }

    /** The file input's change handler; `file` is the first chosen file, if any. */
    method FileChosen(file: Option<string>)
      modifies this`source, this`controls, this`playbackRate
      ensures file.None? ==> source == old(source) && controls == old(controls) && playbackRate == old(playbackRate)
      ensures file.Some? ==> source == PickedFile(file.value) && controls && playbackRate == Normal
    {
      if file.Some? {
        source := PickedFile(file.value);
        controls := true;
        playbackRate := Normal;
      }
    }

    /** A click on one of the two speed buttons. */
    method SelectSpeed(speed: Speed)
      modifies this`playbackRate, this`normalBackground, this`slowBackground
      ensures playbackRate == speed
      ensures Highlighting(normalBackground, slowBackground) == Highlight(speed)
    {
      playbackRate := speed;
      var h := Highlight(speed);
      normalBackground, slowBackground := h.normal, h.slow;
    }

    /** The selection changed to `value`; "240" is refused when frameRate is unsupported. */
    method FpsChanged(value: string, frameRateSupported: bool)
      modifies this`fpsValue, this`alerts
      ensures fpsValue == ValidatedFps(value, frameRateSupported)
      ensures alerts == if fpsValue != value then old(alerts) + [Unsupported240Message] else old(alerts)
    {
      fpsValue := value;
      if value == HighFps {
        if !frameRateSupported {
          alerts := alerts + [Unsupported240Message];
          fpsValue := StandardFps;
        }
      }
    }
  }
}
