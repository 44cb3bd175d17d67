/**
 * The voice recorder widget as a state machine.  Each handler takes the
 * widget's state (its React state and its refs together) and returns the next
 * state with the browser calls it made, in order.  The microphone, the
 * recorder, the interval timer and object URLs are opaque handles; fresh ones
 * are parameters of the handler that obtains them.
 */
module VoiceRecorder {
  import opened Base
  import opened Types
  import opened JsStrings

  const RecordingMime := "audio/webm"
  const MicrophoneError := "Unable to access microphone. Please check your permissions."

  /** State and refs: `isRecording`, `isPlaying`, `recordingTime`, `audioUrl`, and the recorder, timer, chunk and stream refs. */
  datatype Recorder = Recorder(
    isRecording: bool,
    isPlaying: bool,
    recordingTime: nat,
    audioUrl: Option<Handle>,
    mediaRecorder: Option<Handle>,
    timer: Option<Handle>,
    chunks: seq<Blob>,
    stream: Option<Handle>)

  /** The widget as first mounted. */
  const Initial := Recorder(false, false, 0, None, None, None, [], None)

  /** A call the widget makes into the browser or to its parent. */
  datatype Effect =
    | StopTracks(stream: Handle)
    | StartRecorder(recorder: Handle)
    | StopRecorder(recorder: Handle)
    | StartTimer(timer: Handle)
    | ClearTimer(timer: Handle)
    | CreateUrl(url: Handle, blob: Blob)
    | RevokeUrl(url: Handle)
    | RecordingComplete(blob: Blob)
    | RecordingDeleted
    | PlayAudio
    | PauseAudio
    | Alert(message: string)

  /** The state after a handler and the calls it made. */
  datatype Step = Step(next: Recorder, effects: seq<Effect>)

  /** How `getUserMedia` and `new MediaRecorder` turned out. */
  datatype MicAnswer = MicDenied | RecorderRejected(stream: Handle) | Started(stream: Handle)

  /**
   * The widget's own consistency: the timer handle is held exactly while recording, a
   * recording has a recorder, and playback needs a URL.
   */
  predicate Consistent(s: Recorder) {
    && (s.isRecording <==> s.timer.Some?)
    && (s.isRecording ==> s.mediaRecorder.Some?)
    && (s.isPlaying ==> s.audioUrl.Some?)
  }

  // ---------------------------------------------------------------------------
  // Releasing resources
  // ---------------------------------------------------------------------------

  /** Stops the held stream's tracks, if a stream is held, and forgets it. */
  function ReleaseStream(s: Recorder): (st: Step)
    ensures st.next.stream.None?
    ensures st.next.(stream := s.stream) == s
    ensures |st.effects| <= 1
    ensures forall h: Handle :: StopTracks(h) in st.effects <==> s.stream == Some(h)
  {
    if s.stream.Some? then Step(s.(stream := None), [StopTracks(s.stream.value)]) else Step(s, [])
  }

  /** Releasing twice stops the tracks once. */
  lemma ReleaseStreamIdempotent(s: Recorder)
    ensures ReleaseStream(ReleaseStream(s).next) == Step(ReleaseStream(s).next, [])
  {
  }

  /** The `useEffect` cleanup: clear the timer ref, revoke the URL it captured, stop the stream ref's tracks. */
  function CleanupEffects(captured: Option<Handle>, s: Recorder): (es: seq<Effect>)
    ensures forall t: Handle :: ClearTimer(t) in es <==> s.timer == Some(t)
    ensures forall u: Handle :: RevokeUrl(u) in es <==> captured == Some(u)
    ensures forall h: Handle :: StopTracks(h) in es <==> s.stream == Some(h)
    ensures forall i :: 0 <= i < |es| ==> es[i].ClearTimer? || es[i].RevokeUrl? || es[i].StopTracks?
    ensures |es| <= 3
  {
    (if s.timer.Some? then [ClearTimer(s.timer.value)] else [])
    + (if captured.Some? then [RevokeUrl(captured.value)] else [])
    + (if s.stream.Some? then [StopTracks(s.stream.value)] else [])
  }

  /**
   * The effect depends on `audioUrl`: when a handler changes it, React runs
   * the previous effect's cleanup with the URL that effect captured, against
   * the refs as they now are.
   */
  function AfterUrlChange(before: Recorder, after: Recorder): (es: seq<Effect>)
    ensures before.audioUrl == after.audioUrl ==> es == []
    ensures forall u: Handle :: RevokeUrl(u) in es <==> before.audioUrl == Some(u) && after.audioUrl != Some(u)
    ensures forall t: Handle :: ClearTimer(t) in es <==> before.audioUrl != after.audioUrl && after.timer == Some(t)
    ensures forall h: Handle :: StopTracks(h) in es <==> before.audioUrl != after.audioUrl && after.stream == Some(h)
    ensures forall i :: 0 <= i < |es| ==> es[i].ClearTimer? || es[i].RevokeUrl? || es[i].StopTracks?
  {
    if before.audioUrl != after.audioUrl then CleanupEffects(before.audioUrl, after) else []
  }

  // ---------------------------------------------------------------------------
  // Handlers
  // ---------------------------------------------------------------------------

  /**
   * `startRecording`: with the microphone granted and a recorder created,
   * clear the chunks, start the recorder, reset the clock and start the
   * timer; a failure alerts.  A stream obtained before the recorder failed
   * stays held.
   */
  function Start(s: Recorder, answer: MicAnswer, recorder: Handle, timer: Handle): (st: Step)
    ensures answer.MicDenied? ==> st == Step(s, [Alert(MicrophoneError)])
    ensures answer.RecorderRejected? ==>
              st.next == s.(stream := Some(answer.stream)) && st.effects == [Alert(MicrophoneError)]
    ensures answer.Started? ==>
              && st.next.isRecording && st.next.recordingTime == 0 && st.next.chunks == []
              && st.next.mediaRecorder == Some(recorder) && st.next.timer == Some(timer)
              && st.next.stream == Some(answer.stream)
              && st.next.audioUrl == s.audioUrl && st.next.isPlaying == s.isPlaying
              && st.effects == [StartRecorder(recorder), StartTimer(timer)]
  {
    match answer
    case MicDenied => Step(s, [Alert(MicrophoneError)])
    case RecorderRejected(stream) => Step(s.(stream := Some(stream)), [Alert(MicrophoneError)])
    case Started(stream) =>
      Step(s.(stream := Some(stream), mediaRecorder := Some(recorder), chunks := [], isRecording := true,
              recordingTime := 0, timer := Some(timer)),
           [StartRecorder(recorder), StartTimer(timer)])
  }

  /** `ondataavailable`: a chunk is kept only when it holds data. */
  function DataAvailable(s: Recorder, blob: Blob): (st: Step)
    ensures st.effects == []
    ensures |blob.data| > 0 ==> st.next.chunks == s.chunks + [blob]
    ensures |blob.data| == 0 ==> st.next.chunks == s.chunks
    ensures st.next.(chunks := s.chunks) == s
  {
    Step(if |blob.data| > 0 then s.(chunks := s.chunks + [blob]) else s, [])
  }

  /**
   * `stopRecording`: only with a recorder and while recording; stops the
   * recorder, clears and forgets the timer, releases the stream.
   */
  function Stop(s: Recorder): (st: Step)
    ensures !(s.mediaRecorder.Some? && s.isRecording) ==> st == Step(s, [])
    ensures s.mediaRecorder.Some? && s.isRecording ==>
              && !st.next.isRecording && st.next.timer.None? && st.next.stream.None?
              && st.next.(isRecording := s.isRecording, timer := s.timer, stream := s.stream) == s
              && |st.effects| == 1 + (if s.timer.Some? then 1 else 0) + (if s.stream.Some? then 1 else 0)
              && st.effects[0] == StopRecorder(s.mediaRecorder.value)
              && (forall t: Handle :: ClearTimer(t) in st.effects <==> s.timer == Some(t))
              && (forall h: Handle :: StopTracks(h) in st.effects <==> s.stream == Some(h))
  {
    if s.mediaRecorder.Some? && s.isRecording then
      var timerEffects := if s.timer.Some? then [ClearTimer(s.timer.value)] else [];
      var released := ReleaseStream(s.(isRecording := false, timer := None));
      Step(released.next, [StopRecorder(s.mediaRecorder.value)] + timerEffects + released.effects)
    else Step(s, [])
  }

  /** The bytes of the parts a `Blob` is built from, in order. */
  function Bytes(parts: seq<Blob>): seq<byte>
    decreases |parts|
  {
    if |parts| == 0 then [] else Bytes(parts[..|parts| - 1]) + parts[|parts| - 1].data
  }

  /**
   * `onstop`: one `audio/webm` blob of all kept chunks, a URL for it, the
   * parent told, the stream released; replacing the URL runs the effect
   * cleanup, which revokes the previous one.
   */
  function OnStop(s: Recorder, url: Handle): (st: Step)
    ensures st.next.audioUrl == Some(url) && st.next.stream.None?
    ensures st.next.(audioUrl := s.audioUrl, stream := s.stream) == s
    ensures |st.effects| >= 2
    ensures st.effects[0] == CreateUrl(url, Blob(Bytes(s.chunks), RecordingMime))
    ensures st.effects[1] == RecordingComplete(Blob(Bytes(s.chunks), RecordingMime))
    ensures forall i :: 2 <= i < |st.effects| ==>
              st.effects[i].StopTracks? || st.effects[i].ClearTimer? || st.effects[i].RevokeUrl?
    ensures forall h: Handle :: StopTracks(h) in st.effects <==> s.stream == Some(h)
    ensures forall u: Handle :: RevokeUrl(u) in st.effects <==> s.audioUrl == Some(u) && u != url
    ensures forall t: Handle :: ClearTimer(t) in st.effects <==> s.audioUrl != Some(url) && s.timer == Some(t)
  {
    var blob := Blob(Bytes(s.chunks), RecordingMime);
    var released := ReleaseStream(s.(audioUrl := Some(url)));
    Step(released.next,
         [CreateUrl(url, blob), RecordingComplete(blob)] + released.effects + AfterUrlChange(s, released.next))
  }

  /** One interval tick: the clock advances while the timer runs. */
  function Tick(s: Recorder): (st: Step)
    ensures st.effects == []
    ensures s.timer.Some? ==> st.next.recordingTime == s.recordingTime + 1
    ensures st.next.(recordingTime := s.recordingTime) == s
    ensures s.timer.None? ==> st.next == s
  {
    Step(if s.timer.Some? then s.(recordingTime := s.recordingTime + 1) else s, [])
  }

  /** `playRecording`: only with a URL (the audio element exists exactly then). */
  function Play(s: Recorder): (st: Step)
    ensures st.next.(isPlaying := s.isPlaying) == s
    ensures st.next.isPlaying <==> s.isPlaying || s.audioUrl.Some?
    ensures PlayAudio in st.effects <==> s.audioUrl.Some?
    ensures |st.effects| <= 1 && forall e :: e in st.effects ==> e == PlayAudio
  {
    if s.audioUrl.Some? then Step(s.(isPlaying := true), [PlayAudio]) else Step(s, [])
  }

  /** `pauseRecording`: only while the audio element exists. */
  function Pause(s: Recorder): (st: Step)
    ensures st.next.(isPlaying := s.isPlaying) == s
    ensures st.next.isPlaying <==> s.isPlaying && s.audioUrl.None?
    ensures PauseAudio in st.effects <==> s.audioUrl.Some?
    ensures |st.effects| <= 1 && forall e :: e in st.effects ==> e == PauseAudio
  {
    if s.audioUrl.Some? then Step(s.(isPlaying := false), [PauseAudio]) else Step(s, [])
  }

  /** The audio element's `onEnded`. */
  function Ended(s: Recorder): (st: Step)
    ensures st.next.(isPlaying := s.isPlaying) == s
    ensures !st.next.isPlaying
    ensures st.effects == []
  {
    Step(s.(isPlaying := false), [])
  }

  /** Pressing play and then pause, from a stopped player, leaves the widget as it was. */
  lemma PauseUndoesPlay(s: Recorder)
    requires !s.isPlaying
    ensures Pause(Play(s).next).next == s
    ensures Play(s).effects + Pause(Play(s).next).effects == (if s.audioUrl.Some? then [PlayAudio, PauseAudio] else [])
  {
  }

  /**
   * `deleteRecording`: revoke and forget the URL, reset the clock and
   * playback, tell the parent; dropping the URL also runs the effect cleanup,
   * which revokes the same URL a second time.
   */
  function Delete(s: Recorder): (st: Step)
    ensures st.next.audioUrl.None? && st.next.recordingTime == 0 && !st.next.isPlaying
    ensures st.next.(audioUrl := s.audioUrl, recordingTime := s.recordingTime, isPlaying := s.isPlaying) == s
    ensures multiset(st.effects)[RecordingDeleted] == 1
    ensures forall i :: 0 <= i < |st.effects| ==>
              st.effects[i].RevokeUrl? || st.effects[i].RecordingDeleted? || st.effects[i].ClearTimer? || st.effects[i].StopTracks?
    ensures forall u: Handle :: RevokeUrl(u) in st.effects <==> s.audioUrl == Some(u)
    ensures forall t: Handle :: ClearTimer(t) in st.effects <==> s.audioUrl.Some? && s.timer == Some(t)
    ensures forall h: Handle :: StopTracks(h) in st.effects <==> s.audioUrl.Some? && s.stream == Some(h)
  {
    var after := s.(audioUrl := None, recordingTime := 0, isPlaying := false);
    var cleanup := AfterUrlChange(s, after);
    var revoke := if s.audioUrl.Some? then [RevokeUrl(s.audioUrl.value)] else [];
    DeleteEffectsShape(revoke, cleanup);
    Step(after, revoke + [RecordingDeleted] + cleanup)
  }

  /**
   * Around the one `RecordingDeleted`, the explicit revocation and the effect
   * cleanup contribute only revocations, cleared timers and stopped tracks.
   */
  lemma DeleteEffectsShape(revoke: seq<Effect>, cleanup: seq<Effect>)
    requires forall i :: 0 <= i < |revoke| ==> revoke[i].RevokeUrl?
    requires forall i :: 0 <= i < |cleanup| ==> cleanup[i].ClearTimer? || cleanup[i].RevokeUrl? || cleanup[i].StopTracks?
    ensures var es := revoke + [RecordingDeleted] + cleanup;
            && multiset(es)[RecordingDeleted] == 1
            && (forall i :: 0 <= i < |es| ==>
                  es[i].RevokeUrl? || es[i].RecordingDeleted? || es[i].ClearTimer? || es[i].StopTracks?)
            && (forall e :: e in es <==> e in revoke || e == RecordingDeleted || e in cleanup)
  {
    var es := revoke + [RecordingDeleted] + cleanup;
    assert RecordingDeleted !in revoke && RecordingDeleted !in cleanup;
    assert multiset(es) == multiset(revoke) + multiset{RecordingDeleted} + multiset(cleanup);
  }

  /** Unmounting runs the last effect's cleanup. */
  function Unmount(s: Recorder): (st: Step)
    ensures st.next == s
    ensures forall t: Handle :: ClearTimer(t) in st.effects <==> s.timer == Some(t)
    ensures forall u: Handle :: RevokeUrl(u) in st.effects <==> s.audioUrl == Some(u)
    ensures forall h: Handle :: StopTracks(h) in st.effects <==> s.stream == Some(h)
    ensures |st.effects| <= 3
    ensures forall i :: 0 <= i < |st.effects| ==>
              st.effects[i].ClearTimer? || st.effects[i].RevokeUrl? || st.effects[i].StopTracks?
  {
    Step(s, CleanupEffects(s.audioUrl, s))
  }

  /**
   * A deleted recording's URL is revoked by the delete itself, so unmounting
   * afterwards revokes nothing, but still clears the timer and stops the stream.
   */
  lemma UnmountAfterDelete(s: Recorder)
    ensures forall u: Handle :: RevokeUrl(u) !in Unmount(Delete(s).next).effects
    ensures forall t: Handle :: ClearTimer(t) in Unmount(Delete(s).next).effects <==> s.timer == Some(t)
    ensures forall h: Handle :: StopTracks(h) in Unmount(Delete(s).next).effects <==> s.stream == Some(h)
  {
  }

  // ---------------------------------------------------------------------------
  // Runs
  // ---------------------------------------------------------------------------

  /** Something that happens to the widget. */
  datatype Event =
    | StartPressed(answer: MicAnswer, recorder: Handle, timer: Handle)
    | ChunkArrived(blob: Blob)
    | StopPressed
    | RecorderStopped(url: Handle)
    | TimerFired
    | PlayPressed
    | PausePressed
    | PlaybackEnded
    | DeletePressed

  /** The handler an event runs. */
  function Apply(s: Recorder, e: Event): (st: Step)
    ensures Consistent(s) ==> Consistent(st.next)
  {
    match e
    case StartPressed(answer, recorder, timer) => Start(s, answer, recorder, timer)
    case ChunkArrived(blob) => DataAvailable(s, blob)
    case StopPressed => Stop(s)
    case RecorderStopped(url) => OnStop(s, url)
    case TimerFired => Tick(s)
    case PlayPressed => Play(s)
    case PausePressed => Pause(s)
    case PlaybackEnded => Ended(s)
    case DeletePressed => Delete(s)
  }

  /** The state after a sequence of events. */
  function Run(s: Recorder, events: seq<Event>): Recorder
    decreases |events|
  {
    if |events| == 0 then s else Run(Apply(s, events[0]).next, events[1..])
  }

  /** Every reachable state is consistent. */
  lemma {:induction false} RunConsistent(s: Recorder, events: seq<Event>)
    requires Consistent(s)
    ensures Consistent(Run(s, events))
    decreases |events|
  {
    if |events| > 0 {
      RunConsistent(Apply(s, events[0]).next, events[1..]);
    }
  }

  /** The chunks that hold data, in arrival order. */
  function NonEmpty(blobs: seq<Blob>): (kept: seq<Blob>)
    ensures |kept| <= |blobs|
    ensures forall k :: 0 <= k < |kept| ==> |kept[k].data| > 0
    decreases |blobs|
  {
    if |blobs| == 0 then []
    else if |blobs[|blobs| - 1].data| > 0 then NonEmpty(blobs[..|blobs| - 1]) + [blobs[|blobs| - 1]]
    else NonEmpty(blobs[..|blobs| - 1])
  }

  /** The chunks arriving one after another. */
  function Arrivals(blobs: seq<Blob>): seq<Event>
    decreases |blobs|
  {
    if |blobs| == 0 then [] else [ChunkArrived(blobs[0])] + Arrivals(blobs[1..])
  }

  /** Appending chunks: the kept ones of a longer run extend those of the shorter. */
  lemma {:induction false} NonEmptyAppend(blobs: seq<Blob>, more: seq<Blob>)
    ensures NonEmpty(blobs + more) == NonEmpty(blobs) + NonEmpty(more)
    decreases |more|
  {
    if |more| == 0 {
      assert blobs + more == blobs;
    } else {
      var last := more[|more| - 1];
      assert (blobs + more)[..|blobs + more| - 1] == blobs + more[..|more| - 1];
      NonEmptyAppend(blobs, more[..|more| - 1]);
    }
  }

  /** A single chunk is kept exactly when it holds data. */
  lemma NonEmptySingle(b: Blob)
    ensures NonEmpty([b]) == if |b.data| > 0 then [b] else []
  {
    assert [b][..0] == [];
  }

  /** The first arrival is handled, then the rest. */
  lemma ArrivalsUnfold(s: Recorder, blobs: seq<Blob>)
    requires |blobs| > 0
    ensures Run(s, Arrivals(blobs)) == Run(DataAvailable(s, blobs[0]).next, Arrivals(blobs[1..]))
  {
    assert Arrivals(blobs)[0] == ChunkArrived(blobs[0]);
    assert Arrivals(blobs)[1..] == Arrivals(blobs[1..]);
  }

  /** The kept chunks of a run split at its first chunk. */
  lemma NonEmptyFirst(blobs: seq<Blob>)
    requires |blobs| > 0
    ensures NonEmpty(blobs) == (if |blobs[0].data| > 0 then [blobs[0]] else []) + NonEmpty(blobs[1..])
  {
    var first, rest := blobs[0], blobs[1..];
    assert blobs == [first] + rest;
    calc {
      NonEmpty(blobs);
      NonEmpty([first] + rest);
      { NonEmptyAppend([first], rest); }
      NonEmpty([first]) + NonEmpty(rest);
      { NonEmptySingle(first); }
      (if |first.data| > 0 then [first] else []) + NonEmpty(rest);
    }
  }

  /** After the arrivals, the chunk ref holds exactly the arrivals that carried data; nothing else changes. */
  lemma {:induction false} ArrivalsKeepNonEmpty(s: Recorder, blobs: seq<Blob>)
    ensures Run(s, Arrivals(blobs)) == s.(chunks := s.chunks + NonEmpty(blobs))
    decreases |blobs|
  {
    if |blobs| > 0 {
      var next := DataAvailable(s, blobs[0]).next;
      var kept := if |blobs[0].data| > 0 then [blobs[0]] else [];
      var rest := NonEmpty(blobs[1..]);
      assert next == s.(chunks := s.chunks + kept);
      calc {
        Run(s, Arrivals(blobs));
        { ArrivalsUnfold(s, blobs); }
        Run(next, Arrivals(blobs[1..]));
        { ArrivalsKeepNonEmpty(next, blobs[1..]); }
        next.(chunks := next.chunks + rest);
        { assert s.chunks + kept + rest == s.chunks + (kept + rest); }
        s.(chunks := s.chunks + (kept + rest));
        { NonEmptyFirst(blobs); }
        s.(chunks := s.chunks + NonEmpty(blobs));
      }
    }
  }

  /** Concatenation distributes over appending parts. */
  lemma {:induction false} BytesAppend(a: seq<Blob>, b: seq<Blob>)
    ensures Bytes(a + b) == Bytes(a) + Bytes(b)
    decreases |b|
  {
    if |b| == 0 {
      assert a + b == a;
    } else {
      var init, last := b[..|b| - 1], b[|b| - 1];
      assert (a + b)[..|a + b| - 1] == a + init;
      assert (a + b)[|a + b| - 1] == last;
      calc {
        Bytes(a + b);
        Bytes(a + init) + last.data;
        { BytesAppend(a, init); }
        Bytes(a) + Bytes(init) + last.data;
        { assert Bytes(a) + Bytes(init) + last.data == Bytes(a) + (Bytes(init) + last.data); }
        Bytes(a) + Bytes(b);
      }
    }
  }

  /** Dropping the empty chunks does not change the recorded bytes. */
  lemma {:induction false} NonEmptyKeepsBytes(blobs: seq<Blob>)
    ensures Bytes(NonEmpty(blobs)) == Bytes(blobs)
    decreases |blobs|
  {
    if |blobs| > 0 {
      var init, last := blobs[..|blobs| - 1], blobs[|blobs| - 1];
      NonEmptyKeepsBytes(init);
      if |last.data| > 0 {
        BytesAppend(NonEmpty(init), [last]);
        assert [last][..0] == [];
      }
    }
  }

  /**
   * A session from the start through the data chunks to `onstop`: the blob
   * handed to the parent is typed `audio/webm` and holds all the bytes
   * recorded since the start, in order.
   */
  lemma SessionDeliversAllBytes(s: Recorder, stream: Handle, recorder: Handle, timer: Handle,
                                blobs: seq<Blob>, url: Handle)
    ensures var started := Start(s, Started(stream), recorder, timer).next;
            var stopped := OnStop(Run(started, Arrivals(blobs)), url);
            stopped.effects[1] == RecordingComplete(Blob(Bytes(blobs), RecordingMime))
  {
    var started := Start(s, Started(stream), recorder, timer).next;
    ArrivalsKeepNonEmpty(started, blobs);
    NonEmptyKeepsBytes(blobs);
    assert [] + NonEmpty(blobs) == NonEmpty(blobs);
  }

  /** The clock counts the timer's ticks from the start. */
  lemma {:induction false} TicksCount(s: Recorder, n: nat)
    requires s.timer.Some?
    ensures Run(s, seq(n, _ => TimerFired)).recordingTime == s.recordingTime + n
    ensures Run(s, seq(n, _ => TimerFired)).timer == s.timer
    decreases n
  {
    if n > 0 {
      var events := seq(n, _ => TimerFired);
      assert events[1..] == seq(n - 1, _ => TimerFired);
      TicksCount(Tick(s).next, n - 1);
    }
  }

  // ---------------------------------------------------------------------------
  // The clock display
  // ---------------------------------------------------------------------------

  /** `padStart(2, '0')`. */
  function PadTwo(digits: string): (r: string)
    ensures |digits| < 2 ==> |r| == 2
    ensures |digits| >= 2 ==> r == digits
  {
    if |digits| == 0 then "00" else if |digits| == 1 then "0" + digits else digits
  }

  /** A seconds value below sixty renders as two digits that read back as it. */
  lemma TwoDigitSeconds(n: nat)
    requires n < 60
    ensures |PadTwo(NatToString(n))| == 2 && AllDigits(PadTwo(NatToString(n)))
    ensures ParseNat(PadTwo(NatToString(n))) == n
  {
    var d := NatToString(n);
    ParseNatToString(n);
    if n < 10 {
      assert d == [DigitChar(n)];
      var r := PadTwo(d);
      assert r[..1] == "0";
      assert r[..1][..0] == [];
    } else {
      assert d == NatToString(n / 10) + [DigitChar(n % 10)];
      assert NatToString(n / 10) == [DigitChar(n / 10)];
    }
  }

  /**
   * `formatTime(seconds)`: minutes, ':', and the seconds padded to two
   * digits; both parts read back to the duration.
   */
  function FormatTime(seconds: nat): (r: string)
    ensures |r| >= 4 && r[|r| - 3] == ':'
    ensures AllDigits(r[..|r| - 3]) && AllDigits(r[|r| - 2..])
    ensures ParseNat(r[|r| - 2..]) < 60
    ensures ParseNat(r[..|r| - 3]) * 60 + ParseNat(r[|r| - 2..]) == seconds
    ensures r[0] == '0' ==> |r| == 4
  {
    var mins := NatToString(seconds / 60);
    var secs := PadTwo(NatToString(seconds % 60));
    TwoDigitSeconds(seconds % 60);
    ParseNatToString(seconds / 60);
    var r := mins + ":" + secs;
    assert r[..|r| - 3] == mins && r[|r| - 2..] == secs;
    assert r[0] == mins[0];
    r
  }

  /** Two concrete renderings: zero and a minute and five seconds. */
  lemma FormatTimeExamples()
    ensures FormatTime(0) == "0:00"
    ensures FormatTime(65) == "1:05"
  {
  }
}
