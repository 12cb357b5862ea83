/** The practice page's controller (UI/src/pages/Practice.tsx:6-99): the
    `RecState` machine behind its single record button, the one-second
    timer, the chunk buffer and the recording's object URL. As for the
    recording page, the microphone, the recorder, intervals and object
    URLs are abstract: intervals and URLs are numbered handles, the
    recorder is a handle with its running flag, and each outcome of the
    microphone request is an argument of the handler. Interval handles
    start at 1, as the browser's do, so the truthiness test on the handle
    only fails for a missing one. */
module PracticeSession {
  import opened Results

  /** `RecState`; `Paused` is declared and never entered. */
  datatype RecState = Idle | Recording | Paused | Stopped | Denied | Error

  type Chunk = seq<bv8>

  /** How `requestMic` gets on: a started recorder for the stream; a
      `NotAllowedError` or any other failure before a recorder exists; or a
      recorder that was stored and whose `start()` then threw, with whether
      that error was a `NotAllowedError`. */
  datatype MicOutcome =
    | Granted(recorder: nat)
    | NotAllowed
    | OtherFailure
    | StartFailed(recorder: nat, notAllowed: bool)

  const DeniedMessage := "마이크 권한이 거부되었습니다. 브라우저 설정에서 허용해 주세요."
  const StartErrorMessage := "녹음을 시작할 수 없습니다. 다른 브라우저나 장치를 시도해 보세요."

  class Session {
    var state: RecState
    var errorMsg: Option<string>
    var elapsed: nat
    var audioUrl: Option<nat>
    var recorder: Option<nat>
    /** Whether the recorder's own state is "recording". */
    var recorderActive: bool
    var chunks: seq<Chunk>
    var timer: Option<nat>
    /** The intervals installed and not yet cleared. */
    var intervals: set<nat>
    var nextHandle: nat
    /** The object URLs created, with the chunks each holds. */
    var urls: map<nat, seq<Chunk>>

    /** At most one interval runs, the one in `timer`; the page is never
        paused; the buffer holds no empty chunk; the shown URL is one the
        page created. */
    ghost predicate Valid()
      reads this
    {
      && Timers()
      && state != Paused
      && (forall i :: 0 <= i < |chunks| ==> |chunks[i]| > 0)
      && (audioUrl.Some? ==> audioUrl.value in urls)
      && (forall u :: u in urls ==> u < nextHandle)
    }

    /** A mounted page: valid, and while it records its timer runs. */
    ghost predicate Live()
      reads this
    {
      Valid() && (state == Recording ==> timer.Some?)
    }

    /** The interval bookkeeping: at most one interval runs, the one in
        `timer`, and handles are positive. */
    ghost predicate Timers()
      reads this
    {
      && nextHandle >= 1
      && (timer.Some? ==> timer.value >= 1 && intervals == {timer.value})
      && (timer.None? ==> intervals == {})
      && (forall h :: h in intervals ==> h < nextHandle)
    }

    constructor ()
      ensures Live()
      ensures state == Idle && errorMsg.None? && elapsed == 0 && audioUrl.None?
      ensures recorder.None? && chunks == [] && timer.None?
    {
      state := Idle;
      errorMsg := None;
      elapsed := 0;
      audioUrl := None;
      recorder := None;
      recorderActive := false;
      chunks := [];
      timer := None;
      intervals := {};
      nextHandle := 1;
      urls := map[];
    }

    /** `canRecord`: the button starts a recording only from idle or stopped. */
    predicate CanRecord()
      reads this
    {
      state == Idle || state == Stopped
    }

    /** `stopTimer()`: clears the running interval, if any. */
    method StopTimer()
      modifies this
      requires Timers()
      ensures Timers()
      ensures timer.None? && intervals == {}
      ensures old(timer).None? ==> unchanged(this)
      ensures state == old(state) && errorMsg == old(errorMsg) && elapsed == old(elapsed)
      ensures audioUrl == old(audioUrl) && urls == old(urls) && chunks == old(chunks)
      ensures recorder == old(recorder) && recorderActive == old(recorderActive) && nextHandle == old(nextHandle)
    {
      if timer.Some? && timer.value != 0 {
        intervals := intervals - {timer.value};
        timer := None;
      }
    }

    /** `startTimer()`: clears any running interval, then installs a fresh one. */
    method StartTimer()
      modifies this
      requires Timers()
      ensures Timers()
      ensures timer == Some(old(nextHandle)) && intervals == {old(nextHandle)}
      ensures old(timer).Some? ==> old(timer.value) !in intervals
      ensures state == old(state) && errorMsg == old(errorMsg) && elapsed == old(elapsed)
      ensures audioUrl == old(audioUrl) && urls == old(urls) && chunks == old(chunks)
      ensures recorder == old(recorder) && recorderActive == old(recorderActive)
      ensures nextHandle == old(nextHandle) + 1
    {
      StopTimer();
      timer := Some(nextHandle);
      intervals := intervals + {nextHandle};
      nextHandle := nextHandle + 1;
    }

    /** The interval's callback: one more second, while an interval runs. */
    method Tick()
      modifies this
      requires Live()
      ensures Live()
      ensures timer.Some? ==> elapsed == old(elapsed) + 1
      ensures timer.None? ==> elapsed == old(elapsed)
      ensures state == old(state) && errorMsg == old(errorMsg) && timer == old(timer) && intervals == old(intervals)
      ensures audioUrl == old(audioUrl) && urls == old(urls) && chunks == old(chunks)
      ensures recorder == old(recorder) && recorderActive == old(recorderActive) && nextHandle == old(nextHandle)
    {
      if timer.Some? {
        elapsed := elapsed + 1;
      }
    }

    /** The part of `requestMic()` before `start()`: the new recorder is
        kept, not yet started, and the chunks, elapsed time and audio are
        cleared. */
    method PrepareRecorder(rec: nat)
      modifies this
      requires Live()
      ensures Live()
      ensures recorder == Some(rec) && !recorderActive && chunks == [] && elapsed == 0 && audioUrl.None?
      ensures state == old(state) && errorMsg == old(errorMsg) && timer == old(timer) && intervals == old(intervals)
      ensures urls == old(urls) && nextHandle == old(nextHandle)
    {
      recorder := Some(rec);
      recorderActive := false;
      chunks := [];
      elapsed := 0;
      audioUrl := None;
    }

    /** `requestMic()`. */
    method RequestMic(outcome: MicOutcome)
      modifies this
      requires Live()
      ensures Live()
      ensures outcome.Granted? ==> && state == Recording && recorder == Some(outcome.recorder) && recorderActive
                                   && chunks == [] && elapsed == 0 && audioUrl.None?
                                   && timer == Some(old(nextHandle)) && intervals == {old(nextHandle)}
                                   && errorMsg == old(errorMsg)
      ensures outcome.NotAllowed? ==> && state == Denied && errorMsg == Some(DeniedMessage)
      ensures outcome.OtherFailure? ==> && state == Error && errorMsg == Some(StartErrorMessage)
      ensures outcome.StartFailed? ==> && recorder == Some(outcome.recorder) && !recorderActive
                                       && chunks == [] && elapsed == 0 && audioUrl.None?
                                       && timer == old(timer) && intervals == old(intervals)
      ensures outcome.StartFailed? && outcome.notAllowed ==> state == Denied && errorMsg == Some(DeniedMessage)
      ensures outcome.StartFailed? && !outcome.notAllowed ==> state == Error && errorMsg == Some(StartErrorMessage)
      ensures outcome.NotAllowed? || outcome.OtherFailure? ==>
                && chunks == old(chunks) && elapsed == old(elapsed) && audioUrl == old(audioUrl)
                && timer == old(timer) && recorder == old(recorder)
                && recorderActive == old(recorderActive)
      ensures urls == old(urls)
    {
      match outcome
      case Granted(rec) =>
        PrepareRecorder(rec);
        recorderActive := true;
        StartTimer();
        state := Recording;
      case NotAllowed =>
        state := Denied;
        errorMsg := Some(DeniedMessage);
      case OtherFailure =>
        state := Error;
        errorMsg := Some(StartErrorMessage);
      case StartFailed(rec, notAllowed) =>
        PrepareRecorder(rec);
        if notAllowed {
          state := Denied;
          errorMsg := Some(DeniedMessage);
        } else {
          state := Error;
          errorMsg := Some(StartErrorMessage);
        }
    }

    /** `ondataavailable`: a non-empty chunk joins the end of the buffer. */
    method DataAvailable(c: Chunk)
      modifies this
      requires Live()
      ensures Live()
      ensures |c| > 0 ==> chunks == old(chunks) + [c]
      ensures |c| == 0 ==> unchanged(this)
      ensures state == old(state) && audioUrl == old(audioUrl) && timer == old(timer) && elapsed == old(elapsed)
      ensures errorMsg == old(errorMsg) && recorder == old(recorder) && recorderActive == old(recorderActive)
      ensures urls == old(urls) && intervals == old(intervals) && nextHandle == old(nextHandle)
    {
      if |c| > 0 {
        chunks := chunks + [c];
      }
    }

    /** `onstop`: the browser fires it once the recorder is inactive. The
        buffer becomes a new object URL; the timer stops and the page is
        stopped. */
    method OnStop()
      modifies this
      requires Live()
      ensures Live()
      ensures audioUrl == Some(old(nextHandle)) && urls == old(urls)[old(nextHandle) := old(chunks)]
      ensures state == Stopped && timer.None? && intervals == {}
      ensures chunks == old(chunks) && elapsed == old(elapsed) && errorMsg == old(errorMsg)
      ensures recorder == old(recorder) && !recorderActive && nextHandle == old(nextHandle) + 1
    {
      recorderActive := false;
      urls := urls[nextHandle := chunks];
      audioUrl := Some(nextHandle);
      nextHandle := nextHandle + 1;
      StopTimer();
      state := Stopped;
    }

    /** `stopRecording()`: stops the recorder only while it records; its
        `onstop` follows as its own event. */
    method StopRecording()
      modifies this
      requires Live()
      ensures Live()
      ensures old(recorder).Some? && old(recorderActive) ==> !recorderActive
      ensures !(old(recorder).Some? && old(recorderActive)) ==> unchanged(this)
      ensures state == old(state) && recorder == old(recorder) && timer == old(timer) && chunks == old(chunks)
      ensures audioUrl == old(audioUrl) && elapsed == old(elapsed) && errorMsg == old(errorMsg)
    {
      if recorder.Some? && recorderActive {
        recorderActive := false;
      }
    }

    /** The record button: start from idle or stopped, stop otherwise. */
    method RecordButton(outcome: MicOutcome)
      modifies this
      requires Live()
      ensures Live()
      ensures old(CanRecord()) && outcome.Granted? ==> state == Recording && recorderActive
      ensures old(CanRecord()) && outcome.NotAllowed? ==> state == Denied
      ensures old(CanRecord()) && outcome.OtherFailure? ==> state == Error
      ensures old(CanRecord()) && outcome.StartFailed? ==> state == (if outcome.notAllowed then Denied else Error) && !recorderActive
      ensures !old(CanRecord()) ==> !(recorder.Some? && recorderActive)
      ensures !old(CanRecord()) ==> recorder == old(recorder) && audioUrl == old(audioUrl) && errorMsg == old(errorMsg)
      ensures !old(CanRecord()) ==> state == old(state) && timer == old(timer) && chunks == old(chunks)
    {
      if CanRecord() {
        RequestMic(outcome);
      } else {
        StopRecording();
      }
    }

    /** `resetAll()`: back to idle with no audio, no time, no error and no chunks. */
    method ResetAll()
      modifies this
      requires Live()
      ensures Live()
      ensures state == Idle && audioUrl.None? && elapsed == 0 && errorMsg.None? && chunks == []
      ensures timer == old(timer) && intervals == old(intervals) && recorder == old(recorder)
      ensures recorderActive == old(recorderActive) && urls == old(urls)
    {
      state := Idle;
      audioUrl := None;
      elapsed := 0;
      errorMsg := None;
      chunks := [];
    }

    /** The unmount cleanup: the timer stops, and so does a recorder that
        still records. */
    method Unmount()
      modifies this
      requires Live()
      ensures Valid()
      ensures timer.None? && intervals == {} && !(recorder.Some? && recorderActive)
      ensures state == old(state) && recorder == old(recorder) && chunks == old(chunks) && audioUrl == old(audioUrl)
      ensures elapsed == old(elapsed) && errorMsg == old(errorMsg)
    {
      StopTimer();
      if recorder.Some? && recorderActive {
        recorderActive := false;
      }
    }
  }
}
