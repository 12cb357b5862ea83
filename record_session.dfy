/** The recording page's controller (UI/src/pages/Record.tsx:51-170): its
    status, the interval timer, the chunk buffer, the object URL of the
    last recording and the upload. The browser's recorder, intervals,
    object URLs and the network are abstract: intervals and URLs are
    numbered handles, a recorder is a handle, and each outcome of an
    awaited call is an argument of the handler that receives it. Each
    handler runs as one atomic step. */
module RecordSession {
  import opened Results
  import Decimal
  import ClockFormat

  datatype Status = Ready | Recording | Stopped | Uploading | Error

  /** A piece of recorded audio as `ondataavailable` delivers it. */
  type Chunk = seq<bv8>

  /** How `startRecording` gets on: no `getUserMedia` in the browser; a
      started recorder for the granted stream; an exception from
      `getUserMedia` or the recorder's construction, before the chunks are
      cleared; or an exception from the recorder's `start()`, after. Each
      exception comes with its message. */
  datatype StartOutcome =
    | Unsupported
    | Granted(recorder: nat)
    | Failed(message: string)
    | StartThrew(message: string)

  /** How the `POST /upload` request ends: the analysis JSON, a response
      that is not ok, or an exception with its message. */
  datatype UploadOutcome =
    | Analysed(analysis: string)
    | NotOk(status: nat, statusText: string, body: string)
    | Thrown(message: string)

  const UnsupportedMessage := "브라우저에서 마이크 권한을 지원하지 않습니다."
  const StartFailedMessage := "녹음 시작 실패"
  const NoRecordingMessage := "업로드할 녹음이 없습니다."
  const UploadFailedMessage := "업로드/분석 실패"

  /** `e?.message || fallback`: an empty message gives way to the fallback. */
  function MessageOr(message: string, fallback: string): (s: string)
    ensures s != [] <== fallback != []
    ensures message != [] ==> s == message
  {
    if message != [] then message else fallback
  }

  /** The error text of a response that is not ok: "<status> <statusText>: <body>".
      The digits before the first space read back as the status; the
      status text follows the space, and the text ends with ": " and the
      body. */
  function NotOkMessage(status: nat, statusText: string, body: string): (s: string)
    ensures var d := |Decimal.DigitString(status)|;
            && d + 1 + |statusText| + 2 + |body| == |s|
            && (forall i :: 0 <= i < d ==> Decimal.IsDigit(s[i]))
            && Decimal.ParseDigits(s[..d]) == status
            && s[d] == ' '
            && s[d + 1..d + 1 + |statusText|] == statusText
            && s[|s| - |body| - 2..] == ": " + body
  {
    var digits := Decimal.DigitString(status);
    Decimal.ParseDigitString(status);
    JoinedParts(digits, statusText, body);
    digits + " " + statusText + ": " + body
  }

  /** Where each part sits in "<digits> <text>: <body>". */
  lemma JoinedParts(digits: string, text: string, body: string)
    ensures var s := digits + " " + text + ": " + body;
            && |s| == |digits| + 1 + |text| + 2 + |body|
            && s[..|digits|] == digits
            && s[|digits|] == ' '
            && s[|digits| + 1..|digits| + 1 + |text|] == text
            && s[|s| - |body| - 2..] == ": " + body
  {
    var s := digits + " " + text + ": " + body;
    assert s[..|digits|] == digits;
    assert s[|digits| + 1..|digits| + 1 + |text|] == text;
    assert s[|s| - |body| - 2..] == ": " + body;
  }

  /** The timer text for an elapsed time in milliseconds: the page keeps
      the elapsed seconds as `ms / 1000` and `fmt` floors them, so the
      text reads back as the whole seconds elapsed. */
  function TimerText(ms: nat): (s: string)
    ensures ClockFormat.ParseClock(s) == Some(ms / 1000)
    ensures ms < 6_000_000 ==> |s| == 5
  {
    ClockFormat.ClockRoundTrip(ms / 1000);
    ClockFormat.Clock(ms / 1000)
  }

  /** The handle set of an optional handle. */
  function HandleSet(h: Option<nat>): (s: set<nat>)
    ensures h.None? <==> s == {}
    ensures h.Some? ==> s == {h.value}
  {
    if h.Some? then {h.value} else {}
  }

  class Session {
    var status: Status
    var audioUrl: Option<nat>
    var analysis: Option<string>
    var err: string
    var recorder: Option<nat>
    var chunks: seq<Chunk>
    var elapsedMs: int
    var startTime: Option<int>
    var tick: Option<nat>
    /** The intervals installed and not yet cleared. */
    var intervals: set<nat>
    /** The object URLs created and not yet revoked, with the chunks each holds. */
    var urls: map<nat, seq<Chunk>>
    var nextHandle: nat

    /** At most one interval runs and `tick` holds it; the only live object
        URL is `audioUrl`; the buffer holds no empty chunk; a recording
        page has its timer running. */
    ghost predicate Valid()
      reads this
    {
      && Timers()
      && urls.Keys == HandleSet(audioUrl)
      && (forall h :: h in urls ==> h < nextHandle)
      && (forall i :: 0 <= i < |chunks| ==> |chunks[i]| > 0)
      && (status == Recording ==> tick.Some?)
    }

    /** The interval bookkeeping: at most one interval runs, the one in `tick`. */
    ghost predicate Timers()
      reads this
    {
      && intervals == HandleSet(tick)
      && (forall h :: h in intervals ==> h < nextHandle)
    }

    constructor ()
      ensures Valid()
      ensures status == Ready && audioUrl.None? && analysis.None? && err == []
      ensures recorder.None? && chunks == [] && elapsedMs == 0 && tick.None?
    {
      status := Ready;
      audioUrl := None;
      analysis := None;
      err := [];
      recorder := None;
      chunks := [];
      elapsedMs := 0;
      startTime := None;
      tick := None;
      intervals := {};
      urls := map[];
      nextHandle := 0;
    }

    /** `stopTimer()`: clears the running interval, if any. */
    method StopTimer()
      modifies this
      requires Timers()
      ensures Timers()
      ensures tick.None? && intervals == {}
      ensures old(tick).None? ==> unchanged(this)
      ensures status == old(status) && chunks == old(chunks) && audioUrl == old(audioUrl) && urls == old(urls)
      ensures analysis == old(analysis) && err == old(err) && recorder == old(recorder)
      ensures elapsedMs == old(elapsedMs) && startTime == old(startTime) && nextHandle == old(nextHandle)
    {
      if tick.Some? {
        intervals := intervals - {tick.value};
        tick := None;
      }
    }

    /** `startTimer()`: records the start, shows 0, clears any running
        interval and installs a fresh one. */
    method StartTimer(now: int)
      modifies this
      requires Timers()
      ensures Timers()
      ensures tick == Some(old(nextHandle)) && intervals == {old(nextHandle)}
      ensures old(tick).Some? ==> old(tick.value) !in intervals
      ensures startTime == Some(now) && elapsedMs == 0
      ensures status == old(status) && chunks == old(chunks) && audioUrl == old(audioUrl) && urls == old(urls)
      ensures analysis == old(analysis) && err == old(err) && recorder == old(recorder)
      ensures nextHandle == old(nextHandle) + 1
    {
      startTime := Some(now);
      elapsedMs := 0;
      StopTimer();
      tick := Some(nextHandle);
      intervals := intervals + {nextHandle};
      nextHandle := nextHandle + 1;
    }

    /** The interval's callback: the time since the start, while one runs. */
    method Tick(now: int)
      modifies this
      requires Valid()
      ensures Valid()
      ensures tick.Some? && startTime.Some? && startTime.value != 0 ==> elapsedMs == now - startTime.value
      ensures !(tick.Some? && startTime.Some? && startTime.value != 0) ==> elapsedMs == old(elapsedMs)
      ensures tick.Some? && startTime.Some? && startTime.value != 0 && now >= startTime.value ==>
                ClockFormat.ParseClock(TimerText(elapsedMs)) == Some((now - startTime.value) / 1000)
      ensures status == old(status) && chunks == old(chunks) && audioUrl == old(audioUrl) && urls == old(urls)
      ensures analysis == old(analysis) && err == old(err) && recorder == old(recorder)
      ensures tick == old(tick) && intervals == old(intervals) && startTime == old(startTime)
      ensures nextHandle == old(nextHandle)
    {
      if tick.Some? && startTime.Some? && startTime.value != 0 {
        elapsedMs := now - startTime.value;
      }
    }

    /** `startRecording()`. */
    method StartRecording(outcome: StartOutcome, now: int)
      modifies this
      requires Valid()
      ensures Valid()
      ensures outcome.Unsupported? ==> && status == Error && err == UnsupportedMessage
                                       && tick == old(tick) && intervals == old(intervals) && chunks == old(chunks)
                                       && analysis == old(analysis) && recorder == old(recorder)
      ensures outcome.Granted? ==> && status == Recording && recorder == Some(outcome.recorder)
                                   && chunks == [] && analysis.None? && err == []
                                   && tick == Some(old(nextHandle)) && intervals == {old(nextHandle)}
                                   && elapsedMs == 0 && startTime == Some(now)
      ensures outcome.Failed? || outcome.StartThrew? ==>
                && status == Error && err == MessageOr(outcome.message, StartFailedMessage)
                && tick.None? && intervals == {} && analysis == old(analysis) && recorder == old(recorder)
      ensures outcome.Failed? ==> chunks == old(chunks)
      ensures outcome.StartThrew? ==> chunks == []
      ensures !outcome.Granted? ==> elapsedMs == old(elapsedMs) && startTime == old(startTime)
      ensures audioUrl == old(audioUrl) && urls == old(urls)
    {
      match outcome
      case Unsupported =>
        err := UnsupportedMessage;
        status := Error;
      case Granted(rec) =>
        chunks := [];
        recorder := Some(rec);
        analysis := None;
        err := [];
        status := Recording;
        StartTimer(now);
      case Failed(message) =>
        err := MessageOr(message, StartFailedMessage);
        status := Error;
        StopTimer();
      case StartThrew(message) =>
        chunks := [];
        err := MessageOr(message, StartFailedMessage);
        status := Error;
        StopTimer();
    }

    /** `ondataavailable`: a non-empty chunk joins the end of the buffer. */
    method DataAvailable(c: Chunk)
      modifies this
      requires Valid()
      ensures Valid()
      ensures |c| > 0 ==> chunks == old(chunks) + [c]
      ensures |c| == 0 ==> unchanged(this)
      ensures status == old(status) && audioUrl == old(audioUrl) && urls == old(urls) && tick == old(tick)
      ensures analysis == old(analysis) && err == old(err) && recorder == old(recorder)
      ensures elapsedMs == old(elapsedMs) && startTime == old(startTime)
      ensures intervals == old(intervals) && nextHandle == old(nextHandle)
    {
      if |c| > 0 {
        chunks := chunks + [c];
      }
    }

    /** `onstop`: the buffer becomes a new object URL in place of the old
        one, which is revoked; the page stops and so does its timer. */
    method OnStop()
      modifies this
      requires Valid()
      ensures Valid()
      ensures audioUrl == Some(old(nextHandle)) && urls == map[old(nextHandle) := old(chunks)]
      ensures old(audioUrl).Some? ==> old(audioUrl.value) !in urls
      ensures status == Stopped && tick.None? && intervals == {}
      ensures chunks == old(chunks) && analysis == old(analysis) && err == old(err) && recorder == old(recorder)
      ensures elapsedMs == old(elapsedMs) && startTime == old(startTime) && nextHandle == old(nextHandle) + 1
    {
      if audioUrl.Some? {
        urls := urls - {audioUrl.value};
      }
      assert urls == map[];
      urls := urls[nextHandle := chunks];
      audioUrl := Some(nextHandle);
      nextHandle := nextHandle + 1;
      status := Stopped;
      StopTimer();
    }

    /** `stopRecording()`: stops and forgets the recorder; the recorder's
        `onstop` follows as its own event. Without a recorder nothing happens. */
    method StopRecording()
      modifies this
      requires Valid()
      ensures Valid()
      ensures recorder.None?
      ensures old(recorder).None? ==> unchanged(this)
      ensures status == old(status) && chunks == old(chunks) && audioUrl == old(audioUrl) && tick == old(tick)
      ensures analysis == old(analysis) && err == old(err) && urls == old(urls) && intervals == old(intervals)
      ensures elapsedMs == old(elapsedMs) && startTime == old(startTime) && nextHandle == old(nextHandle)
    {
      if recorder.Some? {
        recorder := None;
      }
    }

    /** The first half of `onUpload()`: with no recording the page shows an
        error and sends nothing; otherwise it starts uploading with the
        analysis cleared, and returns the audio it sends. */
    method BeginUpload() returns (sent: Option<seq<Chunk>>)
      modifies this
      requires Valid()
      ensures Valid()
      ensures old(audioUrl).None? ==> && sent.None? && status == Error && err == NoRecordingMessage
                                      && analysis == old(analysis)
      ensures old(audioUrl).Some? ==> && sent == Some(old(urls)[old(audioUrl.value)])
                                      && status == Uploading && err == [] && analysis.None?
      ensures chunks == old(chunks) && audioUrl == old(audioUrl) && urls == old(urls)
      ensures tick == old(tick) && intervals == old(intervals) && recorder == old(recorder)
      ensures elapsedMs == old(elapsedMs) && startTime == old(startTime) && nextHandle == old(nextHandle)
    {
      if audioUrl.None? {
        err := NoRecordingMessage;
        status := Error;
        return None;
      }
      sent := Some(urls[audioUrl.value]);
      status := Uploading;
      err := [];
      analysis := None;
    }

    /** The second half of `onUpload()`: the analysis on success, an error
        message otherwise. It runs whenever the request settles, whatever
        the page did meanwhile: a recording started during the upload keeps
        its recorder and timer while this handler sets the status. */
    method FinishUpload(outcome: UploadOutcome)
      modifies this
      requires Valid()
      ensures Valid()
      ensures outcome.Analysed? ==> status == Stopped && analysis == Some(outcome.analysis) && err == old(err)
      ensures outcome.NotOk? ==> && status == Error && analysis == old(analysis)
                                 && err == NotOkMessage(outcome.status, outcome.statusText, outcome.body)
      ensures outcome.Thrown? ==> && status == Error && analysis == old(analysis)
                                  && err == MessageOr(outcome.message, UploadFailedMessage)
      ensures chunks == old(chunks) && audioUrl == old(audioUrl) && urls == old(urls)
      ensures tick == old(tick) && intervals == old(intervals) && recorder == old(recorder)
      ensures elapsedMs == old(elapsedMs) && startTime == old(startTime) && nextHandle == old(nextHandle)
    {
      match outcome
      case Analysed(a) =>
        analysis := Some(a);
        status := Stopped;
      case NotOk(code, text, body) =>
        err := MessageOr(NotOkMessage(code, text, body), UploadFailedMessage);
        status := Error;
      case Thrown(message) =>
        err := MessageOr(message, UploadFailedMessage);
        status := Error;
    }

    /** `onUpload()` when nothing else happens while the request is in
        flight: no recording gives the error and no request; otherwise the
        analysis and status "stopped" on success, or status "error" with
        the analysis still null. */
    method Upload(outcome: UploadOutcome) returns (sent: Option<seq<Chunk>>)
      modifies this
      requires Valid()
      ensures Valid()
      ensures old(audioUrl).None? ==> && sent.None? && status == Error && err == NoRecordingMessage
                                      && analysis == old(analysis)
      ensures old(audioUrl).Some? ==> sent == Some(old(urls)[old(audioUrl.value)])
      ensures old(audioUrl).Some? && outcome.Analysed? ==> status == Stopped && analysis == Some(outcome.analysis) && err == []
      ensures old(audioUrl).Some? && !outcome.Analysed? ==> status == Error && analysis.None? && err != []
      ensures chunks == old(chunks) && audioUrl == old(audioUrl) && urls == old(urls)
      ensures tick == old(tick) && intervals == old(intervals) && recorder == old(recorder)
      ensures elapsedMs == old(elapsedMs) && startTime == old(startTime) && nextHandle == old(nextHandle)
    {
      sent := BeginUpload();
      if sent.Some? {
        FinishUpload(outcome);
      }
    }
  }
}
