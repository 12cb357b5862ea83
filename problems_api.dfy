/** The router's two generation routes, `POST /problems/generate` and
    `GET /problems/preview` (server/opic_problems_router.py:302-343). A
    route either answers with a generation or raises an `HTTPException`,
    modelled as `Failure(HttpError(status, detail))`. */
module ProblemsApi {
  import opened Results
  import opened QuestionBank
  import opened ModeGenerators
  import opened ModeDispatch
  import opened HtmlRender
  import PyText

  const GenerateModes: seq<string> := ["survey", "roleplay", "advanced", "full15", "unexpected"]

  /** `body.n if body.n and body.n > 0 else 3`: a missing, zero or negative
      count asks for the default three questions. */
  function GenerateCount(n: Option<int>): (k: int)
    ensures k > 0
    ensures n.Some? && n.value > 0 ==> k == n.value
    ensures (n.None? || n.value <= 0) ==> k == 3
  {
    if n.Some? && n.value != 0 && n.value > 0 then n.value else 3
  }

  /** `n if n else 3`: only a missing or zero count becomes three; a
      negative count reaches the generator as it is. */
  function PreviewCount(n: Option<int>): (k: int)
    ensures k != 0
    ensures n.Some? && n.value != 0 ==> k == n.value
    ensures (n.None? || n.value == 0) ==> k == 3
  {
    if n.Some? && n.value != 0 then n.value else 3
  }

  /** `raise HTTPException(status_code=500, detail=str(e))`. */
  function ServerError(e: Error): (h: Error)
    ensures h.HttpError? && h.status == 500
    ensures h.detail == ErrorText(e)
    ensures e.ValueError? ==> h.detail == e.message
    ensures e.KeyError? ==> PyText.ReadLiteral(h.detail) == Some(e.message)
  {
    HttpError(500, ErrorText(e))
  }

  const InvalidMode: Error := HttpError(400, "Invalid mode")

  /** The 400 raised for an unknown mode reaches the blanket handler and
      leaves the route as a 500 whose detail is the 400's own text. */
  lemma InvalidModeSwallowed()
    ensures ServerError(InvalidMode) == HttpError(500, "400: Invalid mode")
    ensures ServerError(InvalidMode).status != InvalidMode.status
  {
    Decimal.DigitString400();
  }

  /** `api_generate` as written: the unknown-mode `HTTPException(400)` is
      raised inside the `try` and converted by `except Exception`. */
  method ApiGenerateAsWritten(banks: Banks, mode: string, n: Option<int>) returns (r: Result<Generation, Error>)
    ensures mode !in GenerateModes ==> r == Failure(HttpError(500, "400: Invalid mode"))
    ensures mode in GenerateModes && r.Failure? ==>
              exists e :: ModeFailure(banks, mode, e) && r.error == ServerError(e)
    ensures mode in GenerateModes && ModeReady(banks, mode) ==> r.Success?
    ensures r.Success? ==> ModeShape(banks, mode, GenerateCount(n), r.value)
  {
    var attempt: Result<Generation, Error>;
    if mode in GenerateModes {
      attempt := RunMode(banks, mode, GenerateCount(n));
    } else {
      attempt := Failure(InvalidMode);
    }
    if attempt.Failure? {
      InvalidModeSwallowed();
      return Failure(ServerError(attempt.error));
    }
    return attempt;
  }

  /** `api_generate` as evidently intended: an unknown mode answers 400
      with "Invalid mode", a generator failure answers 500 with its text. */
  method ApiGenerate(banks: Banks, mode: string, n: Option<int>) returns (r: Result<Generation, Error>)
    ensures mode !in GenerateModes ==> r == Failure(InvalidMode)
    ensures mode in GenerateModes && r.Failure? ==>
              exists e :: ModeFailure(banks, mode, e) && r.error == ServerError(e)
    ensures mode in GenerateModes && ModeReady(banks, mode) ==> r.Success?
    ensures r.Success? ==> ModeShape(banks, mode, GenerateCount(n), r.value)
  {
    if mode !in GenerateModes {
      return Failure(InvalidMode);
    }
    var attempt := RunMode(banks, mode, GenerateCount(n));
    if attempt.Failure? {
      return Failure(ServerError(attempt.error));
    }
    return attempt;
  }

  /** `api_preview`: the generation or `{"error": str(e)}`, rendered
      without escaping. */
  method ApiPreview(banks: Banks, mode: string, n: Option<int>) returns (payload: Payload, page: Page)
    ensures payload.ErrorPayload? ==> exists e :: ModeFailure(banks, mode, e) && payload.error == ErrorText(e)
    ensures ModeReady(banks, mode) ==> payload.Generated?
    ensures payload.Generated? ==> ModeShape(banks, mode, PreviewCount(n), payload.g)
    ensures page == Render(payload, false)
  {
    var attempt := RunMode(banks, mode, PreviewCount(n));
    if attempt.Failure? {
      payload := ErrorPayload(ErrorText(attempt.error));
    } else {
      payload := Generated(attempt.value);
    }
    page := Render(payload, false);
  }
}
