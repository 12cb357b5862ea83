/** The standalone generator app's `GET /generate`
    (server/opic_test/main.py:374-399): the mode chain with `full13` as
    an alias of `full15`, the unexpected set always asked for three
    questions, and any exception turned into an `{"error": msg}` payload
    that the escaping renderer shows as the failure page. */
module GeneratorApp {
  import opened Results
  import opened QuestionBank
  import opened ModeGenerators
  import opened ModeDispatch
  import opened HtmlRender

  /** The generator a requested mode runs: `full13` is served by `full15`. */
  function ServedMode(mode: string): (m: string)
    ensures mode == "full13" ==> m == "full15"
    ensures mode != "full13" ==> m == mode
    ensures m != "full13"
  {
    if mode == "full13" then "full15" else mode
  }

  /** `generate(mode)`: the payload, and the HTML page made from it. */
  method Generate(banks: Banks, mode: string) returns (payload: Payload, page: Page)
    ensures payload.ErrorPayload? ==> exists e :: ModeFailure(banks, ServedMode(mode), e) && payload.error == ErrorText(e)
    ensures ModeReady(banks, ServedMode(mode)) ==> payload.Generated?
    ensures payload.Generated? ==> ModeShape(banks, ServedMode(mode), 3, payload.g)
    ensures page == Render(payload, true)
  {
    var attempt := RunMode(banks, ServedMode(mode), 3);
    if attempt.Failure? {
      payload := ErrorPayload(ErrorText(attempt.error));
    } else {
      payload := Generated(attempt.value);
    }
    page := Render(payload, true);
  }

  /** A `full13` request is a mock test: its result is a 15-slot generation
      whose mode reads "full15". */
  lemma Full13IsFull15(banks: Banks, g: Generation)
    requires ModeShape(banks, ServedMode("full13"), 3, g)
    ensures Full15Shape(banks, g) && g.mode == "full15"
  {
  }

  /** The failure page shows the generator's message, escaped: unescaping
      the page text gives `str(e)` back. */
  lemma FailurePageMessage(e: Error)
    ensures Render(ErrorPayload(ErrorText(e)), true).FailurePage?
    ensures Unescape(Render(ErrorPayload(ErrorText(e)), true).message) == ErrorText(e)
  {
    RenderFailure(ErrorText(e), true);
  }
}
