/** The mode chain that the router's routes and the standalone app share:
    survey, roleplay, advanced and full15 by name, anything else as
    unexpected (server/opic_problems_router.py:306-316 and 329-338,
    server/opic_test/main.py:380-391). */
module ModeDispatch {
  import opened Results
  import opened QuestionBank
  import opened SetGenerator
  import opened ModeGenerators

  /** What a successful generation in `mode` holds. */
  ghost predicate ModeShape(banks: Banks, mode: string, n: int, g: Generation)
  {
    if mode == "survey" then SurveyShape(banks.basic, g)
    else if mode == "roleplay" then KeyedShape(banks.roleplay, "roleplay", RoleplayKeys, [1, 2, 3], g)
    else if mode == "advanced" then KeyedShape(banks.advanced, "advanced", AdvancedKeys, [1, 2], g)
    else if mode == "full15" then Full15Shape(banks, g)
    else UnexpectedShape(banks.unexpected, n, g)
  }

  /** The exceptions the generator of `mode` can raise. */
  ghost predicate ModeFailure(banks: Banks, mode: string, e: Error)
  {
    if mode == "survey" then
      || (|banks.basic| < 2 && e == ValueError(SurveyTooFewMessage))
      || (exists t :: t in banks.basic && TopicError(banks.basic, t) == Some(e))
    else if mode == "roleplay" then KeyedFailure(banks.roleplay, RoleplayKeys, "No questions found for topic: ", e)
    else if mode == "advanced" then KeyedFailure(banks.advanced, AdvancedKeys, "No advanced questions for topic: ", e)
    else if mode == "full15" then Full15Failure(banks, e)
    else TopicFailure(banks.unexpected, e)
  }

  /** The banks the generator of `mode` reads can always serve it. */
  ghost predicate ModeReady(banks: Banks, mode: string)
  {
    if mode == "survey" then |banks.basic| >= 2 && SoundTopics(banks.basic)
    else if mode == "roleplay" then banks.roleplay != map[] && KeyedSound(banks.roleplay, RoleplayKeys)
    else if mode == "advanced" then banks.advanced != map[] && KeyedSound(banks.advanced, AdvancedKeys)
    else if mode == "full15" then Healthy(banks)
    else banks.unexpected != map[] && SoundTopics(banks.unexpected)
  }

  /** The chain itself; `n` reaches only the unexpected generator. */
  method RunMode(banks: Banks, mode: string, n: int) returns (r: Result<Generation, Error>)
    ensures r.Failure? ==> ModeFailure(banks, mode, r.error)
    ensures ModeReady(banks, mode) ==> r.Success?
    ensures r.Success? ==> ModeShape(banks, mode, n, r.value)
  {
    if mode == "survey" {
      r := GenerateSurvey(banks.basic);
    } else if mode == "roleplay" {
      r := GenerateRoleplay(banks.roleplay);
    } else if mode == "advanced" {
      r := GenerateAdvanced(banks.advanced);
    } else if mode == "full15" {
      r := GenerateFull15(banks);
    } else {
      r := GenerateUnexpected(banks.unexpected, n);
    }
  }
}
