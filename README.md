# OPIc question generator and practice client — a Dafny model

This project models the logic of an OPIc speaking-test trainer. It proves
properties of that model in Dafny.

The server side builds question sets from four JSON banks:
- basic (survey);
- unexpected;
- role-play, with keys 11/12/13;
- advanced, with keys 14/15.

`generate_set_from_bank` draws one topic's questions. It puts one
description first, then draws routine, comparison and experience questions
under the caps 1/1/2, removing each drawn text from a copy of its pool. The
mode generators (survey, unexpected, roleplay, advanced, and the
15-question mock test) combine such blocks. The mock test renumbers them
to 1, 2–4, 5–7, 8–10, 11–13 and 14–15. Two front ends serve them:
- the router's `POST /problems/generate` and `GET /problems/preview`;
- the standalone app's `GET /generate`, which accepts `full13` as an alias
  of `full15` and turns exceptions into an error page.

The client side covers these pieces:
- the recording page's controller: its status, interval timer, chunk
  buffer, object URL and upload;
- the practice page's `RecState` machine;
- the "MM:SS" clock text;
- the authentication store over `localStorage`;
- the display-name rule and cards of the personal page;
- the login page's redirect target and name derivation.

The model takes the source's own form:
- **Loops.** The draw loop of `generate_set_from_bank`, the key loops of
  role-play and advanced, and the survey loop are methods with loop
  invariants. The in-place renumbering of the mock test works on an `array`.
- **Randomness.** `random.choice` and `random.sample` are nondeterministic
  choices (`:|`). Every property holds for every choice.
- **Page controllers.** The pages are classes whose methods are the event
  handlers. Browser objects (recorder, intervals, object URLs) are numbered
  handles. Each awaited outcome is an argument of the handler that
  receives it.
- **Pure code.** Name rules, badge labels, titles, escaping and the clock
  are functions with lemmas.

Files:
- `results.dfy`: Option and Result.
- `question_bank.dfy`: banks, questions and what a drawn block satisfies.
- `set_generator.dfy`: topic choice and the draw loop.
- `mode_generators.dfy`: the five mode generators and the in-place renumbering.
- `mock_test_numbering.dfy`: the mock test's numbering 1..15.
- `mode_dispatch.dfy`: the shared mode chain.
- `problems_api.dfy`: the router's routes.
- `generator_app.dfy`: the standalone app's route.
- `html_render.dfy`: the result page.
- `decimal.dfy`: decimal digits.
- `hex.dfy`: hexadecimal digits.
- `py_text.dfy`: Python's `repr` of a string and a reader for it.
- `clock_format.dfy`: the clock text.
- `record_session.dfy` and `practice_session.dfy`: the two recording pages.
- `auth_context.dfy`: the authentication store.
- `js_text.dfy`: `trim` and `split`.
- `my_page.dfy`: the personal page.
- `login_page.dfy`: the login page.

## Model

| member | source | states |
|---|---|---|
| SetGenerator.PickRandomTopic | server/opic_problems_router.py:40-44 | The bank is empty exactly when it fails, and the failure is `ValueError("QUESTION_BANK is empty.")`. Otherwise the chosen topic is one of the bank's keys. |
| SetGenerator.RemoveFirst | server/opic_problems_router.py:81 | `list.remove` drops exactly one occurrence of the text, as a multiset. |
| SetGenerator.GenerateSetFromBank | server/opic_problems_router.py:46-85 | An empty bank with no topic fails with the empty-bank error. For a given topic, it fails exactly when the topic is missing, its data is empty (KeyError) or it has no description (ValueError), and with that error. A bank whose topics are all usable always succeeds. A success returns a topic of the bank and a block drawn from it, numbered from 1. |
| SetGenerator.DrawQuestions | server/opic_problems_router.py:59-83 | The loop's result has a description first. Its numbers run consecutively from 1. Its length is 1 + min(max(n-1,0), what the caps and pools allow). Every later question is of a capped type, at most its cap per type, with texts taken from that type's pool without reuse. |
| SetGenerator.Candidates | server/opic_problems_router.py:76 | A type is a candidate exactly when its counter is below its cap and its remaining pool is non-empty. |
| SetGenerator.DrawnFromPools | server/opic_problems_router.py:68-81 | Every question's text comes from the pool of its own type. |
| SetGenerator.NoRepeatedDraw | server/opic_problems_router.py:80-81 | Two questions of the same type never repeat a text when the pool has no duplicates. |
| SetGenerator.GeneratedSize | server/opic_problems_router.py:66-83 | A block has 1 to 5 questions and at most max(n,1). `n <= 1` gives the description alone, and `n` beyond the capacity gives all of it. The numbers run from the first to first+len-1. |
| SetGenerator.RenumberedGenerated | server/opic_problems_router.py:143-154 | Renumbering a drawn block from another start keeps every property of the draw, now numbered from the new start. |
| SetGenerator.Renumbered | server/opic_problems_router.py:144 | Renumbering keeps each question's type and text and sets the i-th number to start+i. |
| SetGenerator.TextsRenumbered | server/opic_problems_router.py:144 | Renumbering leaves the texts of every type unchanged. |
| QuestionBank.Capacity | server/opic_problems_router.py:38 | The caps allow at most 4 questions after the description. |
| QuestionBank.ErrorText | server/opic_problems_router.py:320-321 | `str(e)` is a ValueError's message as is. For a KeyError it is Python's `repr` of the message: it is quoted with the quote `repr` picks, and read back as a Python literal it gives the message. It is empty only for an empty ValueError message. |
| QuestionBank.KeyErrorWithApostrophe | server/opic_problems_router.py:57 | The KeyError for topic `Tom's day` prints its message between double quotes. |
| PyText.Quote | server/opic_problems_router.py:320-321 | `repr` quotes with `"` exactly when the text holds `'` and no `"`. |
| PyText.ReprChar | server/opic_problems_router.py:320-321 | A character is written as itself exactly when it is printable and is neither the quote nor a backslash; otherwise it is written as an escape starting with a backslash. |
| PyText.Repr | server/opic_problems_router.py:320-321 | The text is enclosed in the chosen quote and is at least two longer than the message. |
| PyText.ReprRoundTrip | server/opic_problems_router.py:320-321 | `repr(s)` read back as a Python string literal gives `s`, for every text. |
| PyText.ReprPlain | server/opic_problems_router.py:320-321 | A printable text with no backslash and not both quotes is written as itself between the quotes. |
| QuestionBank.AllNumbersCount | server/opic_problems_router.py:178-179 | The numbers over all sets are as many as the total question count. |
| ModeGenerators.GenerateUnexpected | server/opic_problems_router.py:87-93 | It fails only with the errors of drawing from the unexpected bank, and always succeeds on a usable bank. A success is one set, a block of `n` drawn from a topic of the bank, whose count is its size. |
| ModeGenerators.GenerateSurvey | server/opic_problems_router.py:95-109 | Fewer than two topics fails with the fixed message. Otherwise a failure is a topic's error, and a usable bank succeeds. A success is two sets on different topics, each drawn with n=3 and numbered from 1, whose count is the sum of their sizes. |
| ModeGenerators.DrawKeyed | server/opic_problems_router.py:117-123 | The key loop yields one question per non-empty key, in key order. Each is numbered by its key's position and typed by its key, with a text from that key's list. |
| ModeGenerators.KeyedSet | server/opic_problems_router.py:111-127 | An empty bank fails. It fails only with the empty-bank error or the fixed message for a topic with no non-empty key. It succeeds when every topic has some key. A success is a non-empty keyed block of a bank topic. |
| ModeGenerators.GenerateRoleplay | server/opic_problems_router.py:111-127 | As KeyedSet for keys 11/12/13 numbered 1/2/3, with the message "No questions found for topic: ". The count is the number of questions. |
| ModeGenerators.GenerateAdvanced | server/opic_problems_router.py:182-198 | As KeyedSet for keys 14/15 numbered 1/2, with the message "No advanced questions for topic: ". The count is the number of questions. |
| ModeGenerators.SlotsNonEmpty | server/opic_problems_router.py:119-125 | Some question is selected exactly when some key has a non-empty list. |
| ModeGenerators.SlotOrder | server/opic_problems_router.py:117-122 | Selected slots carry numbers of their keys, strictly increasing when the key numbers are. A skipped key leaves a gap. |
| ModeGenerators.SlotsFull | server/opic_problems_router.py:117-122 | When every key has questions, the i-th slot is exactly the i-th key and number. |
| ModeGenerators.Renumber | server/opic_problems_router.py:144 | The in-place loop leaves the array equal to its old contents renumbered from `start`. |
| ModeGenerators.RenumberBlock | server/opic_problems_router.py:143-149 | A block copied into an array and renumbered there is the renumbered block. |
| ModeGenerators.RenumberedSet | server/opic_problems_router.py:143-154 | It fails exactly as the draw does and succeeds on a usable bank. A success is a block drawn with n=3 from a bank topic (the given one, if given), numbered from `start`. |
| ModeGenerators.GenerateFull15 | server/opic_problems_router.py:129-180 | Fewer than two survey topics fails with `random.sample`'s ValueError. Any failure is one of the five steps' errors, and healthy banks always succeed. A success has six sets: the intro as Q1, survey blocks from 2 and 5 on different topics, an unexpected block from 8, role-play 11/12/13 and advanced 14/15. Its count is the total. |
| MockTestNumbering.GeneratedBlock | server/opic_problems_router.py:143-154 | A drawn block of 3 numbered from `first` lies in first..first+2, strictly increasing. It fills all three when the topic can supply two more. |
| MockTestNumbering.KeyedBlock | server/opic_problems_router.py:160-176 | Keyed numbers within a range stay within it, strictly increasing. |
| MockTestNumbering.Full15Blocks | server/opic_problems_router.py:131-176 | The six sets' numbers lie in 1, 2–4, 5–7, 8–10, 11–13 and 14–15, each strictly increasing. |
| MockTestNumbering.Full15Numbers | server/opic_problems_router.py:178-180 | All numbers of a mock test are strictly increasing within 1..15, and the count equals their number, at most 15. |
| MockTestNumbering.Full15Sizes | server/opic_problems_router.py:131-176 | With full banks the sets have 1, 3, 3, 3, 3 and 2 questions. |
| MockTestNumbering.Full15Complete | server/opic_problems_router.py:129-180 | With full banks the count is 15 and the numbers are exactly 1..15. |
| MockTestNumbering.SurveyCount | server/opic_test/main.py:91-105 | A survey's count is the sum of its two set sizes, between 2 and 6, and each set starts at number 1. |
| ModeDispatch.RunMode | server/opic_test/main.py:380-391 | survey, roleplay, advanced and full15 run their generators, and any other mode runs unexpected with `n`. A failure is that generator's error, a usable bank succeeds, and a success has that generator's shape. |
| ProblemsApi.GenerateCount | server/opic_problems_router.py:315 | `n` is used when positive, otherwise 3, so the count asked for is always positive. |
| ProblemsApi.PreviewCount | server/opic_problems_router.py:339 | `n` is used when non-zero, otherwise 3. |
| ProblemsApi.ServerError | server/opic_problems_router.py:320-321 | Every exception becomes a 500 whose detail is `str(e)`: a ValueError's message as is, and a KeyError's `repr`, which reads back as the message. |
| ProblemsApi.InvalidModeSwallowed | server/opic_problems_router.py:317-321 | The 400 for an unknown mode comes out as a 500 with detail "400: Invalid mode". |
| ProblemsApi.ApiGenerateAsWritten | server/opic_problems_router.py:303-321 | An unknown mode gets a 500 "400: Invalid mode". For a known mode a failure is a 500 over one of its generator's errors, a usable bank succeeds, and a success has the mode's shape for the count of GenerateCount. |
| ProblemsApi.ApiGenerate | server/opic_problems_router.py:303-321 | The same, except that an unknown mode gets the 400 "Invalid mode". |
| ProblemsApi.ApiPreview | server/opic_problems_router.py:324-342 | An error payload holds `str(e)` of one of the mode's errors, a usable bank gives a generation, and a generation has the mode's shape for PreviewCount. The page is the unescaped rendering of the payload. |
| GeneratorApp.ServedMode | server/opic_test/main.py:386-389 | `full13` is served as `full15`, and every other mode as itself. |
| GeneratorApp.Generate | server/opic_test/main.py:374-398 | An error payload holds `str(e)` of one of the served mode's errors, a usable bank gives a generation, and a generation has the served mode's shape with n=3. The page is the escaped rendering. |
| GeneratorApp.Full13IsFull15 | server/opic_test/main.py:386-387 | A `full13` result is a full mock test. |
| GeneratorApp.FailurePageMessage | server/opic_test/main.py:392-398 | An exception's payload renders as the failure page, whose message unescapes to `str(e)`. |
| HtmlRender.EscapeChar | server/opic_test/main.py:222 | A markup character becomes an entity starting with `&`, and any other character stays itself. |
| HtmlRender.Escape | server/opic_test/main.py:222-237 | Escaping never shortens a text. |
| HtmlRender.EscapeRoundTrip | server/opic_test/main.py:222-237 | Unescaping the escaped text gives the original back. |
| HtmlRender.EscapeNoMarkup | server/opic_test/main.py:222-237 | An escaped text contains no `<` and no `>`. |
| HtmlRender.EscapePlain | server/opic_test/main.py:222-237 | A text without markup characters is unchanged by escaping. |
| HtmlRender.BadgeLabel | server/opic_test/main.py:199-204 | "introduce" becomes "INTRO" and "11" to "15" stay unchanged. Only "introduce" and the four survey types change; anything else stays unchanged. |
| HtmlRender.BadgesOfKinds | server/opic_test/main.py:199-204 | description, routine, comparison and experience show 묘사, 루틴, 비교 and 경험. The intro shows INTRO, and keyed questions show their key. |
| HtmlRender.BadgesDistinguishKinds | server/opic_test/main.py:199-204 | Different question types that the generators produce get different badges. |
| HtmlRender.TitleFor | server/opic_test/main.py:227-228 | The title is "문항" exactly for a mode outside the five known ones. |
| HtmlRender.RenderSection | server/opic_test/main.py:230-242 | A section has one item per question. |
| HtmlRender.Render | server/opic_test/main.py:206-294 | An error payload gives the failure page, and only it does. A result page has one section per set. |
| HtmlRender.RenderEscaped | server/opic_test/main.py:232-237 | With escaping, each topic and question text unescapes to the original. A question's text holds no `<`, `>` or quote, and its number and badge are the question's. |
| HtmlRender.RenderRaw | server/opic_problems_router.py:234-248 | Without escaping, topics and question texts appear verbatim. |
| HtmlRender.RenderFailure | server/opic_problems_router.py:211-227 | The error page shows the message verbatim in the router. In the standalone app the message is escaped and unescapes back to it. |
| ClockFormat.Pad2 | UI/src/pages/Record.tsx:48 | The padded text is all digits, at least two, and exactly two below 100. |
| ClockFormat.Clock | UI/src/pages/Record.tsx:45-49 | The text has a colon third from the end and is at least 5 long, exactly 5 below 100 minutes. |
| ClockFormat.ClockRoundTrip | UI/src/pages/Practice.tsx:95-99 | Reading the clock text back gives the seconds: minutes×60 + seconds of the minute. |
| ClockFormat.ClockInjective | UI/src/pages/Record.tsx:45-49 | Different elapsed times show different texts. |
| Decimal.ParseDigitString | UI/src/pages/Record.tsx:161 | The decimal text of a number reads back as that number. |
| RecordSession.MessageOr | UI/src/pages/Record.tsx:130 | A non-empty message is kept, and an empty one gives way to the fallback. |
| RecordSession.NotOkMessage | UI/src/pages/Record.tsx:161 | The text starts with the status's digits, which read back as the status, then a space and the status text, and it ends with ": " and the body. |
| RecordSession.TimerText | UI/src/pages/Record.tsx:45-49 | The timer text for an elapsed time in milliseconds reads back as the whole seconds elapsed, and it is five characters below 100 minutes. |
| RecordSession.Session.constructor | UI/src/pages/Record.tsx:55-69 | The page starts ready, with no URL, no analysis, no error, no recorder, no chunks, 0 elapsed and no timer. |
| RecordSession.Session.StopTimer | UI/src/pages/Record.tsx:96-101 | The interval is cleared and the handle is null. With no timer nothing changes, so it is idempotent. |
| RecordSession.Session.StartTimer | UI/src/pages/Record.tsx:84-94 | It records the start and shows 0. The old interval is cleared before the one new interval is installed. |
| RecordSession.Session.Tick | UI/src/pages/Record.tsx:88-93 | While the timer runs with a start set, elapsed becomes now minus start, and the timer text then reads back as the whole seconds since the start. Nothing else changes. |
| RecordSession.Session.StartRecording | UI/src/pages/Record.tsx:103-134 | Without `getUserMedia` it goes to error with the fixed message and leaves the timer as it was. A grant clears the chunks, analysis and error, keeps the recorder, enters recording and starts the timer. A throw goes to error with the message or the fallback and stops the timer. It keeps the chunks when thrown before they are cleared, and leaves them empty when `start()` throws. Every case but a grant keeps elapsed time and start. |
| RecordSession.Session.DataAvailable | UI/src/pages/Record.tsx:113-115 | A non-empty chunk is appended in arrival order, and an empty one changes nothing. Nothing else changes: status, URLs, analysis, error, recorder, elapsed time and timer are kept. |
| RecordSession.Session.OnStop | UI/src/pages/Record.tsx:116-122 | The chunks become a new URL and the old URL is revoked. The only live URL is the new one. The page is stopped and its timer cleared; the shown elapsed time, the start, the chunks, analysis, error and recorder are kept. |
| RecordSession.Session.StopRecording | UI/src/pages/Record.tsx:136-140 | The recorder is dropped, and without one nothing changes. Status, chunks, URLs, analysis, error, elapsed time and timer are kept. |
| RecordSession.Session.BeginUpload | UI/src/pages/Record.tsx:142-153 | Without a recording it goes to error with the fixed message and sends nothing. Otherwise it sends the recording's chunks, goes to uploading, and clears the error and analysis. Chunks, URLs, recorder, elapsed time and timer are kept. |
| RecordSession.Session.FinishUpload | UI/src/pages/Record.tsx:158-169 | From any state the page reached meanwhile, success stores the analysis and sets stopped. A response that is not ok, or a throw, sets error with its message or the fallback and keeps the analysis. The chunks, URLs, recorder, elapsed time, start and timer are untouched. |
| RecordSession.Session.Upload | UI/src/pages/Record.tsx:142-170 | With no recording: error with the fixed message and no request. Otherwise the recording's chunks are sent; success gives stopped with the analysis and no error, and a failure gives error with a non-empty message and no analysis. Chunks, URLs, recorder, elapsed time, start and timer are kept. |
| PracticeSession.Session.constructor | UI/src/pages/Practice.tsx:7-15 | The page starts idle, with no error, 0 elapsed, no audio, no recorder, no chunks and no timer. |
| PracticeSession.Session.StopTimer | UI/src/pages/Practice.tsx:36-41 | The interval is cleared and the handle is null. With no timer nothing changes. |
| PracticeSession.Session.StartTimer | UI/src/pages/Practice.tsx:29-34 | The old interval is cleared before the single new one is installed. |
| PracticeSession.Session.Tick | UI/src/pages/Practice.tsx:31-33 | Each tick adds exactly 1 to elapsed while the timer runs. |
| PracticeSession.Session.PrepareRecorder | UI/src/pages/Practice.tsx:46-51 | The new recorder is kept but not yet started, and chunks, elapsed and audio are cleared. State, error and timer are unchanged. |
| PracticeSession.Session.RequestMic | UI/src/pages/Practice.tsx:43-79 | A grant resets chunks, elapsed and audio, starts the timer and enters recording. A failure before a recorder exists gives denied (for NotAllowedError) or error, each with its message, and changes nothing else. When `start()` throws, the recorder is already stored and chunks, elapsed and audio already cleared; the timer is not started and the state is denied or error. |
| PracticeSession.Session.DataAvailable | UI/src/pages/Practice.tsx:53-57 | A non-empty chunk is appended, and an empty one changes nothing. State, audio, URLs, error, recorder, elapsed time and timer are kept. |
| PracticeSession.Session.OnStop | UI/src/pages/Practice.tsx:59-64 | The chunks become a new URL, the timer stops and the page is stopped. The recorder is kept and is inactive, as it is whenever `onstop` fires; chunks, elapsed time and error are kept. |
| PracticeSession.Session.StopRecording | UI/src/pages/Practice.tsx:81-85 | The recorder stops only while it records, and otherwise nothing changes. |
| PracticeSession.Session.RecordButton | UI/src/pages/Practice.tsx:116 | From idle or stopped the button requests the microphone. In any other state it only stops, so denied and error never restart. |
| PracticeSession.Session.ResetAll | UI/src/pages/Practice.tsx:87-93 | Back to idle with no audio, 0 elapsed, no error and no chunks. |
| PracticeSession.Session.Unmount | UI/src/pages/Practice.tsx:19-27 | The timer stops, and no recorder is left recording. |
| Hex.HexValueOf | UI/src/contexts/AuthContext.tsx:17-24 | A hexadecimal digit as written reads back as its value. |
| AuthContext.EscapeChar | UI/src/contexts/AuthContext.tsx:24 | A character is written as itself exactly when it is neither a control character nor one with a short escape; otherwise it is written as an escape starting with a backslash. No control character is written. |
| AuthContext.EscapeJson | UI/src/contexts/AuthContext.tsx:24 | The string body is at least as long as the text and holds no control character. |
| AuthContext.Unescape | UI/src/contexts/AuthContext.tsx:19 | Every two-character escape read is the one written for its character, except `\/`. |
| AuthContext.ReadEscapeOf | UI/src/contexts/AuthContext.tsx:17-24 | The escape written for a character, short or `\u00xx`, reads back as that character. |
| AuthContext.ReadCharThen | UI/src/contexts/AuthContext.tsx:17-24 | The text written for one character reads back as that character, whatever follows. |
| AuthContext.ReadEscaped | UI/src/contexts/AuthContext.tsx:17-24 | A JSON string body reads back as the text it escapes. |
| AuthContext.DecodeEncode | UI/src/contexts/AuthContext.tsx:17-24 | `JSON.parse(JSON.stringify(u))` gives back `u`. |
| AuthContext.LoginStore | UI/src/contexts/AuthContext.tsx:22-26 | `auth_user` holds the user's JSON. `auth_token` is set only for a non-empty token and is otherwise untouched. Every other key is unchanged. |
| AuthContext.LogoutStore | UI/src/contexts/AuthContext.tsx:28-32 | Both keys are removed and every other key is unchanged. |
| AuthContext.RestoredUser | UI/src/contexts/AuthContext.tsx:17-20 | A missing `auth_user` restores nobody. |
| AuthContext.RestoreAfterLogin | UI/src/contexts/AuthContext.tsx:17-26 | A login followed by a remount restores the same user. |
| AuthContext.RestoreAfterLogout | UI/src/contexts/AuthContext.tsx:17-32 | After a logout a remount restores nobody. |
| AuthContext.AuthProvider.constructor | UI/src/contexts/AuthContext.tsx:15 | The provider starts with no user. |
| AuthContext.AuthProvider.Restore | UI/src/contexts/AuthContext.tsx:17-20 | The mount effect sets the stored user when one parses. Otherwise the user is kept, and the store is unchanged. |
| AuthContext.AuthProvider.Login | UI/src/contexts/AuthContext.tsx:22-26 | The user is set and the store becomes LoginStore. |
| AuthContext.AuthProvider.Logout | UI/src/contexts/AuthContext.tsx:28-32 | The user is null and the store becomes LogoutStore. |
| AuthContext.AuthProvider.View | UI/src/contexts/AuthContext.tsx:34 | `isAuthed` holds exactly when there is a user. |
| AuthContext.UseAuth | UI/src/contexts/AuthContext.tsx:39-43 | Outside a provider it fails with the fixed message, and only there. Inside, it gives the context value. |
| JsText.TrimEnds | UI/src/pages/MyPage.tsx:24 | A trimmed text has no white space at either end. It is empty exactly for a blank text. |
| JsText.TrimIdempotent | UI/src/pages/MyPage.tsx:24 | Trimming twice is trimming once. |
| JsText.TrimDropsSpace | UI/src/pages/MyPage.tsx:24 | What `trim` removes is white space. |
| JsText.Before | UI/src/pages/MyPage.tsx:25 | `split(sep)[0]` is a prefix without `sep`, followed by `sep` when shorter. It is the whole text exactly when `sep` does not occur. |
| MyPage.EmptyPrefixShowsNothing | UI/src/pages/MyPage.tsx:22-27 | The code as written greets a blank name with email "@example.com" with an empty name. |
| MyPage.DisplayName | UI/src/pages/MyPage.tsx:22-27 | The corrected rule never gives an empty name, and no user gives "사용자". |
| MyPage.DisplayNameChoice | UI/src/pages/MyPage.tsx:23-26 | A non-blank name is shown trimmed. Otherwise an email with a non-empty part before "@" shows that part, and anything else shows "사용자". |
| MyPage.DisplayNameAgrees | UI/src/pages/MyPage.tsx:22-27 | The corrected rule agrees with the code wherever the code shows a non-empty name. |
| MyPage.CardButton | UI/src/pages/MyPage.tsx:81-88 | A disabled card has no click handler. The tomorrow card reads "대기중", and the others read their call to action. |
| MyPage.CardButtons | UI/src/pages/MyPage.tsx:36-88 | Exactly the tomorrow card has no handler. The other two lead to /practice and to the replay of yesterday's question. |
| LoginPage.GetFrom | UI/src/pages/Login.tsx:6-9 | A non-empty string `from` is the target, and anything else gives "/mypage". |
| LoginPage.DeriveName | UI/src/pages/Login.tsx:25-26 | The name is the text before the first "@" (the whole email without "@"), or "사용자" when that is empty. |
| LoginPage.Show | UI/src/pages/Login.tsx:18-20 | An authenticated visitor is redirected to `from`, and only they are. |
| LoginPage.Submit | UI/src/pages/Login.tsx:22-29 | It logs in as "u1" with the derived name and the email, stores "FAKE_TOKEN", and navigates to `from`. |
| LoginPage.SubmitThenRestore | UI/src/pages/Login.tsx:22-29 | After a login from the form, a remount restores that user, and the login page then redirects. |

## Left out

- Loading the JSON banks from disk is not modelled. The four banks are one `Banks` parameter, shared by the router and the standalone app, which each load their own copy. Neither `_load_bank`/`load_bank` nor the missing-file error is modelled.
- The server's `/topics` routes only list a bank's keys and are not modelled.
- FastAPI's regular-expression validation of `mode` (a 422 before the handler runs) is not modelled. The handlers are modelled over any mode string.
- The response wrappers are not modelled. The standalone app's `format=json` branch serializes the payload the model returns, with no logic of its own.
- The CSS and the HTML template text are not modelled. A page is the failure message, or a title with one section per set and one item per question; the rendered HTML text is not produced.
- Probability distributions of `random.choice`/`random.sample` are not modelled. Properties hold for every choice.
- ModeGenerators.GenerateFull15: Python's text for `random.sample` on fewer than two topics is written as a constant. It comes from the Python runtime, not from this repository.
- The server's other module (speech upload, transcription, analysis, text-to-speech) is not part of this model. It is I/O and foreign calls.
- The recorder, media streams, Blobs, `fetch` and object URLs are abstract handles and handler arguments. `speak` and speech synthesis are not modelled.
- RecordSession.Session.Tick: elapsed time is kept in whole milliseconds, while the code divides by 1000 into floating-point seconds. The timer text is stated only for a clock that does not run backwards, where `fmt` of a negative time is not modelled.
- React's asynchronous state updates and stale closures are not modelled; each handler is one atomic step. Steps of different handlers may interleave, as when an upload settles after a new recording started; FinishUpload then sets the status while the recorder and timer keep running, as in the code. For example, `onstop` revokes the URL its closure captured, which may be older than the current one; the model revokes the current one.
- QuestionBank.ErrorText: Python's `repr` escapes a character that `str.isprintable` rejects; above U+00FF that depends on the Unicode database, and the model takes every such character as printable. Inside Latin-1 the printable set is the one Python uses.
- RecordSession.Session.StartRecording: a browser without `getUserMedia` goes to error and returns before `stopTimer`. A running timer keeps running; the model follows the code.
- The practice page never revokes its object URLs, so `urls` only grows there, as in the code.
- AuthContext.DecodeUser: JSON is modelled only for the shape `login` writes: the three fields in `JSON.stringify` order, with no whitespace. Other JSON texts, such as reordered fields or added whitespace, are treated as a parse failure, although `JSON.parse` accepts them. DecodeEncode is a round trip of that shape.
- AuthContext.ReadEscape: a `\u` escape of a surrogate, alone or in a pair, is treated as a parse failure. `JSON.stringify` never writes one for the texts modelled here, which hold no lone surrogates.
- MyPage cards' titles and descriptions are modelled as data. Their styling and aria labels are not.

## Findings

| source | as written | input that shows it | evidently intended | confidence | as-written member | corrected member |
|---|---|---|---|---|---|---|
| server/opic_problems_router.py:317-321 | The `HTTPException(400, "Invalid mode")` is raised inside the `try`, so the blanket `except Exception` re-raises it as a 500 whose detail is "400: Invalid mode". | `POST /problems/generate` with mode "foo" | A 400 "Invalid mode" for an unknown mode | high, not executed | ProblemsApi.ApiGenerateAsWritten, ProblemsApi.InvalidModeSwallowed | ProblemsApi.ApiGenerate |
| UI/src/pages/MyPage.tsx:25 | An email that starts with "@" passes the `includes("@")` test, and its empty part before "@" is returned as the name. | user `{ id: "u1", name: " ", email: "@example.com" }` | Fall through to "사용자" when the part before "@" is empty, as the login page does with `|| "사용자"` | medium, not executed | MyPage.EmptyPrefixShowsNothing | MyPage.DisplayName |
