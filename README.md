# EduBlink, modelled in Dafny

EduBlink is a teaching assistant. A browser client (`public/app.js`) shows nine
content tools: MCQ generator, worksheet, lesson plan, summarizer, proofreader,
slide outline, report-card comments, essay grader and text rewriter. The client
sends a tool's form to a FastAPI server (`server.py`). The server rate-limits
the request, checks it and forwards a prompt to a chat-completion model. It then
strips a Markdown code fence from the model's reply, parses the reply as JSON
and returns it. The client classifies the server's answer, toasts the outcome
and renders the payload with the tool's renderer.

This project models that logic and proves properties of it:

- `Json.dfy`: the JSON values both sides exchange. It also models the
  JavaScript semantics the client relies on:
  - truthiness and `||`;
  - property reads that throw on `null`/`undefined`;
  - the text a template literal or `Error` makes of a value;
  - decimal digits.
- `Tools.dfy`: the nine tool names, and parsing a name back to its tool.
- `RateLimit.dfy`: `check_rate_limit`. The pure `Step`/`Call` functions give
  its specification. The class `RateLimiter` holds the in-place table and
  implements it.
- `Fences.dfy`: Python's `strip`, `split('\n')` and `'\n'.join`, and the
  fence-stripping block. The block is modelled as a method that reassigns
  `lines` step by step, proved against the function `Unfenced`.
- `Server.dfy`: the `/api/health` and `/api/generate` handlers:
  - the key-length predicates;
  - the order of the checks (validation, rate limit, API key, tool name);
  - the inputs each prompt reads;
  - how the upstream reply becomes the response;
  - the handler as a method over the rate limiter.
- `Forms.dfy`:
  - `generateToolForm`, as the declared fields of each form;
  - `Object.fromEntries`;
  - JavaScript's `parseInt` on decimal text;
  - the numeric-coercion loop of `handleFormSubmit`.
- `Render.dfy`: `displayResults` and the nine `render*Results` functions. Each
  renderer is a function from the payload to a view of what the panel shows,
  or to a TypeError where the JavaScript throws.
- `App.dfy`: the client's `AppState` as a class:
  - the theme and sidebar toggles;
  - the tool modal;
  - `handleFormSubmit`;
  - `generateContent`'s ordered classification of the reply;
  - `displayResults`' update of the results panel;
  - `copyVariation`.
- `Findings.dfy`: properties that join the client and the server. These are
  the keys a form submits against the keys a prompt reads, and what the client
  shows for the server's error bodies.

I/O and foreign code are parameters:

- the upstream HTTP call is a function from the prompt to a reply;
- `json.loads` and `JSON.parse` are a parse function, or an already-parsed
  `Option<Json>`;
- `fetch` is a `Reply` value;
- `datetime.now()` is an integer clock in minutes;
- `localStorage` and the window width are constructor arguments.

The code fixes two behaviours that a plain description would not predict, and
the model follows the code:

- A client seen for the first time gets a table entry whose reset time is the
  current time. Its first request therefore takes the "inside the window"
  branch: the count goes to 1 and the reset time is kept. Its window closes at
  once instead of lasting 15 minutes. This is stated in
  `RateLimit.NewClient`.
- `generateToolForm` returns `forms[tool] || placeholder`. A name inherited by
  every JavaScript object, such as `toString` or `constructor`, therefore gives
  the inherited member and not the placeholder. Only other names give
  `'<p>Form not available</p>'`.

## Model

| member | source | states |
|---|---|---|
| RateLimit.Step | server.py:48-57 | Past the reset time, the call is allowed and the entry becomes count 1 with reset time now + 15. Inside the window, a count of 100 or more is refused and the entry is kept. Otherwise the call is allowed, the count goes up by exactly 1 and the reset time is kept. The refusal happens exactly when now <= reset time and count >= 100. |
| RateLimit.Call | server.py:44-57 | After a call, the caller always has an entry, and its verdict and new entry are those of `Step` on its stored or default entry. No other key is added, removed or changed. A table within the limit stays within it. |
| RateLimit.RunBounded | server.py:44-57 | From a table within the limit (the empty table included), no sequence of calls from any clients at any times makes a count exceed 100. |
| RateLimit.WindowLimit | server.py:53-57 | Within one window (every call at or before the entry's reset time), a client whose count is c gets at most 100 - c further requests allowed. |
| RateLimit.NewClient | server.py:32 | A client not in the table is allowed. Its new entry is count 1 with reset time equal to the call's own time. |
| RateLimit.RateLimiter.constructor | server.py:32 | The table starts empty. |
| RateLimit.RateLimiter.Check | server.py:44-57 | The in-place update leaves the table equal to `Call`'s. It returns the body `{"error": "Too many requests"}` exactly when `Call` refuses and nothing otherwise. Other clients' entries are untouched, and every count stays at most 100. |
| Fences.TrimStart | server.py:213 | `lstrip` removes a prefix made only of whitespace, and the result does not start with whitespace. |
| Fences.TrimEnd | server.py:213 | `rstrip` removes a suffix made only of whitespace, and the result does not end with whitespace. |
| Fences.Split | server.py:215 | `split('\n')` gives at least one piece, and no piece holds a line feed. |
| Fences.JoinSplit | server.py:215-220 | Joining the pieces of a split with line feeds gives the original string. |
| Fences.SplitJoin | server.py:215-220 | Splitting the join of line-feed-free lines gives those lines back. |
| Fences.SplitAround | server.py:215 | Splitting `a + "\n" + b` gives the pieces of `a` followed by the pieces of `b`. |
| Fences.KeptLines | server.py:213-220 | On a fenced reply, the lines of the result are exactly the stripped reply's lines 1 up to the last line, or up to the line before it when that line is a bare fence. They keep their order and are not altered. |
| Fences.Unwrap | server.py:212-220 | A reply written as a fence with an optional language tag, then the body, then a closing fence line, comes out as exactly the body, whatever the body holds. |
| Fences.StripCodeFence | server.py:213-220 | The step-by-step line edits compute `Unfenced`. When the stripped content does not start with three backticks, the content is returned unchanged. |
| Server.KeyConfigured | server.py:64 | `/api/health` reports the key configured exactly when it is longer than 20 characters. A configured key is never rejected by `generate`. |
| Server.KeyRejected | server.py:88 | `generate` rejects the key exactly when it is shorter than 20 characters. |
| Server.TwentyCharacterKey | server.py:88 | A key of exactly 20 characters is accepted by `generate` and reported unconfigured by `/api/health`. |
| Server.Lookups | server.py:92-181 | Each `inputs.get(key, default)` gives the submitted value when the key is present and the default otherwise. |
| Server.PromptKeysAsWritten | server.py:92-181 | Each tool's prompt reads each of its keys once, with a default. The essay grader reads "essay" with the default "". |
| Server.PromptKeys | server.py:140 | Corrected: the same table, except that the essay grader reads "essayText", the key its form sends, with the same default. |
| Server.PromptFor | server.py:92-181 | As written: the prompt holds, for each key of the handler's table in order, the submitted value when the key is present and the default otherwise. |
| Server.PromptForCorrected | server.py:140 | Corrected: the prompt differs from the handler's only in the essay grader's first value, which is the submitted "essayText". |
| Server.Admit | server.py:74-181 | The checks run in order: a validation error gives 400, a rate-limit refusal gives 429 with the refusal body, a short key gives 500 "API key not configured", and a name outside the nine gives 400 "Unknown tool: name". A request is forwarded exactly when it passes all four checks. The forwarded prompt is the named tool's `PromptFor`, read from the handler's table as written. |
| Server.Respond | server.py:183-236 | Corrected: a non-200 upstream status is passed on with "OpenAI API error". A success carries the requested tool's name, and only follows a 200 reply with content. |
| Server.RespondAsWritten | server.py:183-236 | As written: every failure is answered with 500. A non-200 upstream status s, raised inside the `try`, becomes 500 with "s: OpenAI API error". A success carries the requested tool's name, and only follows a 200 reply with content. |
| Server.UpstreamStatusSwallowed | server.py:202-236 | For any upstream status other than 200 and 500, the handler as written answers 500, and the corrected handler answers that status. |
| Server.RespondData | server.py:207-232 | A success's `data` is the parse of the reply's content with its code fence removed. |
| Server.FencedReply | server.py:212-232 | A reply of a fenced JSON body is answered with the parse of that body. |
| Server.Answer | server.py:67-236 | As written: a refusal is answered as decided. After forwarding, every failure is a 500, and a success names the forwarded tool. |
| Server.AnswerCorrected | server.py:202-205 | Corrected: the answer differs from the handler's only when the upstream replies with a non-200 status, which is then passed on with "OpenAI API error". |
| Server.SuccessWasAdmitted | server.py:74-236 | A successful response names the requested tool. Only a valid, allowed request with an accepted key, naming one of the nine tools, ever gets one. |
| Server.Generate | server.py:67-236 | A validation error leaves the rate-limit table unchanged. A valid request is always counted by the limiter, even when it is then refused for its key or its tool name. The response is the as-written `Answer(Admit(...))` on the limiter's verdict: the essay prompt reads "essay", and an upstream error status becomes 500 "<status>: OpenAI API error". The table stays within the limit. |
| Tools.Parse | server.py:92-181 | A name selects a tool exactly when it is one of the nine names, and then it is that tool's name. |
| Tools.ParseName | public/app.js:586-617 | Every tool's name parses back to that tool, and the nine names are distinct. |
| Forms.FormFields | public/app.js:232-488 | Every number input starts inside its min and max bounds. Every select starts on one of its options. |
| Forms.GenerateToolForm | public/app.js:232-488 | The nine tool names get their forms. An inherited object member name gets that member. Exactly the remaining names get the placeholder markup `<p>Form not available</p>`. |
| Forms.FormsWellFormed | public/app.js:233-487 | Every form has fields with distinct names. The first field is required, except on the report-card form, which requires none. Every number input has a name in the coercion allow-list. |
| Forms.FromEntries | public/app.js:497-498 | `Object.fromEntries` has a key exactly for each entry's name. Every key holds the value of the last entry with that name. |
| Forms.FromDistinctEntries | public/app.js:497-498 | With distinct names, each name holds its own entry's value. |
| Forms.Magnitude | public/app.js:503 | `parseInt`'s digits give a number exactly when the text starts with a digit. |
| Forms.ParseInt | public/app.js:503 | `parseInt` gives a number exactly when the text, after leading white space, starts with a digit, or with a sign followed by a digit. Otherwise it gives NaN. |
| Forms.ParseDigits | public/app.js:503 | `parseInt` of a run of digits is their decimal value. |
| Forms.ParseNegative | public/app.js:503 | `parseInt` of a minus sign followed by a run of digits is the negated value of the digits. |
| Forms.ParseDecimal | public/app.js:503 | `parseInt` reads back every integer written in decimal, so "7" becomes 7. |
| Forms.CoercedNumber | public/app.js:500-504 | An allow-listed key holding an integer's decimal text is sent as that number. |
| Forms.CoerceOne | public/app.js:501-503 | Coercing one more key that holds non-empty text replaces that key's value with its `parseInt` and changes nothing else. |
| Forms.CoerceSkip | public/app.js:501-503 | Coercing a key that is missing or empty changes nothing. |
| Forms.Uncoerced | public/app.js:500-504 | A key outside the keys coerced still holds its text. |
| Forms.CoerceNumeric | public/app.js:500-504 | The `forEach` loop over the allow-list computes `Coerced`, one key at a time. |
| Render.ShownIf | public/app.js:733-742 | A conditional section is shown exactly when its value is truthy. |
| Render.Items | public/app.js:630 | `.map` has a receiver exactly when the value is an array. |
| Render.Texts | public/app.js:696 | `v.map(x => ...)` lists exactly when `v` is an array, and it then lists each element's text, in order. |
| Render.TextSection | public/app.js:693-698 | A `v && v.length > 0` section throws exactly when `v` passes the guard and is not an array. It lists every element's text when the guard passes, and nothing otherwise. |
| Render.ListedCases | public/app.js:693 | The guard `v && v.length > 0` passes for a non-empty array or string, and for an object whose own `length` property is above zero. It never passes for undefined, null, a number or a boolean. |
| Render.TextNumberDecimal | public/app.js:693 | JavaScript's number conversion reads back every integer written in decimal. |
| Render.TextLength | public/app.js:693 | An object whose `length` is the text of an integer passes the guard exactly when that integer is above zero. |
| Render.MapItems | public/app.js:630-644 | `items.map(f)` succeeds exactly when the callback succeeds on every element and its index. It then gives exactly the callback's results, in order. |
| Render.Label | public/app.js:636 | `String.fromCharCode(65 + i)` is a UTF-16 code unit, and it is letter A + i for i < 26. |
| Render.AnswerCode | public/app.js:641 | For a non-negative numeric `answerIndex`, the answer letter is the same code unit as the option label at that index. |
| Render.Choices | public/app.js:634-638 | Option i is labelled `Label(i)` and shows its text. It is marked correct exactly when `answerIndex` is i. |
| Render.McqQuestion | public/app.js:630-643 | A question throws exactly when it is null or its `options` is not an array. Otherwise it is numbered from 1 and shows `question` and `explanation`. Its options are `Choices` of `options` against `answerIndex`, and its answer letter is `AnswerCode(answerIndex)`. |
| Render.RenderMcq | public/app.js:627-645 | A non-array payload shows "Invalid data format", and only such a payload does. An array payload throws exactly when one of its questions throws. Otherwise question i is `McqQuestion` of element i at index i. |
| Render.McqAnswer | public/app.js:634-641 | Option k is marked correct exactly when `answerIndex` is k, so at most one is, and an out-of-range `answerIndex` marks none. When `answerIndex` is an in-range index, the answer line's letter is that option's label. |
| Render.McqNumbering | public/app.js:630-641 | Question i is numbered i + 1, and its options are lettered A, B, C, … |
| Render.WorksheetQuestion | public/app.js:650-682 | A question throws exactly when it is null, or it is an "mcq" question whose truthy `options` is not an array. It is numbered from 1 and shows its text, difficulty and points. The points are plural unless they are exactly 1. Options are listed exactly for an "mcq" question with truthy options, lettered from A with none marked. |
| Render.RenderWorksheet | public/app.js:650-682 | The worksheet throws exactly when the payload is undefined or null, or `questions` or `answerKey` cannot be mapped. The title is `title`, else "Worksheet". The instructions are `instructions`, else nothing. The questions and the answer key are their elements mapped in order. |
| Render.WorksheetAnswer | public/app.js:673-678 | An answer-key entry throws exactly when it is null. It is numbered from 1 and shows `answer` and `explanation`. |
| Render.LessonActivity | public/app.js:709-713 | An activity throws exactly when it is null. Its name is `activity`, else `name`, else "Activity". Its minutes are `time`, else `duration`, shown only when truthy. Its description is `description`, else nothing. |
| Render.RenderLessonPlan | public/app.js:687-724 | The lesson plan throws exactly when the payload is undefined or null, when `objectives` or `materials` passes its list guard and is not an array, or when `activities` passes its guard and cannot be mapped. An object with a `length` above zero passes the guard. The title defaults to "Lesson Plan" and the duration to "N/A". Objectives and materials are their listed texts. Activities are mapped when listed. Grade, assessment, differentiation and homework are shown when truthy. |
| Render.ObjectLengthThrows | public/app.js:693-698 | `objectives` given as `{"length": 1}` passes the guard and throws at `.map`. Given as `{"length": 0}`, the section is left out. |
| Render.RenderSummary | public/app.js:729-753 | The summarizer throws exactly when the payload is undefined or null, or when the key points (`keyPoints`, else `bulletPoints`) are truthy and not an array. The word counts are shown exactly when `wordCount` is truthy, as its `original` and `summary`. |
| Render.SummaryAliases | public/app.js:733-742 | `summary` is preferred to `tldr`, and `tldr` is shown only when `summary` is falsy. The key points listed are the texts of `keyPoints` when it is truthy, else those of `bulletPoints`, else none. |
| Render.ProofreadIssue | public/app.js:779-786 | An issue throws exactly when it is null or its kind is not a string. Its kind is `type`, else "correction". Its replacement is `correction`, else `suggestion`. Its original text is `original` and its explanation is `explanation`. |
| Render.IssueList | public/app.js:759 | `corrections` or `issues` or `[]` is always truthy. |
| Render.RenderProofread | public/app.js:758-795 | The proofreader throws exactly when the payload is undefined or null, or when the issue list passes its `length > 0` guard and cannot be mapped. The issues shown are the list's issues, each rendered by `ProofreadIssue`, in order, when the guard passes, and none otherwise. The original text and the assessment are shown when truthy. |
| Render.ProofreadObjectLength | public/app.js:777-781 | `corrections` given as `{"length": 2}` passes the guard and throws at `.map`. |
| Render.ProofreadAliases | public/app.js:759-765 | The issues shown are those of `corrections` when it is truthy, else those of `issues`, else none. A truthy list that is not an array shows none. `corrected` is preferred to `correctedText`, which is used only when `corrected` is falsy. |
| Render.PptSlide | public/app.js:808-820 | A slide throws exactly when it is null, or when its bullets are truthy and not an array. Its bullets are the texts of `content` when it is truthy, else those of `bullets`, else none. Its notes are `notes`, else `speakerNotes`, shown when truthy. |
| Render.RenderPpt | public/app.js:800-823 | The outline throws exactly when the payload is undefined or null, or when `slides` passes its `length > 0` guard and cannot be mapped. "No slides generated" is shown exactly when `slides` fails the guard. Otherwise each slide is rendered by `PptSlide`, in order. The title is `title`, else "Presentation". The estimated duration is shown exactly when it is truthy. |
| Render.PptObjectLength | public/app.js:806 | `slides` given as `{"length": 1}` passes the guard and throws at `.map`. |
| Render.ReportComment | public/app.js:835-845 | A comment throws exactly when it is null. It is headed by a truthy `category`, else "Variation n", counting from 1. The tone is shown when truthy. The text is `comment`, else `text`, else nothing. |
| Render.RenderReportCard | public/app.js:828-853 | The report card throws exactly when the payload is undefined or null, when `comments \|\| []` passes its `length > 0` guard and cannot be mapped, or when `suggestions` passes its guard and is not an array. The cards are the comments rendered by `ReportComment`, in order, when the guard passes, and none otherwise. The suggestions are listed when they pass their guard. |
| Render.ReportCardObjectLength | public/app.js:835 | `comments` given as `{"length": 1}` passes the guard and throws at `.map`. |
| Render.EssayRubricRow | public/app.js:865-872 | A rubric row throws exactly when it is null. Otherwise it shows its `category`, its `score` out of its `maxScore`, and its `feedback`. |
| Render.EssayFeedback | public/app.js:878-906 | The nested feedback sections are shown exactly when `feedback` is truthy. Then they throw exactly when its listed strengths or improvements is not an array. Otherwise they list those texts and show grammar and overall when truthy. |
| Render.RenderEssay | public/app.js:858-935 | The grade is `grade`, else "N/A". The score line is shown exactly when `score` is truthy, showing `score` out of `maxScore`, else out of 100. The essay throws exactly when the payload is undefined or null, a listed rubric cannot be mapped, the nested feedback throws, or a listed top-level strengths, areas for improvement or suggestions is not an array. The rubric rows, the nested feedback and the three top-level lists are each their listed contents. |
| Render.EssayStrengthsBoth | public/app.js:877-910 | With both nested and top-level strengths, the nested section lists the nested strengths and the top-level section lists the top-level ones, neither overwriting the other. |
| Render.RewriteVariation | public/app.js:941-952 | A variation throws exactly when it is null. Its number is a truthy `id`, else its position from 1. Its style and text are `style` and `rewrittenText`, else nothing. Its changes are `changes`, else "No summary provided.". |
| Render.VariationCount | public/app.js:958 | `variations?.length \|\| 0` is the length of an array or a string, and an object's own `length` when truthy. It is "0" for anything else. |
| Render.Comparison | public/app.js:954-963 | Without a truthy `comparison`, the line shows 0 words, 0 words and "N/A". With one, it shows its original and rewritten word counts and its readability. |
| Render.RenderRewrite | public/app.js:937-976 | The rewriter throws exactly when the payload is undefined or null, `variations \|\| []` cannot be mapped, or `suggestions \|\| []` is not an array. The cards are `variations \|\| []` mapped in order, and the heading's count is their number. The tips are the texts of `suggestions \|\| []`. The comparison line is that of `Comparison`. |
| Render.DisplayResults | public/app.js:579-622 | The nine names select their renderers, and any other name shows the raw JSON. |
| Render.RawOnlyForOtherNames | public/app.js:579-622 | The raw JSON is shown exactly for names outside the nine. No renderer produces it. |
| App.NextTheme | public/app.js:87 | The next theme is dark exactly when the theme was light. It is always light or dark. |
| App.ThemeTwice | public/app.js:86-89 | Toggling twice restores light or dark. Any other stored theme becomes dark and is not restored. |
| App.ErrorMessageAsWritten | public/app.js:553-555 | As written: the message is `detail` if truthy, else `error`, else "Generation failed". An object `detail` reads "[object Object]". |
| App.ErrorMessage | public/app.js:553-555 | Corrected: an error object in `detail` is read through to its `error` text. Otherwise the message is as written. |
| App.ClassifyAsWritten | public/app.js:540-563 | As written: a non-ok body fails with `ErrorMessageAsWritten`, so a body whose `detail` is an object fails with "[object Object]". |
| App.Classify | public/app.js:553-555 | Corrected: it differs from the classification as written only for a non-ok body whose `detail` holds a truthy `error`, and then only in the message. |
| App.ClassifyWith | public/app.js:540-563 | The checks run in order: a rejected fetch gives its message, an unparseable body gives "Server returned invalid response…", and a null body throws. A non-ok status gives the error message. Only an ok body with a truthy `success` is generated, and the payload is the whole body. |
| App.MissingSuccessFlag | public/app.js:557-563 | An ok reply without a truthy `success` gives "Unexpected response format". |
| App.Display | public/app.js:559 | With no tool, the raw JSON is shown. |
| App.Rendered | public/app.js:557-560 | A view is shown only for a generated payload. |
| App.ToastFor | public/app.js:540-570 | The toast is an error notice exactly when the classification as written failed, reading "❌ " and the message. It is the TypeError notice exactly for a null body or a renderer that throws. It is the success notice otherwise. |
| App.SuccessToast | public/app.js:557-560 | The success toast is shown exactly for an ok, parsed, non-null body with a truthy `success` whose `data` the tool's renderer can show. |
| App.Element | public/app.js:127 | `variations[index]` is the element for an in-range array index, and undefined past the end. |
| App.AppState.constructor | public/app.js:11-16 | The theme is the stored one unless empty, else light. The sidebar is open on a wide window. There is no tool and no result. |
| App.AppState.ToggleTheme | public/app.js:86-91 | The theme becomes `NextTheme`, is saved and is announced. Nothing else changes. |
| App.AppState.ToggleSidebar | public/app.js:96-99 | `sidebarOpen` is negated and nothing else changes, so two toggles restore it. |
| App.AppState.OpenToolModal | public/app.js:192-218 | The tool is remembered, and its form is shown in the open modal. |
| App.AppState.CloseToolModal | public/app.js:223-227 | The modal is closed and `currentTool` becomes null. Nothing else changes. |
| App.AppState.GenerateContent | public/app.js:523-570 | Loading is off on every path. The toast is `ToastFor`, from the classification as written. Only a generated payload becomes `currentResults`, and it stays set even when its renderer throws. The panel shows the rendered view exactly when rendering succeeds. Theme, sidebar, tool, modal and form are unchanged. |
| App.AppState.ShowResults | public/app.js:579-622 | The text rewriter's data is cached first. The panel opens with the view exactly when the renderer does not throw. |
| App.AppState.HandleFormSubmit | public/app.js:493-514 | The request carries the tool that was open before the modal closed, not null, and the coerced `fromEntries` of the form. The modal ends closed. The toast, results, view, panel and cached rewrite are those `GenerateContent` gives for that tool and reply. Theme, stored theme, sidebar and form are unchanged. |
| App.AppState.CopyVariation | public/app.js:125-135 | Text is copied exactly when `variations` and `variations[index]` are truthy. For an array element, the text is its `rewrittenText`. |
| Findings.SubmittedKeys | public/app.js:496-504 | The submitted inputs have exactly the form's field names as keys. |
| Findings.SubmittedText | public/app.js:496-504 | A text field reaches the server as the text typed. |
| Findings.EssayText | server.py:140 | As written, the essay prompt reads "essay", which the form never sends, so it grades "". Reading "essayText" grades the essay typed. |
| Findings.EssayUnread | server.py:140 | The "essay" key is never submitted, so the prompt gets its empty default. |
| Findings.EssayRead | public/app.js:404-405 | The corrected prompt gets the text typed into `essayText`. |
| Findings.ReportCardDetailsUnread | server.py:130 | The report-card prompt reads "studentInfo" and "focus", which its form never sends, so the defaults are used whatever is typed. |
| Findings.NotSubmitted | server.py:130 | "studentInfo" and "focus" are not keys of the report-card submission. |
| Findings.ReportCardDefaults | server.py:130 | Without those keys, the prompt uses "" and "overall performance". |
| Findings.RefusalMessage | public/app.js:553-555 | The 429 body is toasted as "[object Object]" as written, and as "Too many requests" once read through. |
| Findings.TextDetailShown | public/app.js:553-555 | Every server error with a non-empty text detail is toasted with that text. |
| Findings.SuccessReachesRenderer | public/app.js:557-559 | A success body is generated, and the renderer gets exactly the server's parsed `data`. |
| Findings.UpstreamErrorToast | server.py:202-205 | An upstream 401 is toasted "401: OpenAI API error" as written, and "OpenAI API error" once the status is passed on. |

## Left out

- DOM work is out: markup text, CSS classes, toast timers, the loading overlay's element, the resize listener, `handleNavClick`, `scrollToTools` and the learn-more modal. The model keeps only the state they display.
- `fetch`, `navigator.clipboard`, `localStorage`, downloads and printing are foreign browser APIs. They appear only as the values they give or take.
- The clipboard's success and failure toasts after `copyVariation` depend on a foreign promise, so they are not modelled.
- `checkServerHealth` and the health response's other fields are not modelled. Only the key predicate is.
- `JSON.parse` and `json.loads` are parameters: their internals are foreign code.
- Numbers in JSON are integers. Floating point, `NaN` arithmetic and fractional scores are not modelled.
- The upstream chat-completion call, its model, temperature, token limit and headers are left out. So are FastAPI routing, CORS and static files. The call is a parameter from prompt to reply.
- The prompt templates' text is left out. A prompt is modelled as the tool and the values it reads.
- `datetime.now()` is an integer clock in minutes, so calls in the same minute are simultaneous. In the source a new client's default entry takes its `reset_time` after `now` is read, so its second call is already past that time and restarts the window at count 1; in the model a second call in the same minute counts 2. The bound of 100 is unaffected.
- A request body that is not JSON is not modelled. `request.json()` at server.py:70 runs before the validating `try`, so the source answers such a body with the framework's 500. `Server.Generate` starts from the validation's result and can only answer 400.
- Concurrent requests are not modelled: async ordering, double submission and two requests racing on one rate-limit entry.
- Logging (`print`, `console`) is left out.
- String lengths are counted in code points, not UTF-16 code units. This only matters for characters outside the Basic Multilingual Plane.
- Forms.ParseInt: `parseInt` is modelled on decimal text after optional white space and a sign. A `0x` prefix, which JavaScript reads as hexadecimal (and `"0x"` alone as NaN), is read here as 0. The client never sends such text: every coerced field is a number input.
- Render.AnswerCode: a string or array `answerIndex` (coerced by `+`) is not modelled and gives no letter.
- Render.ProofreadIssue: `toUpperCase` on the issue kind is not modelled; the kind is kept as given.
- Render.TextNumber: JavaScript's conversion of text to a number is modelled for blank text and for an optionally signed run of decimal digits with white space around it. Decimal fractions, exponents, `0x`, `0o` and `0b` prefixes and "Infinity" read as NaN here. So a `length` property given as such text never passes a list guard in the model, while JavaScript may pass it.
- The handler and the client are modelled as written. The corrected members (`Server.PromptKeys`, `Server.PromptForCorrected`, `Server.Respond`, `Server.AnswerCorrected`, `App.ErrorMessage`, `App.Classify`) state the fixes under "## Findings". Nothing else is built on them.
- Text of a TypeError, the browser's own message, is not modelled. Such an error is shown as a generic error toast.
- The view of each renderer holds the shown values, not the HTML around them.

## Findings

| source | as written | input that shows it | evidently intended | confidence | as-written member | corrected member |
|---|---|---|---|---|---|---|
| server.py:202-205 | The `HTTPException` raised for a non-200 upstream status is caught by the blanket `except` and re-raised as 500 "<status>: OpenAI API error". | The upstream answers 401. | The upstream status is passed on with "OpenAI API error". | not executed | Server.UpstreamStatusSwallowed | Server.Respond |
| server.py:84-85 | The 429 detail is the object `{"error": "Too many requests"}`, and the client's `new Error(data.detail \|\| …)` shows it as "[object Object]". | The 101st request in a window. | The client shows "Too many requests". | not executed | Findings.RefusalMessage | App.ErrorMessage |
| server.py:140 | The essay grader reads `inputs['essay']`, but its form sends the essay as `essayText`, so an empty essay is graded. | Any submitted essay. | The essay typed is graded. | not executed | Findings.EssayUnread | Findings.EssayRead |
