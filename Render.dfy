/**
 * What the client's result renderers show for a tool's payload. Each
 * `render*Results` function is modelled as a function from the payload to a
 * view: the texts it interpolates, after the `||` fallbacks between alias
 * fields, and the sections it includes. A renderer that reads a property of
 * `null` or `undefined`, or calls `.map` on something that is not an array,
 * throws a TypeError; that is the `Err` case.
 */
module Render {
  import opened Json
  import opened Tools
  import Forms

  /** The text a template literal interpolates for a value: `undefined` for a
      missing property, otherwise JavaScript's ToString. */
  function Shown(v: Option<Json>): string {
    if v.Some? then ToText(v.value) else "undefined"
  }

  /** `${v ? ... v ... : ''}`: the value's text when it is truthy. */
  function ShownIf(v: Option<Json>): (r: Option<string>)
    ensures r.Some? <==> Truthy(v)
  {
    if Truthy(v) then Some(Shown(v)) else None
  }

  /** `obj.key` on a value that may be undefined or null. */
  function Read(obj: Option<Json>, key: string): Result<Option<Json>, Fault> {
    var m :- Props(obj);
    Ok(Get(m, key))
  }

  /** The property `key` of a JSON object, `undefined` otherwise. */
  function Field(obj: Option<Json>, key: string): Option<Json> {
    if obj.Some? && obj.value.JObj? && key in obj.value.fields then Some(obj.value.fields[key]) else None
  }

  /** The receiver of `v.map(...)`: an array, or a TypeError. */
  function Items(v: Option<Json>): (r: Result<seq<Json>, Fault>)
    ensures r.Ok? <==> v.Some? && v.value.JArr?
  {
    if v.Some? && v.value.JArr? then Ok(v.value.items) else Err(TypeError)
  }

  /** `v.length`, or `v?.length`: an array's or a string's length, and an
      object's own `length` property; numbers and booleans have none, and
      `?.` on `undefined` or `null` gives `undefined`. */
  function LengthOf(v: Option<Json>): Option<Json> {
    match v
    case Some(JArr(items)) => Some(JNum(|items|))
    case Some(JStr(s)) => Some(JNum(|s|))
    case Some(JObj(m)) => Get(m, "length")
    case _ => None
  }

  /** JavaScript's `x > 0`: a number as it is, a boolean as 0 or 1, null as 0,
      `undefined` as NaN; text, arrays and objects through their text and
      `TextNumber`. */
  predicate AboveZero(x: Option<Json>) {
    match x
    case None => false
    case Some(JNull) => false
    case Some(JBool(b)) => b
    case Some(JNum(n)) => n > 0
    case Some(other) => var n := TextNumber(ToText(other)); n.Some? && n.value > 0
  }

  /** JavaScript's ToNumber on text: white space around an optionally signed
      run of decimal digits, or nothing but white space, which is 0. Any other
      text is None, which stands for NaN. */
  function TextNumber(s: string): (r: Option<int>)
    ensures s == "" ==> r == Some(0)
  {
    var t := TrimSpaceEnd(Forms.SkipSpace(s));
    if t == "" then Some(0)
    else if (t[0] == '+' || t[0] == '-') && AllDigits(t[1..]) && |t| > 1 then
      var m := Forms.DigitsValue(t[1..]);
      Some(if t[0] == '-' then 0 - m else m)
    else if AllDigits(t) then Some(Forms.DigitsValue(t))
    else None
  }

  predicate AllDigits(s: string) {
    forall i :: 0 <= i < |s| ==> Forms.IsDigit(s[i])
  }

  function TrimSpaceEnd(s: string): (r: string)
    ensures |r| <= |s| && r == s[..|r|]
    ensures r != [] ==> !Forms.IsJsSpace(r[|r| - 1])
    decreases |s|
  {
    if s != [] && Forms.IsJsSpace(s[|s| - 1]) then TrimSpaceEnd(s[..|s| - 1]) else s
  }

  /** Text JavaScript writes for an integer converts back to it. */
  lemma TextNumberDecimal(n: int)
    ensures TextNumber(Decimal(n)) == Some(n)
  {
    var m: nat := if n < 0 then -n else n;
    Forms.DigitsRoundTrip(m);
    if n < 0 {
      NegativeText(Digits(m));
    } else {
      DigitsText(Digits(m));
    }
  }

  lemma DigitsText(d: string)
    requires d != [] && AllDigits(d)
    ensures TextNumber(d) == Some(Forms.DigitsValue(d))
  {
    assert !Forms.IsJsSpace(d[0]) && !Forms.IsJsSpace(d[|d| - 1]);
    assert Forms.SkipSpace(d) == d;
    assert TrimSpaceEnd(d) == d;
    assert d[0] != '+' && d[0] != '-';
  }

  lemma NegativeText(d: string)
    requires d != [] && AllDigits(d)
    ensures TextNumber("-" + d) == Some(0 - Forms.DigitsValue(d))
  {
    var s := "-" + d;
    assert !Forms.IsJsSpace(s[0]);
    assert Forms.SkipSpace(s) == s;
    assert s[|s| - 1] == d[|d| - 1];
    assert !Forms.IsJsSpace(s[|s| - 1]);
    assert TrimSpaceEnd(s) == s;
    assert s[1..] == d;
  }

  /** An object whose `length` is the text of an integer is listed exactly
      when that integer is above zero. */
  lemma TextLength(n: int)
    ensures Listed(Some(JObj(map["length" := JStr(Decimal(n))]))) <==> n > 0
  {
    TextNumberDecimal(n);
  }

  /** The guard `v && v.length > 0`. */
  predicate Listed(v: Option<Json>) {
    Truthy(v) && AboveZero(LengthOf(v))
  }

  /** An array or a string is listed when it is not empty, an object when its
      own `length` property is above zero; numbers and booleans never are. */
  lemma ListedCases(v: Option<Json>)
    ensures v.Some? && v.value.JArr? ==> (Listed(v) <==> v.value.items != [])
    ensures v.Some? && v.value.JStr? ==> (Listed(v) <==> v.value.s != "")
    ensures v.Some? && v.value.JObj? ==> (Listed(v) <==> AboveZero(Field(v, "length")))
    ensures v.None? || v.value.JNull? || v.value.JBool? || v.value.JNum? ==> !Listed(v)
  {
  }

  /** `items.map(f)`: the callback gets each element and its index; the first
      element whose callback throws ends the rendering. */
  function MapItems<T>(items: seq<Json>, f: (Json, nat) -> Result<T, Fault>, start: nat): (r: Result<seq<T>, Fault>)
    ensures r.Ok? <==> forall i :: 0 <= i < |items| ==> f(items[i], start + i).Ok?
    ensures r.Ok? ==> |r.value| == |items| && forall i :: 0 <= i < |items| ==> f(items[i], start + i) == Ok(r.value[i])
    decreases |items|
  {
    if items == [] then Ok([])
    else
      var head :- f(items[0], start);
      var tail :- MapItems(items[1..], f, start + 1);
      assert forall i :: 1 <= i < |items| ==> items[1..][i - 1] == items[i] && start + 1 + (i - 1) == start + i;
      Ok([head] + tail)
  }

  /** `v.map(f)` on a property value. */
  function MapOver<T>(v: Option<Json>, f: (Json, nat) -> Result<T, Fault>): (r: Result<seq<T>, Fault>)
    ensures r.Ok? ==> v.Some? && v.value.JArr? && |r.value| == |v.value.items|
  {
    var items :- Items(v);
    MapItems(items, f, 0)
  }

  /** Each element's text, as `v.map(x => `<li>${x}</li>`)` lists them. */
  function Texts(v: Option<Json>): (r: Result<seq<string>, Fault>)
    ensures r.Ok? <==> v.Some? && v.value.JArr?
    ensures r.Ok? ==> |r.value| == |v.value.items| && forall i :: 0 <= i < |r.value| ==> r.value[i] == Shown(Some(v.value.items[i]))
  {
    MapOver(v, (x: Json, i: nat) => Ok(Shown(Some(x))))
  }

  /** `${v && v.length > 0 ? v.map(...) : ''}`: the listed texts, or nothing;
      a listed value that is not an array throws. */
  function TextSection(v: Option<Json>): (r: Result<Option<seq<string>>, Fault>)
    ensures r.Err? <==> Listed(v) && !v.value.JArr?
    ensures r.Ok? && Listed(v) ==> r.value == Some(Texts(v).value)
    ensures !Listed(v) ==> r == Ok(None)
  {
    if Listed(v) then
      var texts :- Texts(v);
      Ok(Some(texts))
    else Ok(None)
  }

  /** The UTF-16 code unit `String.fromCharCode(65 + i)` gives for an option
      index. */
  function Label(i: nat): (c: int)
    ensures 0 <= c < 65536
    ensures i < 26 ==> c == 'A' as int + i
  {
    (65 + i) % 65536
  }

  /** The code unit `String.fromCharCode(65 + q.answerIndex)` gives: `+`
      adds a number, null (as 0) or a boolean (as 0 or 1); `undefined` and
      objects give NaN, which is code unit 0. None where `+` would
      concatenate text (a string or an array), which is not modelled. */
  function AnswerCode(a: Option<Json>): (r: Option<int>)
    ensures a.Some? && a.value.JNum? && a.value.n >= 0 ==> r == Some(Label(a.value.n))
  {
    match a
    case None => Some(0)
    case Some(JNull) => Some(65)
    case Some(JBool(b)) => Some(if b then 66 else 65)
    case Some(JNum(n)) => Some((65 + n) % 65536)
    case Some(JObj(_)) => Some(0)
    case Some(_) => None
  }

  /** An MCQ option: its letter (a code unit), its text, and whether it is
      marked correct. */
  datatype Choice = Choice(letter: int, text: string, correct: bool)

  datatype Question = Question(number: nat, text: string, choices: seq<Choice>, answer: Option<int>, explanation: string)

  datatype WorksheetItem = WorksheetItem(number: nat, text: string, difficulty: string, points: string,
                                         plural: bool, choices: Option<seq<Choice>>)

  datatype AnswerItem = AnswerItem(number: nat, answer: string, explanation: string)

  datatype Activity = Activity(name: string, minutes: Option<string>, description: string)

  datatype Issue = Issue(kind: string, original: string, replacement: string, explanation: string)

  datatype Slide = Slide(number: string, title: string, bullets: Option<seq<string>>, notes: Option<string>)

  datatype Comment = Comment(heading: string, tone: Option<string>, text: string)

  datatype RubricRow = RubricRow(category: string, score: string, maxScore: string, feedback: string)

  datatype Feedback = Feedback(strengths: Option<seq<string>>, improvements: Option<seq<string>>,
                               grammar: Option<string>, overall: Option<string>)

  datatype Variation = Variation(id: string, style: string, text: string, changes: string)

  /** What the results panel shows. An empty list of issues, slides or
      comments is shown as the renderer's "none" message. */
  datatype View =
    | Raw(data: Option<Json>)
    | InvalidFormat
    | McqView(questions: seq<Question>)
    | WorksheetView(title: string, instructions: string, items: seq<WorksheetItem>, answers: seq<AnswerItem>)
    | LessonPlanView(title: string, duration: string, gradeLevel: Option<string>,
                     objectives: Option<seq<string>>, materials: Option<seq<string>>,
                     activities: Option<seq<Activity>>, assessment: Option<string>,
                     differentiation: Option<string>, homework: Option<string>)
    | SummaryView(summary: Option<string>, keyPoints: Option<seq<string>>, wordCount: Option<(string, string)>)
    | ProofreadView(corrected: Option<string>, original: Option<string>, issues: seq<Issue>, assessment: Option<string>)
    | SlidesView(title: string, estimatedDuration: Option<string>, slides: seq<Slide>)
    | CommentsView(comments: seq<Comment>, suggestions: Option<seq<string>>)
    | EssayView(grade: string, score: Option<(string, string)>, rubric: Option<seq<RubricRow>>,
                feedback: Option<Feedback>, strengths: Option<seq<string>>,
                areasForImprovement: Option<seq<string>>, detailedFeedback: Option<string>,
                suggestions: Option<seq<string>>)
    | RewriteView(count: string, comparison: (string, string, string), variations: seq<Variation>, tips: seq<string>)

  // ----- MCQ -----

  /** The options of one question, lettered from A, the one whose index is
      strictly equal to `answerIndex` marked correct. */
  function Choices(options: seq<Json>, answerIndex: Option<Json>): (r: seq<Choice>)
    ensures |r| == |options|
    ensures forall i :: 0 <= i < |r| ==> r[i].letter == Label(i) && r[i].text == Shown(Some(options[i]))
    ensures forall i :: 0 <= i < |r| ==> (r[i].correct <==> answerIndex == Some(JNum(i)))
  {
    seq(|options|, i requires 0 <= i < |options| => Choice(Label(i), Shown(Some(options[i])), answerIndex == Some(JNum(i))))
  }

  /** One question of `renderMCQResults`. */
  function McqQuestion(q: Json, idx: nat): (r: Result<Question, Fault>)
    ensures r.Err? <==> q == JNull || !(q.JObj? && "options" in q.fields && q.fields["options"].JArr?)
    ensures r.Ok? ==> r.value.number == idx + 1 && r.value.text == Shown(Field(Some(q), "question"))
                      && r.value.explanation == Shown(Field(Some(q), "explanation"))
    ensures r.Ok? ==> r.value.choices == Choices(q.fields["options"].items, Field(Some(q), "answerIndex"))
    ensures r.Ok? ==> r.value.answer == AnswerCode(Field(Some(q), "answerIndex"))
  {
    var m :- Props(Some(q));
    var options :- Items(Get(m, "options"));
    var answerIndex := Get(m, "answerIndex");
    Ok(Question(idx + 1, Shown(Get(m, "question")), Choices(options, answerIndex),
                AnswerCode(answerIndex), Shown(Get(m, "explanation"))))
  }

  /** `renderMCQResults(data)`. */
  function RenderMcq(data: Option<Json>): (r: Result<View, Fault>)
    ensures r == Ok(InvalidFormat) <==> !(data.Some? && data.value.JArr?)
    ensures data.Some? && data.value.JArr? ==>
              (r.Err? <==> exists i :: 0 <= i < |data.value.items| && McqQuestion(data.value.items[i], i).Err?)
    ensures r.Ok? && r.value.McqView? ==>
              |r.value.questions| == |data.value.items|
              && forall i :: 0 <= i < |data.value.items| ==> McqQuestion(data.value.items[i], i) == Ok(r.value.questions[i])
  {
    if !(data.Some? && data.value.JArr?) then Ok(InvalidFormat)
    else
      var questions :- MapItems(data.value.items, McqQuestion, 0);
      Ok(McqView(questions))
  }

  /** At most one option of a question is marked correct; when `answerIndex`
      is the index of an option, that option is the one marked, and the
      answer line shows its letter. */
  lemma McqAnswer(q: Json, idx: nat)
    requires McqQuestion(q, idx).Ok?
    ensures var v := McqQuestion(q, idx).value;
            forall i, j :: 0 <= i < |v.choices| && 0 <= j < |v.choices| && v.choices[i].correct && v.choices[j].correct ==> i == j
    ensures var v := McqQuestion(q, idx).value;
            forall k :: 0 <= k < |v.choices| ==> (v.choices[k].correct <==> Field(Some(q), "answerIndex") == Some(JNum(k)))
    ensures var v := McqQuestion(q, idx).value;
            forall k :: 0 <= k < |v.choices| && Field(Some(q), "answerIndex") == Some(JNum(k)) ==>
              v.answer == Some(v.choices[k].letter)
    ensures McqQuestion(q, idx).value.number == idx + 1
  {
  }

  /** Question i (from 0) of an array payload is numbered i + 1, and its options
      are lettered A, B, C, ... */
  lemma McqNumbering(data: Option<Json>, i: nat)
    requires RenderMcq(data).Ok? && RenderMcq(data).value.McqView?
    requires i < |RenderMcq(data).value.questions|
    ensures RenderMcq(data).value.questions[i].number == i + 1
    ensures forall k :: 0 <= k < |RenderMcq(data).value.questions[i].choices| && k < 26 ==>
              RenderMcq(data).value.questions[i].choices[k].letter == 'A' as int + k
  {
    var items := data.value.items;
    assert MapItems(items, McqQuestion, 0) == Ok(RenderMcq(data).value.questions);
    assert McqQuestion(items[i], 0 + i) == Ok(RenderMcq(data).value.questions[i]);
  }

  // ----- Worksheet -----

  /** One question of `renderWorksheetResults`: multiple-choice questions with
      options list them, any other question gets an answer space. */
  function WorksheetQuestion(q: Json, idx: nat): (r: Result<WorksheetItem, Fault>)
    ensures r.Ok? ==> (r.value.plural <==> Field(Some(q), "points") != Some(JNum(1)))
    ensures r.Err? <==> q == JNull || (Field(Some(q), "type") == Some(JStr("mcq")) && Truthy(Field(Some(q), "options"))
                                       && !Field(Some(q), "options").value.JArr?)
    ensures r.Ok? ==> r.value.number == idx + 1 && r.value.text == Shown(Field(Some(q), "question"))
                      && r.value.difficulty == Shown(Field(Some(q), "difficulty")) && r.value.points == Shown(Field(Some(q), "points"))
    ensures r.Ok? ==> (r.value.choices.Some? <==> Field(Some(q), "type") == Some(JStr("mcq")) && Truthy(Field(Some(q), "options")))
    ensures r.Ok? && r.value.choices.Some? ==> r.value.choices.value == Choices(Field(Some(q), "options").value.items, None)
  {
    var m :- Props(Some(q));
    assert forall k :: Get(m, k) == Field(Some(q), k);
    var points := Get(m, "points");
    var choices :- if Get(m, "type") == Some(JStr("mcq")) && Truthy(Get(m, "options")) then
                     var options :- Items(Get(m, "options"));
                     Ok(Some(Choices(options, None)))
                   else Ok(None);
    Ok(WorksheetItem(idx + 1, Shown(Get(m, "question")), Shown(Get(m, "difficulty")), Shown(points),
                     points != Some(JNum(1)), choices))
  }

  /** One answer-key entry, numbered from 1. */
  function WorksheetAnswer(a: Json, idx: nat): (r: Result<AnswerItem, Fault>)
    ensures r.Err? <==> a == JNull
    ensures r.Ok? ==> r.value == AnswerItem(idx + 1, Shown(Field(Some(a), "answer")), Shown(Field(Some(a), "explanation")))
  {
    var m :- Props(Some(a));
    assert forall k :: Get(m, k) == Field(Some(a), k);
    Ok(AnswerItem(idx + 1, Shown(Get(m, "answer")), Shown(Get(m, "explanation"))))
  }

  /** `renderWorksheetResults(data)`: the title defaults to "Worksheet", the
      instructions to nothing; `questions` and `answerKey` must be arrays. */
  function RenderWorksheet(data: Option<Json>): (r: Result<View, Fault>)
    ensures r.Ok? ==> r.value.WorksheetView?
    ensures r.Err? <==> data == None || data == Some(JNull)
                        || !MapOver(Field(data, "questions"), WorksheetQuestion).Ok?
                        || !MapOver(Field(data, "answerKey"), WorksheetAnswer).Ok?
    ensures r.Ok? ==> r.value.title == Shown(Or(Field(data, "title"), Str("Worksheet")))
    ensures r.Ok? ==> r.value.instructions == Shown(Or(Field(data, "instructions"), Str("")))
    ensures r.Ok? ==> r.value.items == MapOver(Field(data, "questions"), WorksheetQuestion).value
                      && r.value.answers == MapOver(Field(data, "answerKey"), WorksheetAnswer).value
  {
    var m :- Props(data);
    assert forall k :: Get(m, k) == Field(data, k);
    var questions :- MapOver(Get(m, "questions"), WorksheetQuestion);
    var answers :- MapOver(Get(m, "answerKey"), WorksheetAnswer);
    Ok(WorksheetView(Shown(Or(Get(m, "title"), Str("Worksheet"))), Shown(Or(Get(m, "instructions"), Str(""))),
                     questions, answers))
  }

  // ----- Lesson plan -----

  /** One activity: its name is `activity`, else `name`, else "Activity"; its
      minutes are `time`, else `duration`, shown only when one is truthy. */
  function LessonActivity(act: Json, idx: nat): (r: Result<Activity, Fault>)
    ensures r.Err? <==> act == JNull
    ensures r.Ok? ==> r.value.name == Shown(Or(Or(Field(Some(act), "activity"), Field(Some(act), "name")), Str("Activity")))
    ensures r.Ok? ==> r.value.minutes == ShownIf(Or(Field(Some(act), "time"), Field(Some(act), "duration")))
    ensures r.Ok? ==> r.value.description == Shown(Or(Field(Some(act), "description"), Str("")))
  {
    var m :- Props(Some(act));
    assert forall k :: Get(m, k) == Field(Some(act), k);
    Ok(Activity(Shown(Or(Or(Get(m, "activity"), Get(m, "name")), Str("Activity"))),
                ShownIf(Or(Get(m, "time"), Get(m, "duration"))),
                Shown(Or(Get(m, "description"), Str("")))))
  }

  /** `renderLessonPlanResults(data)`. */
  function RenderLessonPlan(data: Option<Json>): (r: Result<View, Fault>)
    ensures r.Err? <==> data == None || data == Some(JNull)
                        || (Listed(Field(data, "objectives")) && !Field(data, "objectives").value.JArr?)
                        || (Listed(Field(data, "materials")) && !Field(data, "materials").value.JArr?)
                        || (Listed(Field(data, "activities")) && !MapOver(Field(data, "activities"), LessonActivity).Ok?)
    ensures r.Ok? ==> r.value.LessonPlanView?
    ensures r.Ok? ==> r.value.title == Shown(Or(Field(data, "title"), Str("Lesson Plan")))
                      && r.value.duration == Shown(Or(Field(data, "duration"), Str("N/A")))
                      && r.value.gradeLevel == ShownIf(Field(data, "gradeLevel"))
    ensures r.Ok? ==> r.value.objectives == TextSection(Field(data, "objectives")).value
                      && r.value.materials == TextSection(Field(data, "materials")).value
    ensures r.Ok? ==> r.value.activities == (if Listed(Field(data, "activities"))
                                             then Some(MapOver(Field(data, "activities"), LessonActivity).value) else None)
    ensures r.Ok? ==> r.value.assessment == ShownIf(Field(data, "assessment"))
                      && r.value.differentiation == ShownIf(Field(data, "differentiation"))
                      && r.value.homework == ShownIf(Field(data, "homework"))
  {
    var m :- Props(data);
    assert forall k :: Get(m, k) == Field(data, k);
    var objectives :- TextSection(Get(m, "objectives"));
    var materials :- TextSection(Get(m, "materials"));
    var activities :- if Listed(Get(m, "activities")) then
                        var acts :- MapOver(Get(m, "activities"), LessonActivity);
                        Ok(Some(acts))
                      else Ok(None);
    Ok(LessonPlanView(Shown(Or(Get(m, "title"), Str("Lesson Plan"))), Shown(Or(Get(m, "duration"), Str("N/A"))),
                      ShownIf(Get(m, "gradeLevel")), objectives, materials, activities,
                      ShownIf(Get(m, "assessment")), ShownIf(Get(m, "differentiation")), ShownIf(Get(m, "homework"))))
  }

  /** An object whose own `length` is above zero passes the objectives guard
      and then throws at `.map`; one whose `length` is 0 is left out. */
  lemma ObjectLengthThrows()
    ensures RenderLessonPlan(Some(JObj(map["objectives" := JObj(map["length" := JNum(1)])]))).Err?
    ensures RenderLessonPlan(Some(JObj(map["objectives" := JObj(map["length" := JNum(0)])]))).Ok?
  {
    var listed := JObj(map["length" := JNum(1)]);
    assert Field(Some(JObj(map["objectives" := listed])), "objectives") == Some(listed);
    assert Listed(Some(listed));
    var unlisted := JObj(map["length" := JNum(0)]);
    var data := Some(JObj(map["objectives" := unlisted]));
    assert Field(data, "objectives") == Some(unlisted);
    assert !Listed(Some(unlisted));
    assert Field(data, "materials") == None && Field(data, "activities") == None;
  }

  // ----- Summarizer -----

  /** `renderSummarizerResults(data)`: `summary || tldr`, `keyPoints ||
      bulletPoints`, and the word counts when present. */
  function RenderSummary(data: Option<Json>): (r: Result<View, Fault>)
    ensures var points := Or(Field(data, "keyPoints"), Field(data, "bulletPoints"));
            r.Err? <==> data == None || data == Some(JNull) || (Truthy(points) && !points.value.JArr?)
    ensures r.Ok? ==> r.value.SummaryView?
    ensures var wordCount := Field(data, "wordCount");
            r.Ok? && Truthy(wordCount) ==> r.value.wordCount == Some((Shown(Field(wordCount, "original")), Shown(Field(wordCount, "summary"))))
    ensures r.Ok? && !Truthy(Field(data, "wordCount")) ==> r.value.wordCount == None
  {
    var m :- Props(data);
    assert forall k :: Get(m, k) == Field(data, k);
    var points := Or(Get(m, "keyPoints"), Get(m, "bulletPoints"));
    var keyPoints :- if Truthy(points) then
                       var texts :- Texts(points);
                       Ok(Some(texts))
                     else Ok(None);
    var wordCount := Get(m, "wordCount");
    // A truthy `wordCount` is neither undefined nor null, so reading its
    // properties cannot throw.
    var counts := if Truthy(wordCount) then Some((Shown(Field(wordCount, "original")), Shown(Field(wordCount, "summary"))))
                  else None;
    Ok(SummaryView(ShownIf(Or(Get(m, "summary"), Get(m, "tldr"))), keyPoints, counts))
  }

  /** The summary is `summary` whenever that is truthy, `tldr` only otherwise,
      and there is no summary line when neither is; the key points likewise
      prefer `keyPoints` to `bulletPoints`, and an array of them is listed in
      full. */
  lemma SummaryAliases(data: Option<Json>)
    requires RenderSummary(data).Ok?
    ensures var v := RenderSummary(data).value;
            var summary := Field(data, "summary");
            var tldr := Field(data, "tldr");
            (Truthy(summary) ==> v.summary == Some(Shown(summary)))
            && (!Truthy(summary) && Truthy(tldr) ==> v.summary == Some(Shown(tldr)))
            && (!Truthy(summary) && !Truthy(tldr) ==> v.summary == None)
    ensures var v := RenderSummary(data).value;
            var keyPoints := Field(data, "keyPoints");
            var bulletPoints := Field(data, "bulletPoints");
            (Truthy(keyPoints) ==> v.keyPoints == Some(Texts(keyPoints).value))
            && (!Truthy(keyPoints) && Truthy(bulletPoints) ==> v.keyPoints == Some(Texts(bulletPoints).value))
            && (!Truthy(keyPoints) && !Truthy(bulletPoints) ==> v.keyPoints == None)
  {
    var m := Props(data).value;
    assert forall k :: Get(m, k) == Field(data, k);
  }

  // ----- Proofread -----

  /** One issue: its kind is `type`, else "correction", upper-cased (which
      throws unless it is a string); the replacement is `correction`, else
      `suggestion`. */
  function ProofreadIssue(issue: Json, idx: nat): (r: Result<Issue, Fault>)
    ensures r.Err? <==> issue == JNull || !Or(Field(Some(issue), "type"), Str("correction")).value.JStr?
    ensures r.Ok? ==> Or(Field(Some(issue), "type"), Str("correction")) == Str(r.value.kind)
    ensures r.Ok? ==> r.value.replacement == Shown(Or(Field(Some(issue), "correction"), Field(Some(issue), "suggestion")))
    ensures r.Ok? ==> r.value.original == Shown(Field(Some(issue), "original"))
                      && r.value.explanation == Shown(Field(Some(issue), "explanation"))
  {
    var m :- Props(Some(issue));
    assert forall k :: Get(m, k) == Field(Some(issue), k);
    var kind := Or(Get(m, "type"), Str("correction"));
    if !kind.value.JStr? then Err(TypeError)
    else Ok(Issue(kind.value.s, Shown(Get(m, "original")), Shown(Or(Get(m, "correction"), Get(m, "suggestion"))),
                  Shown(Get(m, "explanation"))))
  }

  /** The list of issues: `corrections || issues || []`. */
  function IssueList(data: Option<Json>): (r: Option<Json>)
    ensures Truthy(r)
  {
    Or(Or(Field(data, "corrections"), Field(data, "issues")), Some(JArr([])))
  }

  /** `renderProofreadResults(data)`. */
  function RenderProofread(data: Option<Json>): (r: Result<View, Fault>)
    ensures r.Err? <==> data == None || data == Some(JNull)
                        || (Listed(IssueList(data)) && !MapOver(IssueList(data), ProofreadIssue).Ok?)
    ensures r.Ok? ==> r.value.ProofreadView?
    ensures r.Ok? && Listed(IssueList(data)) ==> r.value.issues == MapOver(IssueList(data), ProofreadIssue).value
    ensures r.Ok? && !Listed(IssueList(data)) ==> r.value.issues == []
    ensures r.Ok? ==> r.value.original == ShownIf(Field(data, "original")) && r.value.assessment == ShownIf(Field(data, "summary"))
  {
    var m :- Props(data);
    assert forall k :: Get(m, k) == Field(data, k);
    var list := IssueList(data);
    var issues :- if Listed(list) then MapOver(list, ProofreadIssue) else Ok([]);
    Ok(ProofreadView(ShownIf(Or(Get(m, "corrected"), Get(m, "correctedText"))), ShownIf(Get(m, "original")),
                     issues, ShownIf(Get(m, "summary"))))
  }
  /** Corrections given as an object with a `length` above zero throw. */
  lemma ProofreadObjectLength()
    ensures RenderProofread(Some(JObj(map["corrections" := JObj(map["length" := JNum(2)])]))).Err?
  {
    var list := JObj(map["length" := JNum(2)]);
    var data := Some(JObj(map["corrections" := list]));
    assert Field(data, "corrections") == Some(list);
    assert IssueList(data) == Some(list);
    assert Listed(Some(list));
  }


  /** `corrections` is preferred to `issues`, and with neither the text is
      reported clean; `corrected` is preferred to `correctedText`. */
  lemma ProofreadAliases(data: Option<Json>)
    requires RenderProofread(data).Ok?
    ensures var v := RenderProofread(data).value;
            var corrections := Field(data, "corrections");
            var issues := Field(data, "issues");
            (Truthy(corrections) && corrections.value.JArr? ==> v.issues == MapOver(corrections, ProofreadIssue).value)
            && (Truthy(corrections) && !corrections.value.JArr? ==> v.issues == [])
            && (!Truthy(corrections) && Truthy(issues) && issues.value.JArr? ==> v.issues == MapOver(issues, ProofreadIssue).value)
            && (!Truthy(corrections) && Truthy(issues) && !issues.value.JArr? ==> v.issues == [])
            && (!Truthy(corrections) && !Truthy(issues) ==> v.issues == [])
    ensures var v := RenderProofread(data).value;
            var corrected := Field(data, "corrected");
            (Truthy(corrected) ==> v.corrected == Some(Shown(corrected)))
            && (!Truthy(corrected) ==> v.corrected == ShownIf(Field(data, "correctedText")))
  {
  }

  // ----- Presentation -----

  /** One slide: bullets are `content`, else `bullets`; notes are `notes`,
      else `speakerNotes`. */
  function PptSlide(slide: Json, idx: nat): (r: Result<Slide, Fault>)
    ensures var points := Or(Field(Some(slide), "content"), Field(Some(slide), "bullets"));
            r.Err? <==> slide == JNull || (Truthy(points) && !points.value.JArr?)
    ensures r.Ok? ==> r.value.number == Shown(Field(Some(slide), "slideNumber")) && r.value.title == Shown(Field(Some(slide), "title"))
    ensures r.Ok? ==> r.value.notes == ShownIf(Or(Field(Some(slide), "notes"), Field(Some(slide), "speakerNotes")))
    ensures var content := Field(Some(slide), "content");
            r.Ok? && Truthy(content) ==> r.value.bullets == Some(Texts(content).value)
    ensures var bullets := Field(Some(slide), "bullets");
            r.Ok? && !Truthy(Field(Some(slide), "content")) && Truthy(bullets) ==> r.value.bullets == Some(Texts(bullets).value)
    ensures r.Ok? && !Truthy(Field(Some(slide), "content")) && !Truthy(Field(Some(slide), "bullets")) ==> r.value.bullets == None
  {
    var m :- Props(Some(slide));
    assert forall k :: Get(m, k) == Field(Some(slide), k);
    var points := Or(Get(m, "content"), Get(m, "bullets"));
    var bullets :- if Truthy(points) then
                     var texts :- Texts(points);
                     Ok(Some(texts))
                   else Ok(None);
    Ok(Slide(Shown(Get(m, "slideNumber")), Shown(Get(m, "title")), bullets,
             ShownIf(Or(Get(m, "notes"), Get(m, "speakerNotes")))))
  }

  /** `renderPPTResults(data)`: no slides shows "No slides generated". */
  function RenderPpt(data: Option<Json>): (r: Result<View, Fault>)
    ensures r.Err? <==> data == None || data == Some(JNull)
                        || (Listed(Field(data, "slides")) && !MapOver(Field(data, "slides"), PptSlide).Ok?)
    ensures r.Ok? ==> r.value.SlidesView? && (r.value.slides == [] <==> !Listed(Field(data, "slides")))
    ensures r.Ok? && Listed(Field(data, "slides")) ==> r.value.slides == MapOver(Field(data, "slides"), PptSlide).value
    ensures r.Ok? ==> r.value.title == Shown(Or(Field(data, "title"), Str("Presentation")))
    ensures r.Ok? ==> r.value.estimatedDuration == ShownIf(Field(data, "estimatedDuration"))
  {
    var m :- Props(data);
    assert forall k :: Get(m, k) == Field(data, k);
    var slides :- if Listed(Get(m, "slides")) then MapOver(Get(m, "slides"), PptSlide) else Ok([]);
    Ok(SlidesView(Shown(Or(Get(m, "title"), Str("Presentation"))), ShownIf(Get(m, "estimatedDuration")), slides))
  }
  /** Slides given as an object with a `length` above zero throw. */
  lemma PptObjectLength()
    ensures RenderPpt(Some(JObj(map["slides" := JObj(map["length" := JNum(1)])]))).Err?
  {
    var list := JObj(map["length" := JNum(1)]);
    var data := Some(JObj(map["slides" := list]));
    assert Field(data, "slides") == Some(list);
    assert LengthOf(Some(list)) == Some(JNum(1));
    assert Listed(Some(list));
    assert !Items(Some(list)).Ok?;
  }


  // ----- Report card -----

  /** One comment: headed by `category`, else "Variation n" with n counted
      from 1; its text is `comment`, else `text`, else nothing. */
  function ReportComment(c: Json, idx: nat): (r: Result<Comment, Fault>)
    ensures r.Err? <==> c == JNull
    ensures r.Ok? && Truthy(Field(Some(c), "category")) ==> r.value.heading == Shown(Field(Some(c), "category"))
    ensures r.Ok? && !Truthy(Field(Some(c), "category")) ==> r.value.heading == "Variation " + Decimal(idx + 1)
    ensures r.Ok? ==> r.value.tone == ShownIf(Field(Some(c), "tone"))
    ensures r.Ok? && Truthy(Field(Some(c), "comment")) ==> r.value.text == Shown(Field(Some(c), "comment"))
    ensures r.Ok? && !Truthy(Field(Some(c), "comment")) && Truthy(Field(Some(c), "text"))
            ==> r.value.text == Shown(Field(Some(c), "text"))
    ensures r.Ok? && !Truthy(Field(Some(c), "comment")) && !Truthy(Field(Some(c), "text")) ==> r.value.text == ""
  {
    var m :- Props(Some(c));
    assert forall k :: Get(m, k) == Field(Some(c), k);
    Ok(Comment(Shown(Or(Get(m, "category"), Str("Variation " + Decimal(idx + 1)))), ShownIf(Get(m, "tone")),
               Shown(Or(Or(Get(m, "comment"), Get(m, "text")), Str("")))))
  }

  /** `renderReportCardResults(data)`: `comments || []`; no comments shows
      "No comments generated". */
  function RenderReportCard(data: Option<Json>): (r: Result<View, Fault>)
    ensures var list := Or(Field(data, "comments"), Some(JArr([])));
            var suggestions := Field(data, "suggestions");
            r.Err? <==> data == None || data == Some(JNull)
                        || (Listed(list) && !MapOver(list, ReportComment).Ok?)
                        || (Listed(suggestions) && !suggestions.value.JArr?)
    ensures r.Ok? ==> r.value.CommentsView?
    ensures var list := Or(Field(data, "comments"), Some(JArr([])));
            r.Ok? && Listed(list) ==> r.value.comments == MapOver(list, ReportComment).value
    ensures r.Ok? && !Listed(Or(Field(data, "comments"), Some(JArr([])))) ==> r.value.comments == []
    ensures var suggestions := Field(data, "suggestions");
            r.Ok? ==> r.value.suggestions == (if Listed(suggestions) then Some(Texts(suggestions).value) else None)
  {
    var m :- Props(data);
    assert forall k :: Get(m, k) == Field(data, k);
    var list := Or(Get(m, "comments"), Some(JArr([])));
    var comments :- if Listed(list) then MapOver(list, ReportComment) else Ok([]);
    var suggestions :- TextSection(Get(m, "suggestions"));
    Ok(CommentsView(comments, suggestions))
  }
  /** Comments given as an object with a `length` above zero throw. */
  lemma ReportCardObjectLength()
    ensures RenderReportCard(Some(JObj(map["comments" := JObj(map["length" := JNum(1)])]))).Err?
  {
    var list := JObj(map["length" := JNum(1)]);
    assert Field(Some(JObj(map["comments" := list])), "comments") == Some(list);
    assert Or(Some(list), Some(JArr([]))) == Some(list);
    assert Listed(Some(list));
  }


  // ----- Essay grader -----

  /** One rubric row: its category, its score out of its maximum, and its
      feedback. */
  function EssayRubricRow(item: Json, idx: nat): (r: Result<RubricRow, Fault>)
    ensures r.Err? <==> item == JNull
    ensures r.Ok? ==> r.value == RubricRow(Shown(Field(Some(item), "category")), Shown(Field(Some(item), "score")),
                                           Shown(Field(Some(item), "maxScore")), Shown(Field(Some(item), "feedback")))
  {
    var m :- Props(Some(item));
    assert forall k :: Get(m, k) == Field(Some(item), k);
    Ok(RubricRow(Shown(Get(m, "category")), Shown(Get(m, "score")), Shown(Get(m, "maxScore")), Shown(Get(m, "feedback"))))
  }

  /** The nested `feedback` object's sections, shown when it is truthy. */
  function EssayFeedback(feedback: Option<Json>): (r: Result<Option<Feedback>, Fault>)
    ensures r.Err? <==> Truthy(feedback) && (TextSection(Field(feedback, "strengths")).Err?
                                              || TextSection(Field(feedback, "improvements")).Err?)
    ensures r.Ok? ==> (r.value.Some? <==> Truthy(feedback))
    ensures r.Ok? && r.value.Some? ==>
              r.value.value.strengths == TextSection(Field(feedback, "strengths")).value
              && r.value.value.improvements == TextSection(Field(feedback, "improvements")).value
              && r.value.value.grammar == ShownIf(Field(feedback, "grammar"))
              && r.value.value.overall == ShownIf(Field(feedback, "overall"))
  {
    if !Truthy(feedback) then Ok(None)
    else
      var strengths :- TextSection(Field(feedback, "strengths"));
      var improvements :- TextSection(Field(feedback, "improvements"));
      Ok(Some(Feedback(strengths, improvements, ShownIf(Field(feedback, "grammar")), ShownIf(Field(feedback, "overall")))))
  }

  /** `renderEssayGraderResults(data)`: the grade defaults to "N/A", the score
      is shown out of `maxScore`, else 100; the nested feedback and the
      top-level lists are each shown when present, one after the other. */
  function RenderEssay(data: Option<Json>): (r: Result<View, Fault>)
    ensures r.Ok? ==> r.value.EssayView?
    ensures r.Ok? ==> r.value.grade == Shown(Or(Field(data, "grade"), Str("N/A")))
    ensures r.Ok? ==> (r.value.score.Some? <==> Truthy(Field(data, "score")))
    ensures r.Ok? && r.value.score.Some? ==> r.value.score.value.0 == Shown(Field(data, "score"))
    ensures r.Ok? && r.value.score.Some? ==> r.value.score.value.1 == Shown(Or(Field(data, "maxScore"), Some(JNum(100))))
    ensures r.Err? <==> data == None || data == Some(JNull)
                        || (Listed(Field(data, "rubric")) && !MapOver(Field(data, "rubric"), EssayRubricRow).Ok?)
                        || EssayFeedback(Field(data, "feedback")).Err?
                        || TextSection(Field(data, "strengths")).Err?
                        || TextSection(Field(data, "areasForImprovement")).Err?
                        || TextSection(Field(data, "suggestions")).Err?
    ensures r.Ok? ==> r.value.rubric == (if Listed(Field(data, "rubric"))
                                         then Some(MapOver(Field(data, "rubric"), EssayRubricRow).value) else None)
    ensures r.Ok? ==> r.value.feedback == EssayFeedback(Field(data, "feedback")).value
    ensures r.Ok? ==> r.value.strengths == TextSection(Field(data, "strengths")).value
                      && r.value.areasForImprovement == TextSection(Field(data, "areasForImprovement")).value
                      && r.value.suggestions == TextSection(Field(data, "suggestions")).value
    ensures r.Ok? ==> r.value.detailedFeedback == ShownIf(Field(data, "detailedFeedback"))
  {
    var m :- Props(data);
    assert forall k :: Get(m, k) == Field(data, k);
    var score := if Truthy(Get(m, "score")) then Some((Shown(Get(m, "score")), Shown(Or(Get(m, "maxScore"), Some(JNum(100))))))
                 else None;
    var rubric :- if Listed(Get(m, "rubric")) then
                    var rows :- MapOver(Get(m, "rubric"), EssayRubricRow);
                    Ok(Some(rows))
                  else Ok(None);
    var feedback :- EssayFeedback(Get(m, "feedback"));
    var strengths :- TextSection(Get(m, "strengths"));
    var areas :- TextSection(Get(m, "areasForImprovement"));
    var suggestions :- TextSection(Get(m, "suggestions"));
    Ok(EssayView(Shown(Or(Get(m, "grade"), Str("N/A"))), score, rubric, feedback, strengths, areas,
                 ShownIf(Get(m, "detailedFeedback")), suggestions))
  }

  /** A payload carrying both the nested feedback's strengths and top-level
      strengths shows both lists. */
  lemma EssayStrengthsBoth(data: Option<Json>)
    requires RenderEssay(data).Ok?
    requires Truthy(Field(data, "feedback")) && Listed(Field(Field(data, "feedback"), "strengths"))
    requires Listed(Field(data, "strengths"))
    ensures RenderEssay(data).value.feedback.Some?
    ensures RenderEssay(data).value.feedback.value.strengths == Some(Texts(Field(Field(data, "feedback"), "strengths")).value)
    ensures RenderEssay(data).value.strengths == Some(Texts(Field(data, "strengths")).value)
  {
    var m := Props(data).value;
    assert Get(m, "feedback") == Field(data, "feedback");
    assert Get(m, "strengths") == Field(data, "strengths");
  }

  // ----- Text rewriter -----

  /** The comparison shown when the payload has none. */
  const DefaultComparison: Json :=
    JObj(map["originalWordCount" := JNum(0), "rewrittenWordCount" := JNum(0), "readabilityImprovement" := JStr("N/A")])

  /** One variation card: its number is `id`, else its position from 1. */
  function RewriteVariation(v: Json, idx: nat): (r: Result<Variation, Fault>)
    ensures r.Err? <==> v == JNull
    ensures r.Ok? && !Truthy(Field(Some(v), "id")) ==> r.value.id == Decimal(idx + 1)
    ensures r.Ok? && Truthy(Field(Some(v), "id")) ==> r.value.id == Shown(Field(Some(v), "id"))
    ensures r.Ok? ==> r.value.style == (if Truthy(Field(Some(v), "style")) then Shown(Field(Some(v), "style")) else "")
    ensures r.Ok? ==> r.value.text == (if Truthy(Field(Some(v), "rewrittenText")) then Shown(Field(Some(v), "rewrittenText")) else "")
    ensures r.Ok? ==> r.value.changes == Shown(Or(Field(Some(v), "changes"), Str("No summary provided.")))
  {
    var m :- Props(Some(v));
    assert forall k :: Get(m, k) == Field(Some(v), k);
    Ok(Variation(Shown(Or(Get(m, "id"), Some(JNum(idx + 1)))), Shown(Or(Get(m, "style"), Str(""))),
                 Shown(Or(Get(m, "rewrittenText"), Str(""))), Shown(Or(Get(m, "changes"), Str("No summary provided.")))))
  }

  /** `data.variations?.length || 0`. */
  function VariationCount(variations: Option<Json>): (r: string)
    ensures variations.Some? && variations.value.JArr? ==> r == Decimal(|variations.value.items|)
    ensures variations.Some? && variations.value.JStr? ==> r == Decimal(|variations.value.s|)
    ensures !(variations.Some? && (variations.value.JArr? || variations.value.JStr? || variations.value.JObj?)) ==> r == "0"
    ensures variations.Some? && variations.value.JObj? ==> r == Shown(Or(Field(variations, "length"), Some(JNum(0))))
  {
    Shown(Or(LengthOf(variations), Some(JNum(0))))
  }

  /** The comparison line: the payload's `comparison`, or the default one
      when it has none. Either is truthy, so reading it never throws. */
  function Comparison(comparison: Option<Json>): (r: (string, string, string))
    ensures !Truthy(comparison) ==> r == ("0", "0", "N/A")
    ensures Truthy(comparison) ==> r == (Shown(Field(comparison, "originalWordCount")),
                                         Shown(Field(comparison, "rewrittenWordCount")),
                                         Shown(Field(comparison, "readabilityImprovement")))
  {
    var c := Or(comparison, Some(DefaultComparison));
    (Shown(Field(c, "originalWordCount")), Shown(Field(c, "rewrittenWordCount")), Shown(Field(c, "readabilityImprovement")))
  }

  /** `renderTextRewriterResults(data)`: `variations || []`, `comparison` or
      the default one, `suggestions || []`. */
  function RenderRewrite(data: Option<Json>): (r: Result<View, Fault>)
    ensures r.Ok? ==> r.value.RewriteView?
    ensures var list := Or(Field(data, "variations"), Some(JArr([])));
            r.Ok? ==> list.value.JArr? && |r.value.variations| == |list.value.items|
    ensures r.Ok? ==> r.value.count == Decimal(|r.value.variations|)
    ensures r.Ok? ==> r.value.comparison == Comparison(Field(data, "comparison"))
    ensures var list := Or(Field(data, "variations"), Some(JArr([])));
            var tips := Or(Field(data, "suggestions"), Some(JArr([])));
            r.Err? <==> data == None || data == Some(JNull) || !MapOver(list, RewriteVariation).Ok? || !tips.value.JArr?
    ensures r.Ok? ==> r.value.variations == MapOver(Or(Field(data, "variations"), Some(JArr([]))), RewriteVariation).value
    ensures r.Ok? ==> r.value.tips == Texts(Or(Field(data, "suggestions"), Some(JArr([])))).value
  {
    var m :- Props(data);
    assert forall k :: Get(m, k) == Field(data, k);
    var variations :- MapOver(Or(Get(m, "variations"), Some(JArr([]))), RewriteVariation);
    var comparison := Comparison(Get(m, "comparison"));
    var tips :- Texts(Or(Get(m, "suggestions"), Some(JArr([]))));
    Ok(RewriteView(VariationCount(Get(m, "variations")), comparison, variations, tips))
  }

  // ----- Dispatch -----

  /** The renderer `displayResults` selects for a tool. */
  function RenderFor(t: Tool, data: Option<Json>): Result<View, Fault> {
    match t
    case Mcq => RenderMcq(data)
    case Worksheet => RenderWorksheet(data)
    case LessonPlan => RenderLessonPlan(data)
    case Summarizer => RenderSummary(data)
    case Proofread => RenderProofread(data)
    case Ppt => RenderPpt(data)
    case ReportCard => RenderReportCard(data)
    case EssayGrader => RenderEssay(data)
    case TextRewriter => RenderRewrite(data)
  }

  /** `displayResults(tool, data)`: one of the nine renderers by name, the raw
      JSON for any other name. */
  function DisplayResults(tool: string, data: Option<Json>): (r: Result<View, Fault>)
    ensures tool !in AllNames ==> r == Ok(Raw(data))
    ensures tool in AllNames ==> r == RenderFor(Parse(tool).value, data)
  {
    match Parse(tool)
    case Some(t) => RenderFor(t, data)
    case None => Ok(Raw(data))
  }

  /** Only a name outside the nine shows the raw JSON: no renderer produces
      that view. */
  lemma RawOnlyForOtherNames(tool: string, data: Option<Json>)
    ensures DisplayResults(tool, data).Ok? && DisplayResults(tool, data).value.Raw? <==> tool !in AllNames
  {
    if tool in AllNames {
      var t := Parse(tool).value;
      match t
      case Mcq =>
      case Worksheet =>
      case LessonPlan =>
      case Summarizer =>
      case Proofread =>
      case Ppt =>
      case ReportCard =>
      case EssayGrader =>
      case TextRewriter =>
    }
  }
}
