/**
 * Properties that join the client and the server: what the client makes of
 * the server's bodies, and which form fields reach a tool's prompt.
 */
module Findings {
  import opened Json
  import opened Tools
  import Forms
  import RateLimit
  import Server
  import App
  import Render

  /** The inputs object the client sends for a tool's form holding `values`. */
  function Submitted(t: Tool, values: seq<string>): map<string, Json>
    requires |values| == |Forms.FormFields(t)|
  {
    Forms.Coerced(Forms.FromEntries(Forms.Entries(Forms.FormFields(t), values)))
  }

  /** The inputs object has exactly the form's field names as keys. */
  lemma SubmittedKeys(t: Tool, values: seq<string>, k: string)
    requires |values| == |Forms.FormFields(t)|
    ensures k in Submitted(t, values) <==> k in Forms.Names(Forms.FormFields(t))
  {
    var fields := Forms.FormFields(t);
    var entries := Forms.Entries(fields, values);
    if k in Forms.Names(fields) {
      var i :| 0 <= i < |fields| && Forms.Names(fields)[i] == k;
      assert entries[i].0 == k;
    }
    if k in Submitted(t, values) {
      var i :| 0 <= i < |entries| && entries[i].0 == k;
      assert Forms.Names(fields)[i] == k;
    }
  }

  /** A text field of a form (one the submission does not convert) reaches the
      server as the text typed into it. */
  lemma SubmittedText(t: Tool, values: seq<string>, i: nat)
    requires |values| == |Forms.FormFields(t)| && i < |values|
    requires Forms.FormFields(t)[i].name !in Forms.NumericKeys
    ensures Forms.FormFields(t)[i].name in Submitted(t, values)
    ensures Submitted(t, values)[Forms.FormFields(t)[i].name] == JStr(values[i])
  {
    Forms.FormsWellFormed(t);
    var entries := Forms.Entries(Forms.FormFields(t), values);
    Forms.FromDistinctEntries(entries, i);
  }

  /** The essay typed into the essay grader's form never reaches the prompt as
      the handler is written: the form sends it as "essayText", the handler
      reads "essay" and grades the empty default. Reading "essayText" grades
      the essay typed. */
  lemma EssayText(values: seq<string>)
    requires |values| == |Forms.FormFields(EssayGrader)|
    ensures Server.Lookups(Server.PromptKeysAsWritten(EssayGrader), Submitted(EssayGrader, values))[0] == JStr("")
    ensures Server.PromptForCorrected(EssayGrader, Submitted(EssayGrader, values)).args[0] == JStr(values[0])
  {
    EssayUnread(values);
    EssayRead(values);
  }

  /** The "essay" key the handler reads is not submitted, so it takes its
      empty default. */
  lemma EssayUnread(values: seq<string>)
    requires |values| == |Forms.FormFields(EssayGrader)|
    ensures Server.Lookups(Server.PromptKeysAsWritten(EssayGrader), Submitted(EssayGrader, values))[0] == JStr("")
  {
    EssayGraderNames();
    SubmittedKeys(EssayGrader, values, "essay");
    LookupDefault(Server.PromptKeysAsWritten(EssayGrader), Submitted(EssayGrader, values), 0);
  }

  /** The "essayText" key is submitted as the text typed, and the corrected
      prompt reads it. */
  lemma EssayRead(values: seq<string>)
    requires |values| == |Forms.FormFields(EssayGrader)|
    ensures Server.PromptForCorrected(EssayGrader, Submitted(EssayGrader, values)).args[0] == JStr(values[0])
  {
    EssayGraderNames();
    SubmittedText(EssayGrader, values, 0);
  }

  lemma EssayGraderNames()
    ensures Forms.Names(Forms.FormFields(EssayGrader)) == ["essayText", "prompt", "gradeLevel", "maxScore"]
    ensures Forms.FormFields(EssayGrader)[0].name == "essayText"
    ensures Server.PromptKeysAsWritten(EssayGrader)[0] == ("essay", JStr(""))
    ensures Server.PromptKeys(EssayGrader)[0] == ("essayText", JStr(""))
  {
  }

  /** A key the inputs lack takes its default. */
  lemma LookupDefault(keys: seq<(string, Json)>, inputs: map<string, Json>, i: nat)
    requires i < |keys| && keys[i].0 !in inputs
    ensures Server.Lookups(keys, inputs)[i] == keys[i].1
  {
  }

  /** The report-card form's subject, performance, strengths and areas for
      growth never reach the prompt: it reads "studentInfo" and "focus", which
      the form does not have, so the defaults are used whatever is typed.
      Unlike the essay key, this mismatch has no evident single correction:
      the form's four detail fields would have to be combined into one
      "studentInfo" text in some way the source never shows, so no corrected
      prompt is stated for it. */
  lemma ReportCardDetailsUnread(values: seq<string>)
    requires |values| == |Forms.FormFields(ReportCard)|
    ensures Server.PromptFor(ReportCard, Submitted(ReportCard, values)).args[1] == JStr("")
    ensures Server.PromptFor(ReportCard, Submitted(ReportCard, values)).args[2] == JStr("overall performance")
  {
    NotSubmitted(ReportCard, values, "studentInfo");
    NotSubmitted(ReportCard, values, "focus");
    ReportCardDefaults(Submitted(ReportCard, values));
  }

  /** A key that names no field of the report-card form is not submitted. */
  lemma NotSubmitted(t: Tool, values: seq<string>, k: string)
    requires t == ReportCard && |values| == |Forms.FormFields(t)|
    requires k == "studentInfo" || k == "focus"
    ensures k !in Submitted(t, values)
  {
    SubmittedKeys(t, values, k);
    NotAName(k);
  }

  lemma NotAName(k: string)
    requires k == "studentInfo" || k == "focus"
    ensures k !in Forms.Names(Forms.FormFields(ReportCard))
  {
    ReportCardNames();
  }

  /** Without "studentInfo" and "focus" the report-card prompt uses their
      defaults. */
  lemma ReportCardDefaults(inputs: map<string, Json>)
    requires "studentInfo" !in inputs && "focus" !in inputs
    ensures Server.PromptFor(ReportCard, inputs).args[1] == JStr("")
    ensures Server.PromptFor(ReportCard, inputs).args[2] == JStr("overall performance")
  {
    ReportCardNames();
    LookupDefault(Server.PromptKeysAsWritten(ReportCard), inputs, 1);
    LookupDefault(Server.PromptKeysAsWritten(ReportCard), inputs, 2);
  }

  lemma ReportCardNames()
    ensures Forms.Names(Forms.FormFields(ReportCard))
            == ["subject", "gradeLevel", "performance", "strengths", "areasForGrowth", "commentCount"]
    ensures Server.PromptKeysAsWritten(ReportCard)
            == [("commentCount", JNum(3)), ("studentInfo", JStr("")), ("focus", JStr("overall performance"))]
  {
  }

  /** The rate limiter's refusal, sent as the 429 body `{"detail": {"error":
      "Too many requests"}}`, is toasted as "[object Object]" by the client as
      written, and as "Too many requests" once the error object is read
      through. */
  lemma RefusalMessage()
    ensures App.ClassifyAsWritten(App.Received(false, Some(Server.Body(Server.Failure(429, RateLimit.Refusal)))))
            == App.Failed("[object Object]")
    ensures App.Classify(App.Received(false, Some(Server.Body(Server.Failure(429, RateLimit.Refusal)))))
            == App.Failed("Too many requests")
  {
    var body := Server.Body(Server.Failure(429, RateLimit.Refusal));
    assert Render.Field(Some(body), "detail") == Some(RateLimit.Refusal);
    assert Render.Field(Some(RateLimit.Refusal), "error") == Some(JStr("Too many requests"));
  }

  /** Every error the server raises with a text detail is toasted with that
      text. */
  lemma TextDetailShown(status: int, detail: string)
    requires detail != ""
    ensures App.ClassifyAsWritten(App.Received(false, Some(Server.Body(Server.Failure(status, JStr(detail))))))
            == App.Failed(detail)
  {
    var body := Server.Body(Server.Failure(status, JStr(detail)));
    assert Render.Field(Some(body), "detail") == Some(JStr(detail));
  }

  /** A success body is classified as generated, and the data the renderer is
      given is exactly the parsed reply the server sent. */
  lemma SuccessReachesRenderer(tool: string, data: Json, model: string)
    ensures var body := Server.Body(Server.Success(tool, data, model));
            App.ClassifyAsWritten(App.Received(true, Some(body))) == App.Generated(body)
            && Render.Field(Some(body), "data") == Some(data)
  {
    var body := Server.Body(Server.Success(tool, data, model));
    assert Render.Field(Some(body), "success") == Some(JBool(true));
  }

  /** An upstream 401 is toasted as "401: OpenAI API error" by the handler as
      written, which answers 500; passing the status on toasts the detail
      alone. */
  lemma UpstreamErrorToast(t: Tool, content: Result<string, string>, parse: string -> Result<Json, string>, model: string)
    ensures App.ClassifyAsWritten(App.Received(false, Some(Server.Body(Server.RespondAsWritten(t, Server.Replied(401, content), parse, model)))))
            == App.Failed("401: OpenAI API error")
    ensures App.ClassifyAsWritten(App.Received(false, Some(Server.Body(Server.Respond(t, Server.Replied(401, content), parse, model)))))
            == App.Failed("OpenAI API error")
  {
    Decimal401();
    assert Decimal(401) + ": OpenAI API error" == "401: OpenAI API error";
    assert Server.RespondAsWritten(t, Server.Replied(401, content), parse, model)
           == Server.Failure(500, JStr("401: OpenAI API error"));
    TextDetailShown(500, "401: OpenAI API error");
    assert Server.Respond(t, Server.Replied(401, content), parse, model) == Server.Failure(401, JStr("OpenAI API error"));
    TextDetailShown(401, "OpenAI API error");
  }

  lemma Decimal401()
    ensures Decimal(401) == "401"
  {
    assert Digits(4) == "4";
    assert Digits(40) == "40";
  }
}
