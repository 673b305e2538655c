/**
 * The browser client's state and the handlers that change it: the theme and
 * sidebar toggles, the tool modal, form submission, and what `generateContent`
 * makes of the server's reply. The DOM is reduced to the state it displays:
 * whether the modal, the loading overlay and the results panel are shown,
 * the last toast, and the view in the results panel.
 */
module App {
  import opened Json
  import opened Tools
  import Forms
  import Render

  datatype ToastKind = Info | Error

  /** A toast: a message of a kind, or the error toast carrying the message of
      a TypeError raised while reading the reply (its text is the browser's). */
  datatype Toast = Notice(message: string, kind: ToastKind) | FaultNotice

  /** The body the client posts to `/api/generate`. A null tool is sent as
      JSON null. */
  datatype ClientRequest = ClientRequest(tool: Option<string>, inputs: map<string, Json>)

  /** What `fetch` and `JSON.parse` make of the reply: a rejected fetch with
      its error's message, or the `ok` flag and the parsed body (None when the
      body is not JSON). */
  datatype Reply = NetworkError(message: string) | Received(ok: bool, parsed: Option<Json>)

  /** Where the `try` block of `generateContent` ends: an Error with a
      message, a TypeError from reading the body, or a payload to render. */
  datatype Outcome = Failed(message: string) | Faulted | Generated(payload: Json)

  const InvalidResponse := "Server returned invalid response. Check console for details."
  const UnexpectedFormat := "Unexpected response format"
  const GenerationFailed := "Generation failed"
  const SuccessMessage := "\U{2705} Content generated successfully!"

  /** `toggleTheme`'s choice: light becomes dark, anything else light. */
  function NextTheme(theme: string): (r: string)
    ensures r == "dark" <==> theme == "light"
    ensures r == "dark" || r == "light"
  {
    if theme == "light" then "dark" else "light"
  }

  /** Toggling twice restores a light or dark theme; any other stored value
      settles on light after one toggle and is not restored. */
  lemma ThemeTwice(theme: string)
    ensures theme == "light" || theme == "dark" ==> NextTheme(NextTheme(theme)) == theme
    ensures theme != "light" && theme != "dark" ==> NextTheme(NextTheme(theme)) == "dark" != theme
  {
  }

  /** The toast `toggleTheme` shows. */
  function ThemeToast(theme: string): Toast {
    if theme == "dark" then Notice("\U{1F319} Dark mode activated", Info)
    else Notice("\U{2600}\U{FE0F} Light mode activated", Info)
  }

  /** `new Error(data.detail || data.error || 'Generation failed').message`,
      as written: an object in `detail` reads "[object Object]". */
  function ErrorMessageAsWritten(data: Json): (m: string)
    ensures var detail := Render.Field(Some(data), "detail");
            Truthy(detail) ==> m == ToText(detail.value)
    ensures var detail := Render.Field(Some(data), "detail");
            detail.Some? && detail.value.JObj? ==> m == "[object Object]"
    ensures var error := Render.Field(Some(data), "error");
            !Truthy(Render.Field(Some(data), "detail")) && Truthy(error) ==> m == ToText(error.value)
    ensures !Truthy(Render.Field(Some(data), "detail")) && !Truthy(Render.Field(Some(data), "error")) ==> m == GenerationFailed
  {
    ToText(Or(Or(Render.Field(Some(data), "detail"), Render.Field(Some(data), "error")), Str(GenerationFailed)).value)
  }

  /** The error message with an error object in `detail` (the body of a
      refusal such as the rate limiter's) read through to its `error` text. */
  function ErrorMessage(data: Json): (m: string)
    ensures var detail := Render.Field(Some(data), "detail");
            Truthy(Render.Field(detail, "error")) ==> m == ToText(Render.Field(detail, "error").value)
    ensures !Truthy(Render.Field(Render.Field(Some(data), "detail"), "error")) ==> m == ErrorMessageAsWritten(data)
  {
    var detail := Render.Field(Some(data), "detail");
    var inner := Render.Field(detail, "error");
    if Truthy(inner) then ToText(inner.value) else ErrorMessageAsWritten(data)
  }

  /** The checks of `generateContent` in order, with the message of a non-ok
      reply given by `message`. */
  function ClassifyWith(reply: Reply, message: Json -> string): (o: Outcome)
    ensures reply.NetworkError? ==> o == Failed(reply.message)
    ensures reply.Received? && reply.parsed.None? ==> o == Failed(InvalidResponse)
    ensures reply.Received? && reply.parsed == Some(JNull) ==> o == Faulted
    ensures reply.Received? && !reply.ok && reply.parsed.Some? && reply.parsed.value != JNull
            ==> o == Failed(message(reply.parsed.value))
    ensures o.Generated? <==> reply.Received? && reply.ok && reply.parsed.Some? && reply.parsed.value != JNull
                              && Truthy(Render.Field(reply.parsed, "success"))
    ensures o.Generated? ==> o.payload == reply.parsed.value
  {
    match reply
    case NetworkError(m) => Failed(m)
    case Received(ok, parsed) =>
      match parsed
      case None => Failed(InvalidResponse)
      case Some(data) =>
        if data == JNull then Faulted
        else if !ok then Failed(message(data))
        else if Truthy(Render.Field(parsed, "success")) then Generated(data)
        else Failed(UnexpectedFormat)
  }

  /** The classification as the client has it: a non-ok body whose `detail`
      is an object, such as the rate limiter's refusal, is reported as
      "[object Object]". */
  function ClassifyAsWritten(reply: Reply): (o: Outcome)
    ensures reply.Received? && !reply.ok && reply.parsed.Some? && reply.parsed.value != JNull
            ==> o == Failed(ErrorMessageAsWritten(reply.parsed.value))
    ensures (reply.Received? && !reply.ok && reply.parsed.Some? && Render.Field(reply.parsed, "detail").Some?
             && Render.Field(reply.parsed, "detail").value.JObj?) ==> o == Failed("[object Object]")
  {
    ClassifyWith(reply, ErrorMessageAsWritten)
  }

  /** The classification with the error message read through an error
      object. It differs from the client's only on a non-ok body whose
      `detail` holds a truthy `error`, and only in the message. */
  function Classify(reply: Reply): (o: Outcome)
    ensures o != ClassifyAsWritten(reply) ==>
              reply.Received? && !reply.ok && o.Failed? && ClassifyAsWritten(reply).Failed?
              && Truthy(Render.Field(Render.Field(reply.parsed, "detail"), "error"))
  {
    ClassifyWith(reply, ErrorMessage)
  }

  /** A reply that parsed, was ok and did not say `success` is reported as an
      unexpected format, never rendered. */
  lemma MissingSuccessFlag(data: Json)
    requires data != JNull && !Truthy(Render.Field(Some(data), "success"))
    ensures ClassifyAsWritten(Received(true, Some(data))) == Failed(UnexpectedFormat)
  {
  }

  /** `displayResults(tool, data)` with the tool as the client holds it: a null
      tool falls through to the raw JSON. */
  function Display(tool: Option<string>, data: Option<Json>): (r: Result<Render.View, Fault>)
    ensures tool.None? ==> r == Ok(Render.Raw(data))
  {
    if tool.Some? then Render.DisplayResults(tool.value, data) else Ok(Render.Raw(data))
  }

  /** The view `generateContent` puts in the results panel: the tool's
      rendering of a generated payload's `data`, or None when nothing was
      generated or the renderer threw. */
  function Rendered(tool: Option<string>, reply: Reply): (r: Option<Render.View>)
    ensures r.Some? ==> ClassifyAsWritten(reply).Generated?
  {
    match ClassifyAsWritten(reply)
    case Generated(payload) =>
      var shown := Display(tool, Render.Field(Some(payload), "data"));
      if shown.Ok? then Some(shown.value) else None
    case _ => None
  }

  /** The toast `generateContent` ends with: an error notice for an error
      caught with a message, the TypeError's notice for a body that could
      not be read or rendered, the success notice otherwise. */
  function ToastFor(tool: Option<string>, reply: Reply): (r: Toast)
    ensures r.Notice? && r.kind == Error <==> ClassifyAsWritten(reply).Failed?
    ensures ClassifyAsWritten(reply).Failed? ==> r.message == "\U{274C} " + ClassifyAsWritten(reply).message
    ensures r == FaultNotice <==> ClassifyAsWritten(reply).Faulted? || (ClassifyAsWritten(reply).Generated? && Rendered(tool, reply).None?)
  {
    match ClassifyAsWritten(reply)
    case Failed(m) => Notice("\U{274C} " + m, Error)
    case Faulted => FaultNotice
    case Generated(_) => if Rendered(tool, reply).Some? then Notice(SuccessMessage, Info) else FaultNotice
  }

  /** The success toast is shown exactly when the reply is an ok JSON object
      saying `success` whose `data` the tool's renderer can show. */
  lemma SuccessToast(tool: Option<string>, reply: Reply)
    ensures ToastFor(tool, reply) == Notice(SuccessMessage, Info) <==>
              reply.Received? && reply.ok && reply.parsed.Some? && reply.parsed.value != JNull
              && Truthy(Render.Field(reply.parsed, "success"))
              && Display(tool, Render.Field(reply.parsed, "data")).Ok?
  {
    match ClassifyAsWritten(reply)
    case Failed(m) =>
      assert ("\U{274C} " + m)[0] == '\U{274C}';
    case Faulted =>
    case Generated(_) =>
  }

  /** The element `variations[index]` reads: an array element in range, a
      one-character string, or an object's property named by the index. */
  function Element(variations: Option<Json>, index: nat): (r: Option<Json>)
    ensures variations.Some? && variations.value.JArr? && index < |variations.value.items|
            ==> r == Some(variations.value.items[index])
    ensures variations.Some? && variations.value.JArr? && index >= |variations.value.items| ==> r == None
  {
    if variations.None? then None
    else match variations.value
      case JArr(items) => if index < |items| then Some(items[index]) else None
      case JStr(s) => if index < |s| then Some(JStr([s[index]])) else None
      case JObj(_) => Render.Field(variations, Decimal(index))
      case _ => None
  }

  /** The client's global state and the handlers that update it. */
  class AppState {
    var currentTool: Option<string>
    var currentResults: Option<Json>
    var theme: string
    /** The theme saved in local storage. */
    var storedTheme: Option<string>
    var sidebarOpen: bool
    var modalOpen: bool
    var form: Option<Forms.FormView>
    var loading: bool
    var toast: Option<Toast>
    /** The results panel: shown, and the view it holds. */
    var panelOpen: bool
    var view: Option<Render.View>
    /** `window.lastTextRewriterResult`; None is `undefined`. */
    var lastRewrite: Option<Json>

    /** The state on page load: the stored theme unless it is empty, else
        light; the sidebar open on a wide window. */
    constructor (stored: Option<string>, wideWindow: bool)
      ensures theme == (if stored.Some? && stored.value != "" then stored.value else "light")
      ensures storedTheme == stored && sidebarOpen == wideWindow
      ensures currentTool == None && currentResults == None && lastRewrite == None
      ensures !modalOpen && !loading && !panelOpen && toast == None && view == None && form == None
    {
      currentTool := None;
      currentResults := None;
      theme := if stored.Some? && stored.value != "" then stored.value else "light";
      storedTheme := stored;
      sidebarOpen := wideWindow;
      modalOpen := false;
      form := None;
      loading := false;
      toast := None;
      panelOpen := false;
      view := None;
      lastRewrite := None;
    }

    /** `toggleTheme`: switches, saves and announces the theme. */
    method ToggleTheme()
      modifies this
      ensures theme == NextTheme(old(theme)) && storedTheme == Some(theme)
      ensures toast == Some(ThemeToast(theme))
      ensures sidebarOpen == old(sidebarOpen) && currentTool == old(currentTool)
      ensures currentResults == old(currentResults) && modalOpen == old(modalOpen)
      ensures loading == old(loading) && view == old(view) && panelOpen == old(panelOpen)
      ensures form == old(form) && lastRewrite == old(lastRewrite)
    {
      theme := NextTheme(theme);
      storedTheme := Some(theme);
      toast := Some(ThemeToast(theme));
    }

    /** `toggleSidebar`: negates `sidebarOpen` and nothing else. */
    method ToggleSidebar()
      modifies this
      ensures sidebarOpen == !old(sidebarOpen)
      ensures theme == old(theme) && storedTheme == old(storedTheme) && toast == old(toast)
      ensures currentTool == old(currentTool) && currentResults == old(currentResults)
      ensures modalOpen == old(modalOpen) && loading == old(loading) && view == old(view)
      ensures panelOpen == old(panelOpen) && form == old(form) && lastRewrite == old(lastRewrite)
    {
      sidebarOpen := !sidebarOpen;
    }

    /** `openToolModal(tool)`: remembers the tool and shows its form. */
    method OpenToolModal(tool: string)
      modifies this
      ensures currentTool == Some(tool) && modalOpen && form == Some(Forms.GenerateToolForm(tool))
      ensures theme == old(theme) && storedTheme == old(storedTheme) && toast == old(toast)
      ensures sidebarOpen == old(sidebarOpen) && currentResults == old(currentResults)
      ensures loading == old(loading) && view == old(view) && panelOpen == old(panelOpen)
      ensures lastRewrite == old(lastRewrite)
    {
      currentTool := Some(tool);
      form := Some(Forms.GenerateToolForm(tool));
      modalOpen := true;
    }

    /** `closeToolModal`: hides the modal and forgets the tool. */
    method CloseToolModal()
      modifies this
      ensures currentTool == None && !modalOpen
      ensures theme == old(theme) && storedTheme == old(storedTheme) && toast == old(toast)
      ensures sidebarOpen == old(sidebarOpen) && currentResults == old(currentResults)
      ensures loading == old(loading) && view == old(view) && panelOpen == old(panelOpen)
      ensures form == old(form) && lastRewrite == old(lastRewrite)
    {
      modalOpen := false;
      currentTool := None;
    }

    /** `generateContent(tool, inputs)` once the reply is in: the loading
        overlay goes on every path; only a payload classified as generated
        becomes `currentResults`, and it does so before it is rendered, so a
        renderer that throws leaves it set and shows an error toast. */
    method GenerateContent(tool: Option<string>, reply: Reply)
      modifies this
      ensures !loading
      ensures toast == Some(ToastFor(tool, reply))
      ensures currentResults == (if ClassifyAsWritten(reply).Generated? then Some(ClassifyAsWritten(reply).payload)
                                 else old(currentResults))
      ensures ClassifyAsWritten(reply).Generated? && tool == Some("textrewriter")
              ==> lastRewrite == Render.Field(Some(ClassifyAsWritten(reply).payload), "data")
      ensures !(ClassifyAsWritten(reply).Generated? && tool == Some("textrewriter")) ==> lastRewrite == old(lastRewrite)
      ensures view == (if Rendered(tool, reply).Some? then Rendered(tool, reply) else old(view))
      ensures panelOpen == (Rendered(tool, reply).Some? || old(panelOpen))
      ensures theme == old(theme) && storedTheme == old(storedTheme) && sidebarOpen == old(sidebarOpen)
      ensures currentTool == old(currentTool) && modalOpen == old(modalOpen) && form == old(form)
    {
      loading := true;
      var outcome := ClassifyAsWritten(reply);
      match outcome {
        case Failed(m) =>
          toast := Some(Notice("\U{274C} " + m, Error));
        case Faulted =>
          toast := Some(FaultNotice);
        case Generated(payload) =>
          currentResults := Some(payload);
          var rendered := ShowResults(tool, Render.Field(Some(payload), "data"));
          toast := Some(if rendered then Notice(SuccessMessage, Info) else FaultNotice);
      }
      loading := false;
    }

    /** `displayResults(tool, data)`: the text rewriter's renderer first keeps
        `data` for the copy button; then the tool's view, if its renderer does
        not throw, fills the results panel, which is opened. */
    method ShowResults(tool: Option<string>, data: Option<Json>) returns (rendered: bool)
      modifies this
      ensures rendered == Display(tool, data).Ok?
      ensures view == (if rendered then Some(Display(tool, data).value) else old(view))
      ensures panelOpen == (rendered || old(panelOpen))
      ensures lastRewrite == (if tool == Some("textrewriter") then data else old(lastRewrite))
      ensures theme == old(theme) && storedTheme == old(storedTheme) && sidebarOpen == old(sidebarOpen)
      ensures currentTool == old(currentTool) && modalOpen == old(modalOpen) && form == old(form)
      ensures loading == old(loading) && toast == old(toast) && currentResults == old(currentResults)
    {
      if tool == Some("textrewriter") {
        lastRewrite := data;
      }
      var shown := Display(tool, data);
      rendered := shown.Ok?;
      if rendered {
        view := Some(shown.value);
        panelOpen := true;
      }
    }

    /** `handleFormSubmit`: collects the form's entries, converts the numeric
        ones, reads the tool before closing the modal forgets it, and sends
        the request; `send` stands for the round trip to the server. */
    method HandleFormSubmit(entries: seq<(string, string)>, send: ClientRequest -> Reply)
      returns (sent: ClientRequest)
      modifies this
      ensures sent == ClientRequest(old(currentTool), Forms.Coerced(Forms.FromEntries(entries)))
      ensures currentTool == None && !modalOpen && !loading
      ensures toast == Some(ToastFor(old(currentTool), send(sent)))
      ensures currentResults == (if ClassifyAsWritten(send(sent)).Generated? then Some(ClassifyAsWritten(send(sent)).payload)
                                 else old(currentResults))
      ensures ClassifyAsWritten(send(sent)).Generated? && old(currentTool) == Some("textrewriter")
              ==> lastRewrite == Render.Field(Some(ClassifyAsWritten(send(sent)).payload), "data")
      ensures !(ClassifyAsWritten(send(sent)).Generated? && old(currentTool) == Some("textrewriter"))
              ==> lastRewrite == old(lastRewrite)
      ensures view == (if Rendered(old(currentTool), send(sent)).Some? then Rendered(old(currentTool), send(sent)) else old(view))
      ensures panelOpen == (Rendered(old(currentTool), send(sent)).Some? || old(panelOpen))
      ensures theme == old(theme) && storedTheme == old(storedTheme) && sidebarOpen == old(sidebarOpen)
      ensures form == old(form)
    {
      var inputs := Forms.CoerceNumeric(Forms.FromEntries(entries));
      var tool := currentTool;
      CloseToolModal();
      sent := ClientRequest(tool, inputs);
      GenerateContent(tool, send(sent));
    }

    /** `copyVariation(index)`: the text to put on the clipboard, which is the
        `rewrittenText` of the cached result's variation at `index` as a
        string, or None when there is no such variation. */
    method CopyVariation(index: nat) returns (copied: Option<string>)
      ensures var element := Element(Render.Field(lastRewrite, "variations"), index);
              copied.Some? <==> Truthy(Render.Field(lastRewrite, "variations")) && Truthy(element)
      ensures var variations := Render.Field(lastRewrite, "variations");
              variations.Some? && variations.value.JArr? && index < |variations.value.items|
              && Truthy(Some(variations.value.items[index]))
              ==> copied == Some(Render.Shown(Render.Field(Some(variations.value.items[index]), "rewrittenText")))
    {
      var variations := Render.Field(lastRewrite, "variations");
      if Truthy(variations) {
        var element := Element(variations, index);
        if Truthy(element) {
          return Some(Render.Shown(Render.Field(element, "rewrittenText")));
        }
      }
      return None;
    }
  }
}
