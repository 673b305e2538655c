/**
 * The client's tool forms and what a submitted form becomes: the form each
 * tool identifier opens, the name/value entries the browser collects, and the
 * coercion of the numeric fields with JavaScript's `parseInt`.
 */
module Forms {
  import opened Json
  import opened Tools

  /** The input control of a form field, with its initial value. */
  datatype Control =
    | TextInput(value: string)
    | TextArea
    | NumberInput(initial: int, min: int, max: int)
    | Select(options: seq<string>, selected: string)

  datatype Field = Field(name: string, control: Control, required: bool)

  /** What `generateToolForm` returns: one of the nine forms, the inherited
      member an `Object.prototype` name finds in the table of forms (that
      value is truthy, so it is returned as it is), or the placeholder. */
  datatype FormView =
    | ToolForm(fields: seq<Field>)
    | InheritedMember(name: string)
    | Placeholder(markup: string)

  /** The markup returned for any other identifier. */
  const PlaceholderMarkup := "<p>Form not available</p>"

  /** Property names every plain JavaScript object inherits. */
  const InheritedNames: set<string> :=
    {"constructor", "__proto__", "__defineGetter__", "__defineSetter__", "__lookupGetter__",
     "__lookupSetter__", "hasOwnProperty", "isPrototypeOf", "propertyIsEnumerable",
     "toLocaleString", "toString", "valueOf"}

  /** The keys whose non-empty values are converted to integers on submit. */
  const NumericKeys: seq<string> := ["count", "duration", "bulletPoints", "slideCount", "commentCount", "maxScore"]

  /** The fields of each tool's form, in document order. Each number input
      starts inside its bounds, and each select starts on one of its
      options. */
  function FormFields(t: Tool): (r: seq<Field>)
    ensures forall i :: 0 <= i < |r| && r[i].control.NumberInput? ==>
              r[i].control.min <= r[i].control.initial <= r[i].control.max
    ensures forall i :: 0 <= i < |r| && r[i].control.Select? ==> r[i].control.selected in r[i].control.options
  {
    match t
    case Mcq => [
      Field("topic", TextInput(""), true),
      Field("gradeLevel", Select(["elementary", "middle school", "high school", "college"], "high school"), false),
      Field("count", NumberInput(5, 1, 20), false),
      Field("difficulty", Select(["easy", "medium", "hard"], "medium"), false)]
    case Worksheet => [
      Field("topic", TextInput(""), true),
      Field("gradeLevel", Select(["elementary", "middle school", "high school"], "middle school"), false),
      Field("count", NumberInput(10, 5, 30), false)]
    case LessonPlan => [
      Field("topic", TextInput(""), true),
      Field("gradeLevel", TextInput("grade 8"), false),
      Field("duration", NumberInput(45, 15, 180), false)]
    case Summarizer => [
      Field("text", TextArea, true),
      Field("bulletPoints", NumberInput(5, 3, 10), false),
      Field("audience", Select(["general", "students", "professionals", "children"], "general"), false)]
    case Proofread => [
      Field("text", TextArea, true),
      Field("tone", Select(["academic", "casual", "professional", "creative"], "academic"), false)]
    case Ppt => [
      Field("topic", TextInput(""), true),
      Field("slideCount", NumberInput(8, 3, 20), false),
      Field("audience", TextInput("students"), false)]
    case ReportCard => [
      Field("subject", TextInput("General"), false),
      Field("gradeLevel", TextInput("Elementary"), false),
      Field("performance", Select(["excellent", "good", "satisfactory", "needs improvement"], "satisfactory"), false),
      Field("strengths", TextInput(""), false),
      Field("areasForGrowth", TextInput(""), false),
      Field("commentCount", NumberInput(3, 1, 5), false)]
    case EssayGrader => [
      Field("essayText", TextArea, true),
      Field("prompt", TextInput(""), false),
      Field("gradeLevel", Select(["Middle School", "High School", "College"], "High School"), false),
      Field("maxScore", NumberInput(100, 10, 100), false)]
    case TextRewriter => [
      Field("text", TextArea, true),
      Field("style", Select(["professional", "casual", "academic", "creative", "simple", "persuasive", "narrative"], "professional"), false),
      Field("tone", Select(["neutral", "formal", "friendly", "enthusiastic", "serious", "humorous", "empathetic"], "neutral"), false),
      Field("audience", Select(["general", "students", "educators", "professionals", "children", "experts"], "general"), false),
      Field("length", Select(["same", "shorter", "longer", "concise", "detailed"], "same"), false),
      Field("additionalInstructions", TextArea, false)]
  }

  /** The names of a form's fields. */
  function Names(fields: seq<Field>): seq<string> {
    seq(|fields|, i requires 0 <= i < |fields| => fields[i].name)
  }

  /** `generateToolForm(tool)`: `forms[tool] || '<p>Form not available</p>'`. */
  function GenerateToolForm(tool: string): (r: FormView)
    ensures r.ToolForm? <==> tool in AllNames
    ensures r == Placeholder(PlaceholderMarkup) <==> tool !in AllNames && tool !in InheritedNames
    ensures r.ToolForm? ==> r.fields == FormFields(Parse(tool).value)
  {
    match Parse(tool)
    case Some(t) => ToolForm(FormFields(t))
    case None => if tool in InheritedNames then InheritedMember(tool) else Placeholder(PlaceholderMarkup)
  }

  /** Every form has fields, with distinct names, at least one of them required
      (the report-card form excepted, whose fields are all optional), and each
      number field is one the submission converts to an integer. */
  lemma FormsWellFormed(t: Tool)
    ensures |FormFields(t)| > 0
    ensures forall i, j :: 0 <= i < j < |FormFields(t)| ==> FormFields(t)[i].name != FormFields(t)[j].name
    ensures t != ReportCard ==> FormFields(t)[0].required
    ensures t == ReportCard ==> forall i :: 0 <= i < |FormFields(t)| ==> !FormFields(t)[i].required
    ensures forall i :: 0 <= i < |FormFields(t)| && FormFields(t)[i].control.NumberInput?
                        ==> FormFields(t)[i].name in NumericKeys
  {
    match t
    case Mcq =>
    case Worksheet =>
    case LessonPlan =>
    case Summarizer =>
    case Proofread =>
    case Ppt =>
    case ReportCard =>
    case EssayGrader =>
    case TextRewriter =>
  }

  /** `Object.fromEntries(entries)`: one key per name, later entries winning
      over earlier ones with the same name. */
  function FromEntries(entries: seq<(string, string)>): (r: map<string, string>)
    ensures forall k :: k in r <==> exists i :: 0 <= i < |entries| && entries[i].0 == k
    ensures forall k :: k in r ==> exists i :: 0 <= i < |entries| && LastEntry(entries, i, k) && r[k] == entries[i].1
    decreases |entries|
  {
    if entries == [] then map[]
    else
      var init := entries[..|entries| - 1];
      var last := entries[|entries| - 1];
      assert forall i :: 0 <= i < |init| ==> init[i] == entries[i];
      var r := FromEntries(init)[last.0 := last.1];
      assert LastEntry(entries, |entries| - 1, last.0);
      assert forall k :: k in r && k != last.0 ==> exists i :: 0 <= i < |init| && LastEntry(init, i, k) && r[k] == init[i].1;
      assert forall i, k :: 0 <= i < |init| && LastEntry(init, i, k) && k != last.0 ==> LastEntry(entries, i, k);
      r
  }

  /** Entry `i` is the last one named `k`. */
  predicate LastEntry(entries: seq<(string, string)>, i: nat, k: string)
    requires i < |entries|
  {
    entries[i].0 == k && forall j :: i < j < |entries| ==> entries[j].0 != k
  }

  /** When the names are distinct, each name holds its own entry's value. */
  lemma {:induction false} FromDistinctEntries(entries: seq<(string, string)>, i: nat)
    requires forall a, b :: 0 <= a < b < |entries| ==> entries[a].0 != entries[b].0
    requires i < |entries|
    ensures FromEntries(entries)[entries[i].0] == entries[i].1
    decreases |entries|
  {
    if i < |entries| - 1 {
      var init := entries[..|entries| - 1];
      FromDistinctEntries(init, i);
      assert init[i] == entries[i];
    }
  }

  /** The entries a form submits when its fields hold the given values. */
  function Entries(fields: seq<Field>, values: seq<string>): (r: seq<(string, string)>)
    requires |values| == |fields|
    ensures |r| == |fields|
  {
    seq(|fields|, i requires 0 <= i < |fields| => (fields[i].name, values[i]))
  }

  /** The white space `parseInt` skips before the number. */
  predicate IsJsSpace(c: char) {
    ('\U{9}' <= c <= '\U{D}') || c == ' ' || c == '\U{A0}' || c == '\U{1680}'
    || ('\U{2000}' <= c <= '\U{200A}') || c == '\U{2028}' || c == '\U{2029}'
    || c == '\U{202F}' || c == '\U{205F}' || c == '\U{3000}' || c == '\U{FEFF}'
  }

  predicate IsDigit(c: char) {
    '0' <= c <= '9'
  }

  /** The longest prefix of decimal digits. */
  function DigitPrefix(s: string): (r: string)
    ensures |r| <= |s| && r == s[..|r|]
    ensures forall i :: 0 <= i < |r| ==> IsDigit(r[i])
    ensures |r| < |s| ==> !IsDigit(s[|r|])
    decreases |s|
  {
    if s != [] && IsDigit(s[0]) then [s[0]] + DigitPrefix(s[1..]) else []
  }

  /** The value of a string of decimal digits. */
  function DigitsValue(s: string): nat
    requires forall i :: 0 <= i < |s| ==> IsDigit(s[i])
    decreases |s|
  {
    if s == [] then 0
    else
      assert IsDigit(s[|s| - 1]);
      10 * DigitsValue(s[..|s| - 1]) + (s[|s| - 1] as int - '0' as int)
  }

  /** JavaScript's `parseInt(s)` on decimal text: leading white space, an
      optional sign, then as many digits as there are; NaN when there are
      none. A NaN stands for itself here as None. */
  function ParseInt(s: string): (r: Option<int>)
    ensures var t := SkipSpace(s);
            r.Some? <==> (t != [] && IsDigit(t[0])) || (|t| > 1 && (t[0] == '-' || t[0] == '+') && IsDigit(t[1]))
  {
    ParseSigned(SkipSpace(s))
  }

  /** An optional sign, then as many digits as there are. */
  function ParseSigned(t: string): (r: Option<int>)
    ensures r.Some? <==> (t != [] && IsDigit(t[0])) || (|t| > 1 && (t[0] == '-' || t[0] == '+') && IsDigit(t[1]))
  {
    if t != [] && t[0] == '-' then
      match Magnitude(t[1..])
      case Some(m) => Some(0 - m as int)
      case None => None
    else if t != [] && t[0] == '+' then Magnitude(t[1..])
    else Magnitude(t)
  }

  /** The value of the digits that open `u`, or None when it opens with
      something else. */
  function Magnitude(u: string): (r: Option<nat>)
    ensures r.Some? <==> u != [] && IsDigit(u[0])
  {
    var digits := DigitPrefix(u);
    if digits == [] then None else Some(DigitsValue(digits))
  }

  function SkipSpace(s: string): (r: string)
    ensures |r| <= |s| && r == s[|s| - |r|..]
    ensures r != [] ==> !IsJsSpace(r[0])
    decreases |s|
  {
    if s != [] && IsJsSpace(s[0]) then SkipSpace(s[1..]) else s
  }

  /** The digits JavaScript writes for a natural number read back as it. */
  lemma {:induction false} DigitsRoundTrip(n: nat)
    ensures DigitPrefix(Digits(n)) == Digits(n)
    ensures DigitsValue(Digits(n)) == n
    decreases n
  {
    AllDigitsPrefix(Digits(n));
    if n >= 10 {
      DigitsRoundTrip(n / 10);
      var s := Digits(n);
      assert s[..|s| - 1] == Digits(n / 10);
    }
  }

  lemma {:induction false} AllDigitsPrefix(s: string)
    requires forall i :: 0 <= i < |s| ==> IsDigit(s[i])
    ensures DigitPrefix(s) == s
    decreases |s|
  {
    if s != [] {
      AllDigitsPrefix(s[1..]);
    }
  }

  /** `parseInt` on a run of digits. */
  lemma ParseDigits(d: string)
    requires d != [] && forall i :: 0 <= i < |d| ==> IsDigit(d[i])
    ensures ParseInt(d) == Some(DigitsValue(d))
  {
    DigitsMagnitude(d);
    NoLeadingSpace(d);
  }

  /** `parseInt` on a minus sign followed by a run of digits. */
  lemma ParseNegative(s: string)
    requires |s| > 1 && s[0] == '-' && forall i :: 1 <= i < |s| ==> IsDigit(s[i])
    ensures ParseInt(s) == Some(0 - DigitsValue(s[1..]) as int)
  {
    NoLeadingSpace(s);
    DigitsMagnitude(s[1..]);
  }

  lemma NoLeadingSpace(s: string)
    requires s != [] && (s[0] == '-' || IsDigit(s[0]))
    ensures SkipSpace(s) == s
  {
  }

  lemma DigitsMagnitude(d: string)
    requires d != [] && forall i :: 0 <= i < |d| ==> IsDigit(d[i])
    ensures Magnitude(d) == Some(DigitsValue(d))
  {
    AllDigitsPrefix(d);
  }

  /** `parseInt` reads back every integer written in decimal. */
  lemma ParseDecimal(n: int)
    ensures ParseInt(Decimal(n)) == Some(n)
  {
    var m: nat := if n < 0 then -n else n;
    DigitsRoundTrip(m);
    if n < 0 {
      var s := Decimal(n);
      assert s[1..] == Digits(m);
      ParseNegative(s);
    } else {
      ParseDigits(Digits(m));
    }
  }

  /** A parsed number as `JSON.stringify` sends it: NaN becomes null. */
  function NumberJson(v: Option<int>): Json {
    if v.Some? then JNum(v.value) else JNull
  }

  /** The inputs object after the numeric coercion, as the request body
      carries it: each allow-listed key with a non-empty value holds its
      `parseInt`, every other value is still its text. */
  function Coerced(inputs: map<string, string>): map<string, Json> {
    CoercedBy(inputs, NumericKeys)
  }

  /** The inputs object once the given keys have been coerced. */
  function CoercedBy(inputs: map<string, string>, keys: seq<string>): map<string, Json> {
    map k | k in inputs :: if k in keys && inputs[k] != "" then NumberJson(ParseInt(inputs[k])) else JStr(inputs[k])
  }

  /** An allow-listed field holding an integer's decimal text is sent as that
      integer; "7" becomes 7. */
  lemma CoercedNumber(inputs: map<string, string>, k: string, n: int)
    requires k in NumericKeys && k in inputs && inputs[k] == Decimal(n)
    ensures k in Coerced(inputs) && Coerced(inputs)[k] == JNum(n)
  {
    ParseDecimal(n);
  }

  /** Coercing one more key that holds text rewrites that key's entry alone. */
  lemma CoerceOne(inputs: map<string, string>, keys: seq<string>, key: string)
    requires key in inputs && inputs[key] != ""
    ensures CoercedBy(inputs, keys + [key]) == CoercedBy(inputs, keys)[key := NumberJson(ParseInt(inputs[key]))]
  {
    var a := CoercedBy(inputs, keys + [key]);
    var c := CoercedBy(inputs, keys)[key := NumberJson(ParseInt(inputs[key]))];
    assert a.Keys == c.Keys;
    forall k | k in a
      ensures a[k] == c[k]
    {
      assert k in keys + [key] <==> k in keys || k == key;
    }
  }

  /** Coercing one more key that is missing or empty changes nothing. */
  lemma CoerceSkip(inputs: map<string, string>, keys: seq<string>, key: string)
    requires !(key in inputs && inputs[key] != "")
    ensures CoercedBy(inputs, keys + [key]) == CoercedBy(inputs, keys)
  {
    var a := CoercedBy(inputs, keys + [key]);
    var b := CoercedBy(inputs, keys);
    assert a.Keys == b.Keys;
    forall k | k in a
      ensures a[k] == b[k]
    {
      assert k in keys + [key] <==> k in keys || k == key;
    }
  }

  /** Before any key is coerced, every value is its text. */
  lemma CoerceNone(inputs: map<string, string>)
    ensures CoercedBy(inputs, []) == map k | k in inputs :: JStr(inputs[k])
  {
  }

  /** A key not yet coerced still holds its text. */
  lemma Uncoerced(inputs: map<string, string>, keys: seq<string>, key: string)
    requires key in inputs && key !in keys
    ensures key in CoercedBy(inputs, keys) && CoercedBy(inputs, keys)[key] == JStr(inputs[key])
  {
  }

  /** The allow-list names each key once. */
  lemma NumericKeysDistinct(i: nat)
    requires i < |NumericKeys|
    ensures NumericKeys[i] !in NumericKeys[..i]
  {
  }

  /** The loop of `handleFormSubmit` over the allow-list, rewriting entries of
      the inputs object in place. */
  method CoerceNumeric(inputs: map<string, string>) returns (obj: map<string, Json>)
    ensures obj == Coerced(inputs)
  {
    obj := map k | k in inputs :: JStr(inputs[k]);
    CoerceNone(inputs);
    var i := 0;
    while i < |NumericKeys|
      invariant 0 <= i <= |NumericKeys|
      invariant obj == CoercedBy(inputs, NumericKeys[..i])
    {
      var key := NumericKeys[i];
      NumericKeysDistinct(i);
      assert NumericKeys[..i + 1] == NumericKeys[..i] + [key];
      if key in inputs {
        Uncoerced(inputs, NumericKeys[..i], key);
      }
      if key in obj && Truthy(Some(obj[key])) {
        CoerceOne(inputs, NumericKeys[..i], key);
        obj := obj[key := NumberJson(ParseInt(obj[key].s))];
      } else {
        CoerceSkip(inputs, NumericKeys[..i], key);
      }
      i := i + 1;
    }
    assert NumericKeys[..|NumericKeys|] == NumericKeys;
  }
}
