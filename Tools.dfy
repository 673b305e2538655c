/**
 * The nine content-generation tools. The server and the client both select
 * on the tool's wire name; this module is the one place the names are listed.
 */
module Tools {
  import opened Json

  datatype Tool =
    | Mcq | Worksheet | LessonPlan | Summarizer | Proofread
    | Ppt | ReportCard | EssayGrader | TextRewriter

  /** The tool's identifier on the wire and in the client's forms. */
  function Name(t: Tool): string {
    match t
    case Mcq => "mcq"
    case Worksheet => "worksheet"
    case LessonPlan => "lessonplan"
    case Summarizer => "summarizer"
    case Proofread => "proofread"
    case Ppt => "ppt"
    case ReportCard => "reportcard"
    case EssayGrader => "essaygrader"
    case TextRewriter => "textrewriter"
  }

  const AllNames: set<string> :=
    {"mcq", "worksheet", "lessonplan", "summarizer", "proofread",
     "ppt", "reportcard", "essaygrader", "textrewriter"}

  /** The tool a name selects, by exact string comparison, or None. */
  function Parse(name: string): (r: Option<Tool>)
    ensures r.Some? <==> name in AllNames
    ensures r.Some? ==> Name(r.value) == name
  {
    if name == "mcq" then Some(Mcq)
    else if name == "worksheet" then Some(Worksheet)
    else if name == "lessonplan" then Some(LessonPlan)
    else if name == "summarizer" then Some(Summarizer)
    else if name == "proofread" then Some(Proofread)
    else if name == "ppt" then Some(Ppt)
    else if name == "reportcard" then Some(ReportCard)
    else if name == "essaygrader" then Some(EssayGrader)
    else if name == "textrewriter" then Some(TextRewriter)
    else None
  }

  /** Naming a tool and parsing the name gives the tool back, and the nine
      names are pairwise distinct. */
  lemma ParseName(t: Tool)
    ensures Parse(Name(t)) == Some(t)
    ensures Name(t) in AllNames
  {
  }
}
