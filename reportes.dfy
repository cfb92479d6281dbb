/**
 * The reports page: four report kinds, each needing one form field, the
 * generated report shown as a field/value table, and its export.
 */
module Reports {
  import opened Wrappers
  import opened Builtins
  import opened Json
  import opened Effects
  import Api

  const FailureFallback: string := "Error al generar reporte"
  const GeneratedToast := Toast("Éxito", "Reporte generado correctamente", false)
  const ExportedToast := Toast("Éxito", "Reporte exportado correctamente", false)

  /** What `handleGenerateReport(type)` does once loading is on. */
  datatype Plan =
    | MissingInput(message: string)  // the kind's field is empty: an error toast, no call
    | Fetch(endpoint: Api.Endpoint)  // the report call for that kind
    | NoFetch                        // a kind the switch does not know: no call

  /** The handler's `switch`: the field each kind needs, its message, and its call. */
  function PlanFor(kind: string, studentCode: string, tutorCode: string, semesterId: string, date: string): (p: Plan)
    ensures p.Fetch? ==> kind in {"student", "tutor", "semester", "date"}
    ensures kind !in {"student", "tutor", "semester", "date"} ==> p == NoFetch
  {
    match kind
    case "student" =>
      if studentCode == "" then MissingInput("Ingrese el código del estudiante")
      else Fetch(Api.GetReporteEstudiante(studentCode))
    case "tutor" =>
      if tutorCode == "" then MissingInput("Ingrese el código del tutor")
      else Fetch(Api.GetReporteTutor(tutorCode))
    case "semester" =>
      if semesterId == "" then MissingInput("Ingrese el ID del semestre")
      else Fetch(Api.GetReporteSemestre(semesterId))
    case "date" =>
      if date == "" then MissingInput("Seleccione una fecha")
      else Fetch(Api.GetReporteFecha(date))
    case _ => NoFetch
  }

  /** Each known kind reads only its own field: it is refused exactly when that
      field is empty, and otherwise requests the path built from that field. */
  lemma PlanUsesOwnField(kind: string, studentCode: string, tutorCode: string, semesterId: string, date: string)
    requires kind in {"student", "tutor", "semester", "date"}
    ensures var field := match kind
                         case "student" => studentCode
                         case "tutor" => tutorCode
                         case "semester" => semesterId
                         case _ => date;
            var prefix := match kind
                          case "student" => "/reportes/estudiante/"
                          case "tutor" => "/reportes/tutor/"
                          case "semester" => "/reportes/semestre/"
                          case _ => "/reportes/fecha/";
            var p := PlanFor(kind, studentCode, tutorCode, semesterId, date);
            (p.MissingInput? <==> field == "")
            && (p.Fetch? <==> field != "")
            && (p.Fetch? ==> Api.Path(p.endpoint) == prefix + field && !Api.IsPublic(p.endpoint))
  {
  }

  /** The four report calls go to four distinct paths, whatever the codes. */
  lemma ReportPathsDistinct(a: string, b: string, c: string, d: string)
    ensures var paths := [Api.Path(Api.GetReporteEstudiante(a)), Api.Path(Api.GetReporteTutor(b)),
                          Api.Path(Api.GetReporteSemestre(c)), Api.Path(Api.GetReporteFecha(d))];
            forall i, j :: 0 <= i < j < 4 ==> paths[i] != paths[j]
  {
    var paths := [Api.Path(Api.GetReporteEstudiante(a)), Api.Path(Api.GetReporteTutor(b)),
                  Api.Path(Api.GetReporteSemestre(c)), Api.Path(Api.GetReporteFecha(d))];
    var prefixes := ["/reportes/estudiante/", "/reportes/tutor/", "/reportes/semestre/", "/reportes/fecha/"];
    forall i, j | 0 <= i < j < 4 ensures paths[i] != paths[j] {
      assert prefixes[i] <= paths[i] && prefixes[j] <= paths[j];
      assert paths[i][10] != paths[j][10];
    }
  }

  // ---------------------------------------------------------------------------
  // The report table
  // ---------------------------------------------------------------------------

  /** `key.replace(/_/g, " ")`. */
  function FieldLabel(key: string): (r: string)
    ensures |r| == |key|
    ensures forall i :: 0 <= i < |r| ==> r[i] != '_'
    ensures forall i :: 0 <= i < |key| && key[i] != '_' ==> r[i] == key[i]
    ensures forall i :: 0 <= i < |key| && key[i] == '_' ==> r[i] == ' '
  {
    ReplaceAll(key, '_', ' ')
  }

  /** A label is already in its final form. */
  lemma FieldLabelIdempotent(key: string)
    ensures FieldLabel(FieldLabel(key)) == FieldLabel(key)
  {
  }

  /** A key without underscores is its own label. */
  lemma FieldLabelKeepsPlainKeys(key: string)
    requires forall i :: 0 <= i < |key| ==> key[i] != '_'
    ensures FieldLabel(key) == key
  {
  }

  /** A value's cell: object-typed values (including `null`) as JSON text, others
      through `String(value)`. */
  function CellText(v: Json): (r: string)
    ensures v.JNull? ==> r == "null"
    ensures v.JStr? ==> r == v.s
  {
    match v
    case JNull => Stringify(v)
    case JArr(_) => Stringify(v)
    case JObj(_) => Stringify(v)
    case _ => ToText(v)
  }

  datatype ReportRow = ReportRow(field: string, text: string)

  /** `Object.entries(reportData)` as table rows: an object's members, an array's
      items under their indices, a string's characters under theirs. */
  function ReportRows(data: Json): (rows: seq<ReportRow>)
    ensures data.JObj? ==>
              (|rows| == |data.members|
               && forall i :: 0 <= i < |rows| ==>
                    rows[i] == ReportRow(FieldLabel(data.members[i].key), CellText(data.members[i].value)))
    ensures data.JArr? ==>
              (|rows| == |data.items|
               && forall i :: 0 <= i < |rows| ==> rows[i] == ReportRow(IntToString(i), CellText(data.items[i])))
    ensures data.JStr? ==>
              (|rows| == |data.s|
               && forall i :: 0 <= i < |rows| ==> rows[i] == ReportRow(IntToString(i), [data.s[i]]))
    ensures !data.JObj? && !data.JArr? && !data.JStr? ==> rows == []
  {
    match data
    case JObj(ms) =>
      seq(|ms|, i requires 0 <= i < |ms| => ReportRow(FieldLabel(ms[i].key), CellText(ms[i].value)))
    case JArr(items) =>
      seq(|items|, i requires 0 <= i < |items| => ReportRow(IntToString(i), CellText(items[i])))
    case JStr(s) =>
      seq(|s|, i requires 0 <= i < |s| => ReportRow(IntToString(i), [s[i]]))
    case _ => []
  }

  // ---------------------------------------------------------------------------
  // The page
  // ---------------------------------------------------------------------------

  class ReportsPage {
    var studentCode: string
    var tutorCode: string
    var semesterId: string
    var date: string
    var isLoading: bool
    /** The last report; `null` and `undefined` are both `JNull`. */
    var reportData: Json
    var trace: seq<Event>

    constructor ()
      ensures studentCode == "" && tutorCode == "" && semesterId == "" && date == ""
      ensures !isLoading && reportData == JNull && trace == []
    {
      studentCode, tutorCode, semesterId, date := "", "", "", "";
      isLoading := false;
      reportData := JNull;
      trace := [];
    }

    /** The results card is shown only for a truthy report. */
    predicate ResultsShown()
      reads this
    {
      Truthy(reportData)
    }

    /** The rows of the results table when it is shown. */
    function Rows(): seq<ReportRow>
      reads this
    {
      if ResultsShown() then ReportRows(reportData) else []
    }

    method SetStudentCode(value: string)
      modifies this`studentCode
      ensures studentCode == value
    {
      studentCode := value;
    }

    method SetTutorCode(value: string)
      modifies this`tutorCode
      ensures tutorCode == value
    {
      tutorCode := value;
    }

    method SetSemesterId(value: string)
      modifies this`semesterId
      ensures semesterId == value
    {
      semesterId := value;
    }

    method SetDate(value: string)
      modifies this`date
      ensures date == value
    {
      date := value;
    }

    /** `handleGenerateReport(kind)`: loading on and the old report cleared first;
        then the plan for the kind runs, and loading is switched off on every path,
        the early return on an empty field included (it is inside the `try`). */
    method HandleGenerateReport(kind: string, outcome: Result<Json, string>)
      modifies this`isLoading, this`reportData, this`trace
      ensures !isLoading
      ensures var p := PlanFor(kind, studentCode, tutorCode, semesterId, date);
              p.MissingInput? ==>
                reportData == JNull
                && trace == old(trace) + [LoadingSet(true), Toasted(ErrorToast(p.message)), LoadingSet(false)]
      ensures var p := PlanFor(kind, studentCode, tutorCode, semesterId, date);
              p.NoFetch? ==>
                reportData == JNull
                && trace == old(trace) + [LoadingSet(true), Toasted(GeneratedToast), LoadingSet(false)]
      ensures var p := PlanFor(kind, studentCode, tutorCode, semesterId, date);
              p.Fetch? && outcome.Ok? ==>
                reportData == outcome.value
                && trace == old(trace) + [LoadingSet(true), Called(p.endpoint), Toasted(GeneratedToast), LoadingSet(false)]
      ensures var p := PlanFor(kind, studentCode, tutorCode, semesterId, date);
              p.Fetch? && outcome.Err? ==>
                reportData == JNull
                && trace == old(trace) + [LoadingSet(true), Called(p.endpoint),
                                          Toasted(ErrorToast(OrElse(outcome.error, FailureFallback))), LoadingSet(false)]
    {
      isLoading := true;
      trace := trace + [LoadingSet(true)];
      reportData := JNull;
      var plan := PlanFor(kind, studentCode, tutorCode, semesterId, date);
      match plan {
        case MissingInput(message) =>
          trace := trace + [Toasted(ErrorToast(message))];
        case NoFetch =>
          reportData := JNull;
          trace := trace + [Toasted(GeneratedToast)];
        case Fetch(endpoint) =>
          trace := trace + [Called(endpoint)];
          if outcome.Ok? {
            reportData := outcome.value;
            trace := trace + [Toasted(GeneratedToast)];
          } else {
            trace := trace + [Toasted(ErrorToast(OrElse(outcome.error, FailureFallback)))];
          }
      }
      isLoading := false;
      trace := trace + [LoadingSet(false)];
    }

    /** `handleExport()`: nothing for a falsy report; otherwise the report is
        downloaded and a toast confirms it. */
    method HandleExport()
      modifies this`trace
      ensures !Truthy(reportData) ==> trace == old(trace)
      ensures Truthy(reportData) ==> trace == old(trace) + [Exported(reportData), Toasted(ExportedToast)]
    {
      if !Truthy(reportData) {
        return;
      }
      trace := trace + [Exported(reportData), Toasted(ExportedToast)];
    }
  }
}
