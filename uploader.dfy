/**
 * The upload component. Dropping files records the first one, checks its extension and, if it is
 * a spreadsheet, starts a request; the "Analizar archivo" button resends the recorded file
 * without any check. The request's answer arrives later and settles the page state. The fields
 * are the component's `selectedFile` and the page's `isLoading`, `error` and `analysisResult`,
 * which the component changes through the setters it is given.
 */
module Uploader {
  import opened Wrappers
  import opened JsonValues

  datatype File = File(name: string, size: nat)

  /** The analysis service's answer: the reply body, or a failure with the body's `detail` if any. */
  datatype Reply = Answered(data: Json) | Failed(detail: Option<string>)

  datatype UploadState = UploadState(
    selectedFile: Option<File>,
    isLoading: bool,
    error: Option<string>,
    analysisResult: Option<Json>)

  /** A state change together with the file sent to the service, if a request was started. */
  datatype Step = Step(state: UploadState, request: Option<File>)

  const NoFileMessage := "No se seleccionó ningún archivo"
  const NotExcelMessage := "El archivo debe ser un Excel (.xlsx o .xls)"
  const FallbackMessage := "Error al procesar el archivo. Por favor, inténtalo de nuevo."

  /** The page state before anything was dropped. */
  const Initial := UploadState(None, false, None, None)

  /** `s.endsWith(suffix)`. */
  predicate EndsWith(s: string, suffix: string) {
    |suffix| <= |s| && s[|s| - |suffix|..] == suffix
  }

  lemma EndsWithMeansSuffix(s: string, suffix: string)
    ensures EndsWith(s, suffix) <==> exists prefix :: s == prefix + suffix
  {
    if EndsWith(s, suffix) {
      var prefix := s[..|s| - |suffix|];
      assert s == prefix + suffix;
    }
    if exists prefix :: s == prefix + suffix {
      var prefix :| s == prefix + suffix;
      assert s[|s| - |suffix|..] == suffix;
    }
  }

  /** The extension check: the name ends in `.xlsx` or `.xls`, letter case included. */
  predicate IsExcelName(name: string)
    ensures IsExcelName(name) <==> exists prefix :: name == prefix + ".xlsx" || name == prefix + ".xls"
  {
    EndsWithMeansSuffix(name, ".xlsx");
    EndsWithMeansSuffix(name, ".xls");
    EndsWith(name, ".xlsx") || EndsWith(name, ".xls")
  }

  lemma ExcelNameExamples()
    ensures IsExcelName("ventas.xlsx") && IsExcelName("ventas.xls")
    ensures !IsExcelName("ventas.csv") && !IsExcelName("VENTAS.XLSX") && !IsExcelName("xlsx")
  {
    assert "ventas.xlsx"[6..] == ".xlsx";
    assert "ventas.xls"[6..] == ".xls";
    assert "ventas.csv"[6..] != ".xlsx" && "ventas.csv"[6..][1..] != ".xls";
  }

  /** The three setter calls made before every request. */
  function StartRequest(s: UploadState): UploadState {
    s.(isLoading := true, error := None, analysisResult := None)
  }

  /** The error shown for a failed request: `detail` when truthy, else the fixed message. */
  function ErrorText(detail: Option<string>): (text: string)
    ensures detail.Some? && detail.value != "" ==> text == detail.value
    ensures detail.None? || detail.value == "" ==> text == FallbackMessage
  {
    if detail.Some? && detail.value != "" then detail.value else FallbackMessage
  }

  /** `onDrop` up to the request. */
  function DropStep(s: UploadState, files: seq<File>): (step: Step)
    ensures step.request.Some? <==> files != [] && IsExcelName(files[0].name)
    ensures files != [] ==> step.state.selectedFile == Some(files[0])
    ensures files == [] ==> step.state.selectedFile == s.selectedFile
  {
    if files == [] then Step(s.(error := Some(NoFileMessage)), None)
    else
      var recorded := s.(selectedFile := Some(files[0]));
      if !IsExcelName(files[0].name) then Step(recorded.(error := Some(NotExcelMessage)), None)
      else Step(StartRequest(recorded), Some(files[0]))
  }

  /** The "Analizar archivo" handler up to the request; the button exists only while a file is recorded. */
  function AnalyzeStep(s: UploadState): (step: Step)
    requires s.selectedFile.Some?
    ensures step.request == s.selectedFile
    ensures step.state.isLoading && step.state.error == None && step.state.analysisResult == None
    ensures step.state.selectedFile == s.selectedFile
  {
    Step(StartRequest(s), s.selectedFile)
  }

  /** The part after the request settles, shared by both handlers. */
  function ReplyStep(s: UploadState, reply: Reply): (t: UploadState)
    ensures !t.isLoading && t.selectedFile == s.selectedFile
    ensures reply.Answered? ==> t.analysisResult == Some(reply.data) && t.error == s.error
    ensures reply.Failed? ==> t.analysisResult == s.analysisResult && t.error == Some(ErrorText(reply.detail))
  {
    var settled :=
      match reply
      case Answered(data) => s.(analysisResult := Some(data))
      case Failed(detail) => s.(error := Some(ErrorText(detail)));
    settled.(isLoading := false)
  }

  class FileUploader {
    var selectedFile: Option<File>
    var isLoading: bool
    var error: Option<string>
    var analysisResult: Option<Json>

    function State(): UploadState
      reads this
    {
      UploadState(selectedFile, isLoading, error, analysisResult)
    }

    constructor ()
      ensures State() == Initial
    {
      selectedFile := None;
      isLoading := false;
      error := None;
      analysisResult := None;
    }

    method OnDrop(acceptedFiles: seq<File>) returns (request: Option<File>)
      modifies this
      ensures State() == DropStep(old(State()), acceptedFiles).state
      ensures request == DropStep(old(State()), acceptedFiles).request
    {
      if |acceptedFiles| == 0 {
        error := Some(NoFileMessage);
        return None;
      }
      var file := acceptedFiles[0];
      selectedFile := Some(file);
      if !EndsWith(file.name, ".xlsx") && !EndsWith(file.name, ".xls") {
        error := Some(NotExcelMessage);
        return None;
      }
      isLoading := true;
      error := None;
      analysisResult := None;
      request := Some(file);
    }

    predicate AnalyzeButtonShown()
      reads this
    {
      selectedFile.Some?
    }

    method OnAnalyzeClick() returns (request: File)
      requires AnalyzeButtonShown()
      modifies this
      ensures State() == AnalyzeStep(old(State())).state
      ensures Some(request) == AnalyzeStep(old(State())).request
    {
      request := selectedFile.value;
      isLoading := true;
      error := None;
      analysisResult := None;
    }

    method OnReply(reply: Reply)
      modifies this
      ensures State() == ReplyStep(old(State()), reply)
    {
      match reply {
        case Answered(data) =>
          analysisResult := Some(data);
        case Failed(detail) =>
          error := Some(if detail.Some? && detail.value != "" then detail.value else FallbackMessage);
      }
      isLoading := false;
    }
  }

  // ---------------------------------------------------------------------------------------
  // Properties of the handlers

  /** What a drop does, case by case; a request starts exactly for a spreadsheet name. */
  lemma DropOutcomes(s: UploadState, files: seq<File>)
    ensures var step := DropStep(s, files);
      && (step.request.Some? <==> files != [] && IsExcelName(files[0].name))
      && (step.request.Some? ==> step.request.value == files[0])
      && step.state.selectedFile == (if files == [] then s.selectedFile else Some(files[0]))
      && (files == [] ==> step.state == s.(error := Some(NoFileMessage)))
      && (files != [] && !IsExcelName(files[0].name) ==>
            step.state == s.(selectedFile := Some(files[0]), error := Some(NotExcelMessage)))
      && (step.request.Some? ==>
            step.state.isLoading && step.state.error == None && step.state.analysisResult == None)
  {
  }

  /** Only the first dropped file is looked at. */
  lemma OnlyFirstFileMatters(s: UploadState, f: File, more: seq<File>, others: seq<File>)
    ensures DropStep(s, [f] + more) == DropStep(s, [f] + others)
  {
  }

  /** Settling a request always ends loading; it stores the reply body or shows an error. */
  lemma ReplyOutcomes(s: UploadState, reply: Reply)
    ensures var t := ReplyStep(s, reply);
      && !t.isLoading
      && t.selectedFile == s.selectedFile
      && (reply.Answered? ==> t.analysisResult == Some(reply.data) && t.error == s.error)
      && (reply.Failed? ==> t.analysisResult == s.analysisResult)
      && (reply.Failed? && reply.detail.Some? && reply.detail.value != "" ==> t.error == reply.detail)
      && (reply.Failed? && (reply.detail.None? || reply.detail.value == "") ==> t.error == Some(FallbackMessage))
  {
  }

  /** A file refused by the extension check stays recorded, so the analyse button sends it anyway. */
  lemma RefusedFileCanBeSent(s: UploadState, files: seq<File>)
    requires files != [] && !IsExcelName(files[0].name)
    ensures DropStep(s, files).request == None
    ensures DropStep(s, files).state.selectedFile.Some?
    ensures AnalyzeStep(DropStep(s, files).state).request == Some(files[0])
  {
  }

  /** The same scenario on the component: dropping `ventas.csv`, then pressing the button. */
  method RefusedThenAnalyzed() returns (dropped: Option<File>, sent: File)
    ensures dropped == None && sent == File("ventas.csv", 2048)
  {
    var uploader := new FileUploader();
    dropped := uploader.OnDrop([File("ventas.csv", 2048)]);
    assert !IsExcelName("ventas.csv") by {
      assert "ventas.csv"[6..] != ".xlsx" && "ventas.csv"[7..] != ".xls";
    }
    assert uploader.error == Some(NotExcelMessage);
    sent := uploader.OnAnalyzeClick();
  }
}
