/**
 * The data of one import session: the flat state record the import reducer
 * owns, the three kinds of field a preview can hold, and the actions that the
 * reducer understands.
 */
module ImportTypes {

  datatype Option<+T> = None | Some(value: T)

  /** The process status shared by the import run and the CSV analysis. */
  datatype ProcessStatus =
    | Unspecified
    | Started
    | Canceled
    | Completed
    | CompletedWithErrors
    | Failed

  /** '' (nothing chosen yet), 'csv' or 'json' (JSON lines are 'json' plus a flag). */
  datatype FileType = NoFileType | Csv | Json

  /** The four CSV delimiters: ',', '\t', ';' and ' '. */
  datatype Delimiter = Comma | Tab | Semicolon | Space

  /**
   * A CSV field type name. The name 'placeholder' is not one of them: it is
   * the tag that marks a placeholder field.
   */
  type CsvType = t: string | t != "placeholder" witness "mixed"

  /** What the CSV analyzer reports about one column (only the detected type is kept). */
  datatype ColumnAnalysis = ColumnAnalysis(detected: CsvType)

  /** The analyzer's result: one column analysis per field path. */
  datatype AnalyzeResult = AnalyzeResult(columns: map<string, ColumnAnalysis>)

  /**
   * A field of the preview: a typed CSV column, a JSON field, or a placeholder
   * standing for a later element of an array column.
   */
  datatype Field =
    | CsvField(path: string, checked: bool, fieldType: CsvType, result: Option<ColumnAnalysis>)
    | JsonField(path: string, checked: bool)
    | Placeholder(path: string)

  /**
   * One `[path, type]` pair of `transform`. A JSON field has no type, so its
   * pair carries `None` (the source's `undefined`).
   */
  datatype Entry = Entry(path: string, fieldType: Option<CsvType>)

  /** An error object; `id` stands for its identity, which is what `includes` compares. */
  datatype ImportError = ImportError(id: nat, message: string)

  /** An abort controller, known only by its identity. */
  datatype AbortToken = AbortToken(id: nat)

  datatype FileStats = FileStats(size: nat)

  datatype State = State(
    isOpen: bool,
    isInProgressMessageOpen: bool,
    errors: seq<ImportError>,
    fileType: FileType,
    fileName: string,
    fileIsMultilineJSON: bool,
    useHeaderLines: bool,
    status: ProcessStatus,
    fileStats: Option<FileStats>,
    docsTotal: int,
    docsProcessed: int,
    docsWritten: int,
    guesstimatedDocsTotal: int,
    guesstimatedDocsProcessed: int,
    delimiter: Option<Delimiter>,
    stopOnErrors: bool,
    ignoreBlanks: bool,
    fields: seq<Field>,
    values: seq<seq<string>>,
    previewLoaded: bool,
    exclude: seq<string>,
    transform: seq<Entry>,
    abortController: Option<AbortToken>,
    analyzeAbortController: Option<AbortToken>,
    analyzeResult: Option<AnalyzeResult>,
    analyzeStatus: ProcessStatus,
    analyzeError: Option<ImportError>)

  /** The state before anything happened, and the one OPEN starts from. */
  const Initial: State := State(
    isOpen := false,
    isInProgressMessageOpen := false,
    errors := [],
    fileType := NoFileType,
    fileName := "",
    fileIsMultilineJSON := false,
    useHeaderLines := true,
    status := Unspecified,
    fileStats := None,
    docsTotal := -1,
    docsProcessed := 0,
    docsWritten := 0,
    guesstimatedDocsTotal := 0,
    guesstimatedDocsProcessed := 0,
    delimiter := Some(Comma),
    stopOnErrors := false,
    ignoreBlanks := true,
    fields := [],
    values := [],
    previewLoaded := false,
    exclude := [],
    transform := [],
    abortController := None,
    analyzeAbortController := None,
    analyzeResult := None,
    analyzeStatus := Unspecified,
    analyzeError := None)

  /**
   * The actions of the import slice (STARTED, FAILED and CANCELED are
   * ImportStarted, ImportFailed and ImportCanceled). `Foreign` stands for any action of
   * another slice (the namespace change, the app-registry emit), which this
   * reducer passes through.
   */
  datatype Action =
    | FileSelected(detectedDelimiter: Option<Delimiter>, fileName: string, fileType: FileType,
                   fileStats: Option<FileStats>, fileIsMultilineJSON: bool)
    | FileTypeSelected(fileType: FileType)
    | SetStopOnErrors(stopOnErrors: bool)
    | SetIgnoreBlanks(ignoreBlanks: bool)
    | SetDelimiter(delimiter: Delimiter)
    | SetPreview(fields: seq<Field>, values: seq<seq<string>>)
    | ToggleIncludeField(path: string)
    | SetFieldType(path: string, bsonType: CsvType)
    | ImportFailed(error: ImportError)
    | ImportStarted(abortController: AbortToken)
    | SetGuesstimatedTotal(guesstimatedDocsTotal: int)
    | GuesstimatedProgress(guesstimatedDocsProcessed: int, guesstimatedDocsTotal: int)
    | Progress(docsWritten: int, docsProcessed: int, errors: seq<ImportError>)
    | Finished(docsWritten: int, docsTotal: int)
    | ImportCanceled
    | Open
    | Close
    | OpenInProgressMessage
    | CloseInProgressMessage
    | AnalyzeStarted(abortController: AbortToken)
    | AnalyzeFinished(result: AnalyzeResult)
    | AnalyzeFailed(analyzeError: Option<ImportError>)
    | AnalyzeCancelled
    | Foreign
}
