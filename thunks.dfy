/**
 * The decisions of the import thunks: which actions `cancelImport`,
 * `openImport`, `selectImportFileName`, `setDelimiter`, `loadCSVPreviewDocs`
 * and `loadTypes` dispatch, given what their asynchronous steps (file checks,
 * type detection, header listing, column analysis) produced. Those outcomes
 * are parameters; the lemmas follow the dispatched actions through the reducer.
 */
module ImportThunks {
  import opened ImportTypes
  import opened FieldSelection
  import opened ImportReducer
  import opened SchemaInference
  import opened StartImport

  // ---------------------------------------------------------------------
  // Cancelling and opening
  // ---------------------------------------------------------------------

  /** CANCELED when there is a run to abort, nothing otherwise. */
  function CancelImport(s: State): seq<Action>
  {
    if s.abortController.Some? then [ImportCanceled] else []
  }

  /**
   * Without a controller cancelling changes nothing; with one the status
   * becomes CANCELED and the controller is dropped, all else kept. A second
   * cancel is a no-op.
   */
  lemma CancelImportEffect(s: State)
    ensures s.abortController.None? ==> Apply(s, CancelImport(s)) == s
    ensures s.abortController.Some? ==>
      Apply(s, CancelImport(s)) == s.(status := Canceled, abortController := None)
    ensures var c := Apply(s, CancelImport(s)); CancelImport(c) == [] && Apply(c, CancelImport(c)) == c
  {
    if s.abortController.Some? {
      ApplyOne(s, ImportCanceled);
    }
  }

  /**
   * A run cancelled while in flight: if the importer then resolves, the
   * status stays CANCELED; if it rejects, FAILED overrides the cancel.
   */
  lemma CancelDuringRun(s: State, token: AbortToken, o: WriteOutcome)
    ensures var started := Reduce(s, ImportStarted(token));
      var cancelled := Apply(started, CancelImport(started));
      var r := Apply(cancelled, SettleActions(o));
      && cancelled.status == Canceled
      && (o.Resolved? ==> r.status == Canceled)
      && (o.Rejected? ==> r.status == Failed && o.error in r.errors)
      && r.abortController == None
  {
    var started := Reduce(s, ImportStarted(token));
    CancelImportEffect(started);
    var cancelled := Apply(started, CancelImport(started));
    match o
    case Resolved(w, p) => SettleResolved(cancelled, w, p);
    case Rejected(e, w, p) => SettleRejected(cancelled, e, w, p);
  }

  /**
   * While a run is in progress only the in-progress message is shown;
   * otherwise the namespace change (an action of another slice) and OPEN.
   */
  function OpenImport(s: State): seq<Action>
  {
    if s.status == Started then [OpenInProgressMessage] else [Foreign, Open]
  }

  /**
   * Opening during a run keeps the whole state (the run included) and only
   * raises the message; otherwise the dialog opens on a fresh initial state.
   */
  lemma OpenImportEffect(s: State)
    ensures s.status == Started ==> Apply(s, OpenImport(s)) == s.(isInProgressMessageOpen := true)
    ensures s.status != Started ==> Apply(s, OpenImport(s)) == Initial.(isOpen := true)
  {
    if s.status == Started {
      ApplyOne(s, OpenInProgressMessage);
    } else {
      ApplyTwo(s, Foreign, Open);
    }
  }

  // ---------------------------------------------------------------------
  // Loading a CSV preview
  // ---------------------------------------------------------------------

  /** How listing the header row and preview rows of a CSV file went. */
  datatype Listing = ListingFailed | Listed(headers: seq<string>, preview: seq<seq<string>>)

  /** How analyzing the CSV columns went. */
  datatype Analysis = AnalysisFailed | Returned(result: AnalyzeResult)

  /**
   * `loadTypes`: ANALYZE_STARTED, then, when the analysis covers every
   * non-placeholder field, the typed fields as a new preview and
   * ANALYZE_FINISHED; a failed analysis or a field missing from it (the
   * lookup throws) gives ANALYZE_FAILED without an error.
   */
  function LoadTypesActions(fs: seq<Field>, values: seq<seq<string>>, token: AbortToken, analysis: Analysis): seq<Action>
  {
    match analysis
    case Returned(r) =>
      if Analyzed(fs, r) then [AnalyzeStarted(token), SetPreview(MergeTypes(fs, r), values), AnalyzeFinished(r)]
      else [AnalyzeStarted(token), AnalyzeFailed(None)]
    case AnalysisFailed => [AnalyzeStarted(token), AnalyzeFailed(None)]
  }

  /** An analysis still in flight is cancelled before a new preview is loaded. */
  function Supersede(s: State): seq<Action>
  {
    if s.analyzeAbortController.Some? then [AnalyzeCancelled] else []
  }

  /**
   * `loadCSVPreviewDocs`: supersede the analysis in flight, then preview the
   * header fields and load their types. A failed listing is swallowed.
   */
  function LoadCsvPreview(s: State, listing: Listing, nameOf: string -> string, token: AbortToken,
                          analysis: Analysis): seq<Action>
  {
    Supersede(s) +
    match listing
    case ListingFailed => []
    case Listed(h, v) =>
      var fs := HeaderFields(h, nameOf);
      [SetPreview(fs, v)] + LoadTypesActions(fs, v, token, analysis)
  }

  /** The state once a pending analysis has been superseded. */
  lemma SupersedeEffect(s: State)
    ensures var c := Apply(s, Supersede(s));
      && c.analyzeAbortController == None
      && (s.analyzeAbortController.Some? ==>
            c == s.(analyzeStatus := Canceled, analyzeAbortController := None, analyzeError := None))
      && (s.analyzeAbortController.None? ==> c == s)
  {
    if s.analyzeAbortController.Some? {
      ApplyOne(s, AnalyzeCancelled);
    }
  }

  /** The fields of a header list can be typed by an analysis of their columns. */
  lemma HeaderMergeWellFormed(h: seq<string>, nameOf: string -> string, r: AnalyzeResult)
    requires Analyzed(HeaderFields(h, nameOf), r)
    ensures NoJsonFields(MergeTypes(HeaderFields(h, nameOf), r))
    ensures NoMixedPath(MergeTypes(HeaderFields(h, nameOf), r))
  {
    HeaderFieldsWellFormed(h, nameOf);
    MergeKeepsSelectionShape(HeaderFields(h, nameOf), r);
  }

  /**
   * A successful `loadTypes` replaces the preview by the typed fields and
   * records the analysis as COMPLETED with its result; nothing else changes.
   */
  lemma LoadTypesSucceeds(p: State, fs: seq<Field>, v: seq<seq<string>>, token: AbortToken, r: AnalyzeResult)
    requires Analyzed(fs, r)
    ensures LoadTypesActions(fs, v, token, Returned(r))
         == [AnalyzeStarted(token), SetPreview(MergeTypes(fs, r), v), AnalyzeFinished(r)]
    ensures Apply(p, [AnalyzeStarted(token), SetPreview(MergeTypes(fs, r), v), AnalyzeFinished(r)])
         == Reduce(p, SetPreview(MergeTypes(fs, r), v)).(analyzeStatus := Completed, analyzeAbortController := None,
                                                         analyzeResult := Some(r), analyzeError := None)
  {
    ApplyThree(p, AnalyzeStarted(token), SetPreview(MergeTypes(fs, r), v), AnalyzeFinished(r));
  }

  /** A failed `loadTypes` only records the analysis as FAILED, without an error. */
  lemma LoadTypesFails(p: State, fs: seq<Field>, v: seq<seq<string>>, token: AbortToken, analysis: Analysis)
    requires analysis.Returned? ==> !Analyzed(fs, analysis.result)
    ensures LoadTypesActions(fs, v, token, analysis) == [AnalyzeStarted(token), AnalyzeFailed(None)]
    ensures Apply(p, [AnalyzeStarted(token), AnalyzeFailed(None)])
         == p.(analyzeStatus := Failed, analyzeAbortController := None, analyzeError := None)
  {
    ApplyTwo(p, AnalyzeStarted(token), AnalyzeFailed(None));
  }

  /**
   * The state a preview of `fs` ends in once their types are loaded: the
   * typed fields and their rows shown, all checked fields in `transform`,
   * nothing excluded, the analysis COMPLETED with its result.
   */
  function TypedPreview(s: State, fs: seq<Field>, v: seq<seq<string>>, r: AnalyzeResult): State
    requires Analyzed(fs, r)
  {
    var m := MergeTypes(fs, r);
    s.(fields := m, values := v, previewLoaded := true, exclude := [], transform := Collect(m, PreviewPick),
       analyzeStatus := Completed, analyzeAbortController := None, analyzeResult := Some(r), analyzeError := None)
  }

  /** The state a preview of `fs` ends in when their types cannot be loaded: the analysis FAILED. */
  function UntypedPreview(s: State, fs: seq<Field>, v: seq<seq<string>>): State
  {
    s.(fields := fs, values := v, previewLoaded := true, exclude := [], transform := Collect(fs, PreviewPick),
       analyzeStatus := Failed, analyzeAbortController := None, analyzeError := None)
  }

  /**
   * The field objects `loadTypes` is handed, as they read once it has run: the
   * merge loop writes type and analysis into them in place up to the first
   * column the analysis lacks, and a failed analysis leaves them alone.
   */
  function LoadedFields(fs: seq<Field>, analysis: Analysis): seq<Field>
  {
    match analysis
    case Returned(r) => MergeUntilMissing(fs, r)
    case AnalysisFailed => fs
  }

  /**
   * The state the store holds once `loadCSVPreviewDocs` is done: the state the
   * dispatched actions give, except that the fields SET_PREVIEW stored are the
   * very objects `loadTypes` then writes into, so they read as `LoadedFields`.
   */
  function PreviewOutcome(s: State, listing: Listing, nameOf: string -> string, token: AbortToken,
                          analysis: Analysis): State
  {
    var e := Apply(s, LoadCsvPreview(s, listing, nameOf, token, analysis));
    match listing
    case ListingFailed => e
    case Listed(h, _) => e.(fields := LoadedFields(HeaderFields(h, nameOf), analysis))
  }

  /** The preview followed by a successful `loadTypes`, for any fields the analysis covers. */
  lemma PreviewThenTypes(c: State, fs: seq<Field>, v: seq<seq<string>>, token: AbortToken, r: AnalyzeResult)
    requires Analyzed(fs, r)
    ensures Apply(c, [SetPreview(fs, v)] + LoadTypesActions(fs, v, token, Returned(r))) == TypedPreview(c, fs, v, r)
  {
    var tail := LoadTypesActions(fs, v, token, Returned(r));
    ApplyConcat(c, [SetPreview(fs, v)], tail);
    ApplyOne(c, SetPreview(fs, v));
    LoadTypesSucceeds(Reduce(c, SetPreview(fs, v)), fs, v, token, r);
  }

  /** The preview followed by a failed `loadTypes`, for any fields. */
  lemma PreviewThenFailure(c: State, fs: seq<Field>, v: seq<seq<string>>, token: AbortToken, analysis: Analysis)
    requires analysis.Returned? ==> !Analyzed(fs, analysis.result)
    ensures Apply(c, [SetPreview(fs, v)] + LoadTypesActions(fs, v, token, analysis)) == UntypedPreview(c, fs, v)
  {
    var tail := LoadTypesActions(fs, v, token, analysis);
    ApplyConcat(c, [SetPreview(fs, v)], tail);
    ApplyOne(c, SetPreview(fs, v));
    LoadTypesFails(Reduce(c, SetPreview(fs, v)), fs, v, token, analysis);
  }

  /** The previews do not depend on the analysis an earlier preview left behind. */
  lemma PreviewsForgetAnalysis(s: State, fs: seq<Field>, v: seq<seq<string>>)
    ensures var c := s.(analyzeStatus := Canceled, analyzeAbortController := None, analyzeError := None);
      && UntypedPreview(c, fs, v) == UntypedPreview(s, fs, v)
      && forall r :: Analyzed(fs, r) ==> TypedPreview(c, fs, v, r) == TypedPreview(s, fs, v, r)
  {
  }

  /**
   * A preview of header fields whose analysis covers every column ends in
   * the typed preview, whether or not an analysis was in flight.
   */
  lemma PreviewLoadSucceeds(s: State, h: seq<string>, v: seq<seq<string>>, nameOf: string -> string,
                            token: AbortToken, r: AnalyzeResult)
    requires Analyzed(HeaderFields(h, nameOf), r)
    ensures Apply(s, LoadCsvPreview(s, Listed(h, v), nameOf, token, Returned(r)))
         == TypedPreview(s, HeaderFields(h, nameOf), v, r)
    ensures PreviewOutcome(s, Listed(h, v), nameOf, token, Returned(r)) == TypedPreview(s, HeaderFields(h, nameOf), v, r)
  {
    var fs := HeaderFields(h, nameOf);
    var tail := [SetPreview(fs, v)] + LoadTypesActions(fs, v, token, Returned(r));
    assert LoadCsvPreview(s, Listed(h, v), nameOf, token, Returned(r)) == Supersede(s) + tail;
    ApplyConcat(s, Supersede(s), tail);
    SupersedeEffect(s);
    PreviewThenTypes(Apply(s, Supersede(s)), fs, v, token, r);
    PreviewsForgetAnalysis(s, fs, v);
  }

  /**
   * A preview of header fields whose analysis fails, or misses a column: the
   * dispatched actions end in the untyped preview, the analysis FAILED
   * without an error.
   */
  lemma PreviewLoadAnalysisFails(s: State, h: seq<string>, v: seq<seq<string>>, nameOf: string -> string,
                                 token: AbortToken, analysis: Analysis)
    requires analysis.Returned? ==> !Analyzed(HeaderFields(h, nameOf), analysis.result)
    ensures Apply(s, LoadCsvPreview(s, Listed(h, v), nameOf, token, analysis))
         == UntypedPreview(s, HeaderFields(h, nameOf), v)
  {
    var fs := HeaderFields(h, nameOf);
    var tail := [SetPreview(fs, v)] + LoadTypesActions(fs, v, token, analysis);
    assert LoadCsvPreview(s, Listed(h, v), nameOf, token, analysis) == Supersede(s) + tail;
    ApplyConcat(s, Supersede(s), tail);
    SupersedeEffect(s);
    PreviewThenFailure(Apply(s, Supersede(s)), fs, v, token, analysis);
    PreviewsForgetAnalysis(s, fs, v);
  }

  /**
   * The store's state after such a preview: the untyped preview when the
   * analysis itself fails; when it misses a column, the same but with the
   * fields before that column typed in place.
   */
  lemma PreviewOutcomeAnalysisFails(s: State, h: seq<string>, v: seq<seq<string>>, nameOf: string -> string,
                                    token: AbortToken, analysis: Analysis)
    requires analysis.Returned? ==> !Analyzed(HeaderFields(h, nameOf), analysis.result)
    ensures analysis.AnalysisFailed? ==>
      PreviewOutcome(s, Listed(h, v), nameOf, token, analysis) == UntypedPreview(s, HeaderFields(h, nameOf), v)
    ensures analysis.Returned? ==>
      PreviewOutcome(s, Listed(h, v), nameOf, token, analysis)
        == UntypedPreview(s, HeaderFields(h, nameOf), v).(fields := MergeUntilMissing(HeaderFields(h, nameOf), analysis.result))
  {
    PreviewLoadAnalysisFails(s, h, v, nameOf, token, analysis);
  }

  /**
   * Either way the header fields end up soundly selected: what an import
   * would write is exactly the checked typed fields.
   */
  lemma HeaderPreviewsSound(s: State, h: seq<string>, v: seq<seq<string>>, nameOf: string -> string, r: AnalyzeResult)
    ensures SelectionSound(UntypedPreview(s, HeaderFields(h, nameOf), v))
    ensures Analyzed(HeaderFields(h, nameOf), r) ==> SelectionSound(TypedPreview(s, HeaderFields(h, nameOf), v, r))
  {
    var fs := HeaderFields(h, nameOf);
    HeaderFieldsWellFormed(h, nameOf);
    PreviewListWritesSelection(fs);
    if Analyzed(fs, r) {
      HeaderMergeWellFormed(h, nameOf, r);
      PreviewListWritesSelection(MergeTypes(fs, r));
    }
  }

  /** An analysis of headers `a` and `b` that covers only `a`, detected as 'int'. */
  const PartialAnalysis: AnalyzeResult := AnalyzeResult(map["a" := ColumnAnalysis("int")])

  /** The preview fields of headers `a`, `b`, and the same with `a` typed by that analysis. */
  const TwoFields: seq<Field> := [CsvField("a", true, "mixed", None), CsvField("b", true, "mixed", None)]
  const TypedFirst: seq<Field> :=
    [CsvField("a", true, "int", Some(ColumnAnalysis("int"))), CsvField("b", true, "mixed", None)]

  lemma TwoHeaderFields(nameOf: string -> string)
    requires nameOf("a") == "a" && nameOf("b") == "b"
    ensures HeaderFields(["a", "b"], nameOf) == TwoFields
  {
    var h := ["a", "b"];
    assert NamesBefore(h, nameOf, 0) == {};
    assert NamesBefore(h, nameOf, 1) == {"a"} by {
      assert nameOf(h[0]) == "a";
    }
  }

  /** The merge loop types `a` and throws at `b`. */
  lemma PartialMergeTypesFirst()
    ensures !Analyzed(TwoFields, PartialAnalysis)
    ensures MergeUntilMissing(TwoFields, PartialAnalysis) == TypedFirst
  {
    var fs := TwoFields;
    assert fs[..1] == [fs[0]] && fs[1..] == [fs[1]];
    assert MissingAt(fs, PartialAnalysis, 1);
    MissingAtIsFirst(fs, PartialAnalysis, 1);
    assert MergeTypes([fs[0]], PartialAnalysis) == [TypedFirst[0]];
  }

  /** With `a` typed in place, the `transform` of the untyped preview still writes `a` as 'mixed'. */
  lemma StaleTransformUnsound(s: State, v: seq<seq<string>>)
    ensures var e := UntypedPreview(s, TwoFields, v).(fields := TypedFirst);
      && "a" in WriteFields(e.transform, e.exclude) && WriteFields(e.transform, e.exclude)["a"] == Some("mixed")
      && !SelectionSound(e)
  {
    var a, b := TwoFields[0], TwoFields[1];
    var e := UntypedPreview(s, TwoFields, v).(fields := TypedFirst);
    assert e.transform == [EntryOf(a), EntryOf(b)] by {
      assert TwoFields == [a] + [b];
      CollectAppend([a], [b], PreviewPick);
      assert [a] == [] + [a];
      CollectAppend([], [a], PreviewPick);
    }
    WriteFieldsLastWins(e.transform, [], 0);
    var typedA := TypedFirst[0];
    var selected := Collect(TypedFirst, CheckedCsvPick);
    assert selected == [EntryOf(typedA), EntryOf(b)] by {
      assert TypedFirst == [typedA] + [b];
      CollectAppend([typedA], [b], CheckedCsvPick);
      assert [typedA] == [] + [typedA];
      CollectAppend([], [typedA], CheckedCsvPick);
    }
    WriteFieldsLastWins(selected, [], 0);
  }

  /**
   * The analysis of `a`, `b` misses `b`: the loop types `a` in place and then
   * throws, so the store shows `a` as 'int' while `transform`, computed by
   * SET_PREVIEW before the loop, still writes `a` as 'mixed'. The selection
   * is no longer sound, although the dispatched actions alone keep it sound.
   */
  lemma MissingColumnBreaksSelection(s: State, v: seq<seq<string>>, nameOf: string -> string, token: AbortToken)
    requires nameOf("a") == "a" && nameOf("b") == "b"
    ensures var e := PreviewOutcome(s, Listed(["a", "b"], v), nameOf, token, Returned(PartialAnalysis));
      && e.fields == TypedFirst
      && "a" in WriteFields(e.transform, e.exclude) && WriteFields(e.transform, e.exclude)["a"] == Some("mixed")
      && !SelectionSound(e)
    ensures SelectionSound(Apply(s, LoadCsvPreview(s, Listed(["a", "b"], v), nameOf, token, Returned(PartialAnalysis))))
  {
    TwoHeaderFields(nameOf);
    PartialMergeTypesFirst();
    PreviewLoadAnalysisFails(s, ["a", "b"], v, nameOf, token, Returned(PartialAnalysis));
    PreviewOutcomeAnalysisFails(s, ["a", "b"], v, nameOf, token, Returned(PartialAnalysis));
    StaleTransformUnsound(s, v);
    HeaderPreviewsSound(s, ["a", "b"], v, nameOf, PartialAnalysis);
  }

  /**
   * A preview load cancels a pending analysis before anything else, and
   * dispatches no cancel when none is pending.
   */
  lemma PreviewSupersedes(s: State, listing: Listing, nameOf: string -> string, token: AbortToken, analysis: Analysis)
    ensures var actions := LoadCsvPreview(s, listing, nameOf, token, analysis);
      && (s.analyzeAbortController.Some? ==> |actions| > 0 && actions[0] == AnalyzeCancelled)
      && (s.analyzeAbortController.None? ==> AnalyzeCancelled !in actions)
  {
    var actions := LoadCsvPreview(s, listing, nameOf, token, analysis);
    if s.analyzeAbortController.None? {
      match listing
      case ListingFailed =>
      case Listed(h, v) =>
        var fs := HeaderFields(h, nameOf);
        assert actions == [SetPreview(fs, v)] + LoadTypesActions(fs, v, token, analysis);
    }
  }

  /** A listing that fails leaves only the superseded analysis behind. */
  lemma PreviewListingFails(s: State, nameOf: string -> string, token: AbortToken, analysis: Analysis)
    ensures Apply(s, LoadCsvPreview(s, ListingFailed, nameOf, token, analysis)) == Apply(s, Supersede(s))
    ensures Apply(s, LoadCsvPreview(s, ListingFailed, nameOf, token, analysis)).fields == s.fields
  {
    assert LoadCsvPreview(s, ListingFailed, nameOf, token, analysis) == Supersede(s);
    SupersedeEffect(s);
  }

  // ---------------------------------------------------------------------
  // Selecting a file and changing the delimiter
  // ---------------------------------------------------------------------

  /** What type detection says about a file. */
  datatype Detection = DetectedCsv(csvDelimiter: Delimiter) | DetectedJson | DetectedJsonl | DetectedUnknown

  /** What probing the chosen file gave: it is missing, could not be read, or was read and typed. */
  datatype FileProbe = NotFound | Unreadable | Probed(stats: FileStats, detection: Detection)

  /**
   * FILE_SELECTED for a recognised file: JSON lines are JSON with the
   * multi-line flag, and only a CSV file brings a delimiter.
   */
  function FileSelectedAction(fileName: string, stats: FileStats, d: Detection): (a: Action)
    requires !d.DetectedUnknown?
    ensures a.FileSelected? && a.fileName == fileName && a.fileStats == Some(stats)
    ensures a.fileType == Csv <==> d.DetectedCsv?
    ensures a.fileType == Json <==> (d.DetectedJson? || d.DetectedJsonl?)
    ensures a.fileIsMultilineJSON <==> d.DetectedJsonl?
    ensures a.detectedDelimiter.Some? <==> d.DetectedCsv?
    ensures d.DetectedCsv? ==> a.detectedDelimiter == Some(d.csvDelimiter)
  {
    FileSelected(if d.DetectedCsv? then Some(d.csvDelimiter) else None, fileName,
                 if d.DetectedCsv? then Csv else Json, Some(stats), d.DetectedJsonl?)
  }

  /**
   * `selectImportFileName`: a missing, unreadable or unrecognised file fails
   * the import with the error thrown on the way (`err`); a recognised one is
   * selected, and a CSV file then has its preview loaded. Errors while
   * loading the preview are swallowed there, so they never fail the import.
   */
  function SelectImportFile(s: State, fileName: string, probe: FileProbe, err: ImportError,
                            listing: Listing, nameOf: string -> string, token: AbortToken,
                            analysis: Analysis): seq<Action>
  {
    match probe
    case Probed(stats, d) =>
      if d.DetectedUnknown? then [ImportFailed(err)]
      else
        var a := FileSelectedAction(fileName, stats, d);
        [a] + (if d.DetectedCsv? then LoadCsvPreview(Reduce(s, a), listing, nameOf, token, analysis) else [])
    case _ => [ImportFailed(err)]
  }

  /** A file that cannot be used fails the import and changes nothing else but the errors. */
  lemma SelectFileFails(s: State, fileName: string, probe: FileProbe, err: ImportError,
                        listing: Listing, nameOf: string -> string, token: AbortToken, analysis: Analysis)
    requires !probe.Probed? || probe.detection.DetectedUnknown?
    ensures var e := Apply(s, SelectImportFile(s, fileName, probe, err, listing, nameOf, token, analysis));
      && e.status == Failed && err in e.errors
      && (err in s.errors ==> e.errors == s.errors)
      && (err !in s.errors ==> e.errors == s.errors + [err])
      && e.fileName == s.fileName && e.fields == s.fields && e.fileType == s.fileType
  {
    ApplyOne(s, ImportFailed(err));
  }

  /**
   * A JSON or JSON-lines file is selected as JSON, without a delimiter, with
   * the run counters and errors reset and the fields emptied, and no preview
   * is loaded; `transform` and `exclude` survive from before.
   */
  lemma SelectJsonFile(s: State, fileName: string, stats: FileStats, d: Detection, err: ImportError,
                       listing: Listing, nameOf: string -> string, token: AbortToken, analysis: Analysis)
    requires d.DetectedJson? || d.DetectedJsonl?
    ensures var e := Apply(s, SelectImportFile(s, fileName, Probed(stats, d), err, listing, nameOf, token, analysis));
      && e.fileType == Json && (e.fileIsMultilineJSON <==> d.DetectedJsonl?)
      && e.delimiter == None && e.fileName == fileName && e.fileStats == Some(stats)
      && e.fields == [] && e.status == Unspecified && e.errors == [] && e.docsTotal == -1
      && e.abortController == None && e.analyzeAbortController == None
      && e.transform == s.transform && e.exclude == s.exclude && e.values == s.values
  {
    var a := FileSelectedAction(fileName, stats, d);
    assert [a] + [] == [a];
    ApplyOne(s, a);
  }

  /**
   * A CSV file whose preview loads and analyses is selected with its detected
   * delimiter and ends with its typed header fields soundly selected. The
   * selection has already dropped any analysis controller, so an analysis of
   * the previous file still in flight is never cancelled.
   */
  lemma SelectCsvFile(s: State, fileName: string, stats: FileStats, c: Delimiter, err: ImportError,
                      h: seq<string>, v: seq<seq<string>>, nameOf: string -> string, token: AbortToken,
                      r: AnalyzeResult)
    requires Analyzed(HeaderFields(h, nameOf), r)
    ensures var actions := SelectImportFile(s, fileName, Probed(stats, DetectedCsv(c)), err,
                                            Listed(h, v), nameOf, token, Returned(r));
      var e := Apply(s, actions);
      && AnalyzeCancelled !in actions
      && e == TypedPreview(Reduce(s, FileSelected(Some(c), fileName, Csv, Some(stats), false)),
                           HeaderFields(h, nameOf), v, r)
      && e.fileType == Csv && e.delimiter == Some(c) && e.status == Unspecified && e.errors == []
      && SelectionSound(e)
  {
    var a := FileSelectedAction(fileName, stats, DetectedCsv(c));
    var s1 := Reduce(s, a);
    var rest := LoadCsvPreview(s1, Listed(h, v), nameOf, token, Returned(r));
    assert SelectImportFile(s, fileName, Probed(stats, DetectedCsv(c)), err, Listed(h, v), nameOf, token, Returned(r))
        == [a] + rest;
    PreviewSupersedes(s1, Listed(h, v), nameOf, token, Returned(r));
    assert Apply(s, [a] + rest) == Apply(s1, rest) by {
      ApplyConcat(s, [a], rest);
      ApplyOne(s, a);
    }
    PreviewLoadSucceeds(s1, h, v, nameOf, token, r);
    HeaderPreviewsSound(s1, h, v, nameOf, r);
  }

  /**
   * A CSV file whose header listing fails is selected with no fields, but the
   * previous file's `transform` and `exclude` survive, so the import that
   * `startImport` would plan writes the previous file's fields.
   */
  lemma SelectCsvListingFailsKeepsSelection(s: State, fileName: string, stats: FileStats, c: Delimiter,
                                            err: ImportError, nameOf: string -> string, token: AbortToken,
                                            analysis: Analysis)
    ensures var e := Apply(s, SelectImportFile(s, fileName, Probed(stats, DetectedCsv(c)), err,
                                               ListingFailed, nameOf, token, analysis));
      && e.fileType == Csv && e.fileName == fileName && e.fields == []
      && e.transform == s.transform && e.exclude == s.exclude
      && PlanImport(e).target.CsvImport?
      && PlanImport(e).target.fields == WriteFields(s.transform, s.exclude)
  {
    var a := FileSelectedAction(fileName, stats, DetectedCsv(c));
    var s1 := Reduce(s, a);
    var rest := LoadCsvPreview(s1, ListingFailed, nameOf, token, analysis);
    assert SelectImportFile(s, fileName, Probed(stats, DetectedCsv(c)), err, ListingFailed, nameOf, token, analysis)
        == [a] + rest;
    assert rest == [];
    assert Apply(s, [a] + rest) == s1 by {
      assert [a] + rest == [a];
      ApplyOne(s, a);
    }
  }

  /**
   * `setDelimiter`: SET_DELIMITER, and for a CSV file a fresh preview read
   * with the new delimiter.
   */
  function SetDelimiterActions(s: State, d: Delimiter, listing: Listing, nameOf: string -> string,
                               token: AbortToken, analysis: Analysis): seq<Action>
  {
    [SetDelimiter(d)] +
    (if s.fileType == Csv then LoadCsvPreview(Reduce(s, SetDelimiter(d)), listing, nameOf, token, analysis) else [])
  }

  /** For anything but a CSV file only the delimiter changes. */
  lemma SetDelimiterNotCsv(s: State, d: Delimiter, listing: Listing, nameOf: string -> string,
                           token: AbortToken, analysis: Analysis)
    requires s.fileType != Csv
    ensures Apply(s, SetDelimiterActions(s, d, listing, nameOf, token, analysis)) == s.(delimiter := Some(d))
  {
    assert SetDelimiterActions(s, d, listing, nameOf, token, analysis) == [SetDelimiter(d)];
    ApplyOne(s, SetDelimiter(d));
  }

  /**
   * Changing the delimiter of a CSV file while its analysis is still running
   * cancels that analysis right after SET_DELIMITER.
   */
  lemma SetDelimiterSupersedes(s: State, d: Delimiter, listing: Listing, nameOf: string -> string,
                               token: AbortToken, analysis: Analysis)
    requires s.fileType == Csv && s.analyzeAbortController.Some?
    ensures var actions := SetDelimiterActions(s, d, listing, nameOf, token, analysis);
      |actions| > 1 && actions[0] == SetDelimiter(d) && actions[1] == AnalyzeCancelled
  {
    PreviewSupersedes(Reduce(s, SetDelimiter(d)), listing, nameOf, token, analysis);
  }

  /**
   * Changing the delimiter of a CSV file ends with the new delimiter and the
   * newly typed header fields soundly selected.
   */
  lemma SetDelimiterReloadsPreview(s: State, d: Delimiter, h: seq<string>, v: seq<seq<string>>,
                                   nameOf: string -> string, token: AbortToken, r: AnalyzeResult)
    requires s.fileType == Csv
    requires Analyzed(HeaderFields(h, nameOf), r)
    ensures var e := Apply(s, SetDelimiterActions(s, d, Listed(h, v), nameOf, token, Returned(r)));
      && e == TypedPreview(s.(delimiter := Some(d)), HeaderFields(h, nameOf), v, r)
      && SelectionSound(e)
  {
    var s1 := Reduce(s, SetDelimiter(d));
    var rest := LoadCsvPreview(s1, Listed(h, v), nameOf, token, Returned(r));
    assert SetDelimiterActions(s, d, Listed(h, v), nameOf, token, Returned(r)) == [SetDelimiter(d)] + rest;
    assert Apply(s, [SetDelimiter(d)] + rest) == Apply(s1, rest) by {
      ApplyConcat(s, [SetDelimiter(d)], rest);
      ApplyOne(s, SetDelimiter(d));
    }
    PreviewLoadSucceeds(s1, h, v, nameOf, token, r);
    HeaderPreviewsSound(s1, h, v, nameOf, r);
  }

  // ---------------------------------------------------------------------
  // Array columns
  // ---------------------------------------------------------------------

  /** The unique names of `tags[0]`, `tags[1]` and `name`: `tags`, `tags` and `name`. */
  predicate ArrayNaming(nameOf: string -> string)
  {
    nameOf("tags[0]") == "tags" && nameOf("tags[1]") == "tags" && nameOf("name") == "name"
  }

  /** The preview fields of headers `tags[0]`, `tags[1]`, `name`. */
  const ArrayFields: seq<Field> :=
    [CsvField("tags", true, "mixed", None), Placeholder("tags[1]"), CsvField("name", true, "mixed", None)]

  /** Headers `tags[0]`, `tags[1]`, `name`: one field `tags` stands for the array, `tags[1]` is a placeholder. */
  lemma ArrayHeaderFields(nameOf: string -> string)
    requires ArrayNaming(nameOf)
    ensures HeaderFields(["tags[0]", "tags[1]", "name"], nameOf) == ArrayFields
  {
    var h := ["tags[0]", "tags[1]", "name"];
    assert NamesBefore(h, nameOf, 0) == {};
    assert NamesBefore(h, nameOf, 1) == {"tags"} by {
      assert nameOf(h[0]) == "tags";
    }
    assert NamesBefore(h, nameOf, 2) == {"tags"} by {
      assert nameOf(h[0]) == "tags" && nameOf(h[1]) == "tags";
    }
  }

  /** Previewing those fields lists only the two real ones in `transform`. */
  lemma ArrayColumnsPreview()
    ensures Collect(ArrayFields, PreviewPick) == [Entry("tags", Some("mixed")), Entry("name", Some("mixed"))]
  {
    var fs := ArrayFields;
    assert fs == [fs[0], fs[1]] + [fs[2]];
    CollectAppend([fs[0], fs[1]], [fs[2]], PreviewPick);
    CollectAppend([fs[0]], [fs[1]], PreviewPick);
    assert [fs[0]] == [] + [fs[0]];
    CollectAppend([], [fs[0]], PreviewPick);
  }

  /**
   * Toggling the placeholder `tags[1]` leaves the fields alone, while typing
   * it turns it into a CSV field of its own.
   */
  lemma ArrayPlaceholderEdits(s: State)
    requires s.fields == ArrayFields
    ensures Reduce(s, ToggleIncludeField("tags[1]")).fields == s.fields
    ensures Reduce(s, SetFieldType("tags[1]", "int")).fields[1] == CsvField("tags[1]", true, "int", None)
  {
    assert Toggled(s.fields, "tags[1]") == s.fields;
  }
}
