/**
 * The import reducer: one synchronous transition of the session state per
 * action, and the properties each kind of action guarantees.
 */
module ImportReducer {
  import opened ImportTypes
  import opened FieldSelection

  /** The status FINISHED settles on: a cancelled run stays cancelled. */
  function FinishedStatus(status: ProcessStatus, errors: seq<ImportError>): ProcessStatus
  {
    if status == Canceled then status
    else if |errors| > 0 then CompletedWithErrors
    else Completed
  }

  /** `errors.includes(e) ? errors : errors.concat(e)` */
  function AddError(errors: seq<ImportError>, e: ImportError): seq<ImportError>
  {
    if e in errors then errors else errors + [e]
  }

  function Reduce(s: State, a: Action): State
  {
    match a
    case FileSelected(d, name, ft, stats, multiline) =>
      s.(delimiter := d, fileName := name, fileType := ft, fileStats := stats,
         fileIsMultilineJSON := multiline, status := Unspecified,
         docsTotal := -1, docsProcessed := 0, docsWritten := 0,
         guesstimatedDocsTotal := 0, guesstimatedDocsProcessed := 0,
         errors := [], abortController := None, analyzeAbortController := None, fields := [])
    case FileTypeSelected(ft) => s.(fileType := ft)
    case SetStopOnErrors(b) => s.(stopOnErrors := b)
    case SetIgnoreBlanks(b) => s.(ignoreBlanks := b)
    case SetDelimiter(d) => s.(delimiter := Some(d))
    case SetPreview(fs, vs) =>
      s.(values := vs, fields := fs, previewLoaded := true, exclude := [],
         transform := Collect(fs, PreviewPick))
    case ToggleIncludeField(p) =>
      var fs := Toggled(s.fields, p);
      s.(fields := fs, transform := Collect(fs, CsvPick), exclude := Collect(fs, UncheckedPathPick))
    case SetFieldType(p, t) =>
      var fs := Retyped(s.fields, p, t);
      s.(fields := fs, transform := Collect(fs, CheckedCsvPick), exclude := Collect(fs, UncheckedPathPick))
    case ImportFailed(e) => s.(errors := AddError(s.errors, e), status := Failed)
    case ImportStarted(token) =>
      s.(errors := [], docsTotal := -1, docsProcessed := 0, docsWritten := 0,
         guesstimatedDocsTotal := 0, guesstimatedDocsProcessed := 0,
         status := Started, abortController := Some(token))
    case SetGuesstimatedTotal(total) => s.(guesstimatedDocsTotal := total)
    case GuesstimatedProgress(processed, total) =>
      s.(guesstimatedDocsProcessed := processed, guesstimatedDocsTotal := total)
    case Progress(written, processed, errs) =>
      s.(docsWritten := written, docsProcessed := processed, errors := errs)
    case Finished(written, total) =>
      s.(status := FinishedStatus(s.status, s.errors), docsWritten := written, docsTotal := total,
         abortController := None)
    case ImportCanceled => s.(status := Canceled, abortController := None)
    case Open => Initial.(isOpen := true)
    case Close => s.(isOpen := false)
    case OpenInProgressMessage => s.(isInProgressMessageOpen := true)
    case CloseInProgressMessage => s.(isInProgressMessageOpen := false)
    case AnalyzeStarted(token) =>
      s.(analyzeStatus := Started, analyzeAbortController := Some(token), analyzeError := None)
    case AnalyzeFinished(result) =>
      s.(analyzeStatus := Completed, analyzeAbortController := None,
         analyzeResult := Some(result), analyzeError := None)
    case AnalyzeFailed(err) =>
      s.(analyzeStatus := Failed, analyzeAbortController := None, analyzeError := err)
    case AnalyzeCancelled =>
      s.(analyzeStatus := Canceled, analyzeAbortController := None, analyzeError := None)
    case Foreign => s
  }

  /** The state after dispatching `actions` one after the other. */
  function Apply(s: State, actions: seq<Action>): State
    decreases |actions|
  {
    if actions == [] then s else Apply(Reduce(s, actions[0]), actions[1..])
  }

  lemma {:induction false} ApplyConcat(s: State, xs: seq<Action>, ys: seq<Action>)
    ensures Apply(s, xs + ys) == Apply(Apply(s, xs), ys)
    decreases |xs|
  {
    if xs != [] {
      assert (xs + ys)[0] == xs[0];
      assert (xs + ys)[1..] == xs[1..] + ys;
      ApplyConcat(Reduce(s, xs[0]), xs[1..], ys);
    } else {
      assert xs + ys == ys;
    }
  }

  lemma ApplyOne(s: State, a: Action)
    ensures Apply(s, [a]) == Reduce(s, a)
  {
    assert [a][1..] == [];
  }

  lemma ApplyTwo(s: State, a: Action, b: Action)
    ensures Apply(s, [a, b]) == Reduce(Reduce(s, a), b)
  {
    assert [a, b][1..] == [b];
    ApplyOne(Reduce(s, a), b);
  }

  lemma ApplyThree(s: State, a: Action, b: Action, c: Action)
    ensures Apply(s, [a, b, c]) == Reduce(Reduce(Reduce(s, a), b), c)
  {
    assert [a, b, c][1..] == [b, c];
    ApplyTwo(Reduce(s, a), b, c);
  }

  // ---------------------------------------------------------------------
  // Field selection actions
  // ---------------------------------------------------------------------

  /**
   * SET_PREVIEW replaces fields and values, marks the preview loaded, empties
   * `exclude` and lists in `transform` exactly the checked non-placeholder
   * fields, in field order; nothing else changes.
   */
  lemma SetPreviewEffect(s: State, fs: seq<Field>, vs: seq<seq<string>>)
    ensures var r := Reduce(s, SetPreview(fs, vs));
      && r.fields == fs && r.values == vs && r.previewLoaded && r.exclude == []
      && (forall e :: e in r.transform <==>
            exists i :: 0 <= i < |fs| && !fs[i].Placeholder? && fs[i].checked && e == EntryOf(fs[i]))
      && (forall xs, ys :: fs == xs + ys ==> r.transform == Collect(xs, PreviewPick) + Collect(ys, PreviewPick))
      && r.(fields := s.fields, values := s.values, previewLoaded := s.previewLoaded,
            exclude := s.exclude, transform := s.transform) == s
  {
    forall e ensures e in Collect(fs, PreviewPick) <==>
      exists i :: 0 <= i < |fs| && !fs[i].Placeholder? && fs[i].checked && e == EntryOf(fs[i])
    {
      CollectMember(fs, PreviewPick, e);
    }
    forall xs, ys | fs == xs + ys
      ensures Collect(fs, PreviewPick) == Collect(xs, PreviewPick) + Collect(ys, PreviewPick)
    {
      CollectAppend(xs, ys, PreviewPick);
    }
  }

  /**
   * TOGGLE_INCLUDE_FIELD flips `checked` on exactly the non-placeholder fields
   * whose path matches, keeping order and count; `exclude` becomes the paths of
   * the unchecked non-placeholder fields and `transform` lists every typed
   * field, checked or not.
   */
  lemma ToggleEffect(s: State, p: string)
    ensures var r := Reduce(s, ToggleIncludeField(p));
      && |r.fields| == |s.fields|
      && (forall i :: 0 <= i < |s.fields| ==>
            if s.fields[i].path == p && !s.fields[i].Placeholder?
            then r.fields[i] == s.fields[i].(checked := !s.fields[i].checked)
            else r.fields[i] == s.fields[i])
      && (forall q :: q in r.exclude <==>
            exists i :: 0 <= i < |r.fields| && !r.fields[i].Placeholder? && !r.fields[i].checked && r.fields[i].path == q)
      && (forall e :: e in r.transform <==>
            exists i :: 0 <= i < |r.fields| && r.fields[i].CsvField? && e == EntryOf(r.fields[i]))
      && (forall xs, ys :: r.fields == xs + ys ==>
            && r.transform == Collect(xs, CsvPick) + Collect(ys, CsvPick)
            && r.exclude == Collect(xs, UncheckedPathPick) + Collect(ys, UncheckedPathPick))
      && r.(fields := s.fields, transform := s.transform, exclude := s.exclude) == s
  {
    var fs := Toggled(s.fields, p);
    forall xs, ys | fs == xs + ys
      ensures Collect(fs, CsvPick) == Collect(xs, CsvPick) + Collect(ys, CsvPick)
      ensures Collect(fs, UncheckedPathPick) == Collect(xs, UncheckedPathPick) + Collect(ys, UncheckedPathPick)
    {
      CollectAppend(xs, ys, CsvPick);
      CollectAppend(xs, ys, UncheckedPathPick);
    }
    forall q ensures q in Collect(fs, UncheckedPathPick) <==>
      exists i :: 0 <= i < |fs| && !fs[i].Placeholder? && !fs[i].checked && fs[i].path == q
    {
      CollectMember(fs, UncheckedPathPick, q);
    }
    forall e ensures e in Collect(fs, CsvPick) <==>
      exists i :: 0 <= i < |fs| && fs[i].CsvField? && e == EntryOf(fs[i])
    {
      CollectMember(fs, CsvPick, e);
    }
  }

  lemma ToggledTwice(fs: seq<Field>, p: string)
    ensures Toggled(Toggled(fs, p), p) == fs
  {
    assert forall i :: 0 <= i < |fs| ==> ToggleField(ToggleField(fs[i], p), p) == fs[i];
  }

  /**
   * Toggling the same path twice gives back the fields, and leaves `transform`
   * and `exclude` as a single toggle derives them from those fields.
   */
  lemma ToggleTwice(s: State, p: string)
    ensures var r := Reduce(Reduce(s, ToggleIncludeField(p)), ToggleIncludeField(p));
      && r.fields == s.fields
      && r.transform == Collect(s.fields, CsvPick)
      && r.exclude == Collect(s.fields, UncheckedPathPick)
      && r.(transform := s.transform, exclude := s.exclude) == s
  {
    ToggledTwice(s.fields, p);
  }

  /**
   * On a sound state a double toggle writes what was written before, although
   * `transform` itself is rebuilt from the fields and need not come back as it
   * was (`ToggleTwiceRebuildsTransform`).
   */
  lemma ToggleTwiceKeepsWrite(s: State, p: string)
    requires SelectionSound(s)
    ensures var r := Reduce(Reduce(s, ToggleIncludeField(p)), ToggleIncludeField(p));
      WriteFields(r.transform, r.exclude) == WriteFields(s.transform, s.exclude)
  {
    var t := Reduce(s, ToggleIncludeField(p));
    ReduceKeepsSelection(s, ToggleIncludeField(p));
    ReduceKeepsSelection(t, ToggleIncludeField(p));
    ToggleTwice(s, p);
  }

  /**
   * After SET_FIELD_TYPE `transform` lists only the checked fields; toggling a
   * path twice lists the unchecked typed fields too, so `transform` differs.
   */
  lemma ToggleTwiceRebuildsTransform()
    ensures var a := CsvField("a", true, "mixed", None);
      var b := CsvField("b", false, "mixed", None);
      var s := Initial.(fields := [a, b], transform := [EntryOf(a)], exclude := ["b"]);
      var r := Reduce(Reduce(s, ToggleIncludeField("a")), ToggleIncludeField("a"));
      && r.fields == s.fields && r.transform == [EntryOf(a), EntryOf(b)] && r.transform != s.transform
  {
    var a := CsvField("a", true, "mixed", None);
    var b := CsvField("b", false, "mixed", None);
    var s := Initial.(fields := [a, b], transform := [EntryOf(a)], exclude := ["b"]);
    ToggleTwice(s, "a");
    assert Collect([a, b], CsvPick) == [EntryOf(a), EntryOf(b)] by {
      CollectAppend([a], [b], CsvPick);
      assert [a][..0] == [] && [b][..0] == [];
      assert [a] + [b] == [a, b];
    }
  }

  /** A state that a toggle produced comes back whole after toggling any path twice. */
  lemma ToggleTwiceAfterToggle(s: State, q: string, p: string)
    ensures var t := Reduce(s, ToggleIncludeField(q));
      Reduce(Reduce(t, ToggleIncludeField(p)), ToggleIncludeField(p)) == t
  {
    ToggledTwice(Toggled(s.fields, q), p);
  }

  /**
   * SET_FIELD_TYPE makes every field with the path a checked CSV field of the
   * new type (so the path leaves `exclude`), leaves the other fields alone, and
   * lists in `transform` exactly the checked typed fields.
   */
  lemma SetFieldTypeEffect(s: State, p: string, t: CsvType)
    ensures var r := Reduce(s, SetFieldType(p, t));
      && |r.fields| == |s.fields|
      && (forall i :: 0 <= i < |s.fields| ==>
            if s.fields[i].path == p
            then && r.fields[i].CsvField? && r.fields[i].path == p && r.fields[i].checked && r.fields[i].fieldType == t
                 && r.fields[i].result == (if s.fields[i].CsvField? then s.fields[i].result else None)
            else r.fields[i] == s.fields[i])
      && p !in r.exclude
      && (forall q :: q in r.exclude <==>
            exists i :: 0 <= i < |r.fields| && !r.fields[i].Placeholder? && !r.fields[i].checked && r.fields[i].path == q)
      && (forall e :: e in r.transform <==>
            exists i :: 0 <= i < |r.fields| && r.fields[i].CsvField? && r.fields[i].checked && e == EntryOf(r.fields[i]))
      && (forall xs, ys :: r.fields == xs + ys ==>
            && r.transform == Collect(xs, CheckedCsvPick) + Collect(ys, CheckedCsvPick)
            && r.exclude == Collect(xs, UncheckedPathPick) + Collect(ys, UncheckedPathPick))
      && r.(fields := s.fields, transform := s.transform, exclude := s.exclude) == s
  {
    var fs := Retyped(s.fields, p, t);
    forall xs, ys | fs == xs + ys
      ensures Collect(fs, CheckedCsvPick) == Collect(xs, CheckedCsvPick) + Collect(ys, CheckedCsvPick)
      ensures Collect(fs, UncheckedPathPick) == Collect(xs, UncheckedPathPick) + Collect(ys, UncheckedPathPick)
    {
      CollectAppend(xs, ys, CheckedCsvPick);
      CollectAppend(xs, ys, UncheckedPathPick);
    }
    forall q ensures q in Collect(fs, UncheckedPathPick) <==>
      exists i :: 0 <= i < |fs| && !fs[i].Placeholder? && !fs[i].checked && fs[i].path == q
    {
      CollectMember(fs, UncheckedPathPick, q);
    }
    forall e ensures e in Collect(fs, CheckedCsvPick) <==>
      exists i :: 0 <= i < |fs| && fs[i].CsvField? && fs[i].checked && e == EntryOf(fs[i])
    {
      CollectMember(fs, CheckedCsvPick, e);
    }
  }

  // ---------------------------------------------------------------------
  // The write selection invariant
  // ---------------------------------------------------------------------

  /**
   * What an import would write (the `transform` pairs not named in `exclude`)
   * is exactly the checked typed fields, and no path is both checked and
   * unchecked.
   */
  ghost predicate SelectionSound(s: State)
  {
    NoMixedPath(s.fields) && WriteFields(s.transform, s.exclude) == SelectedTypes(s.fields)
  }

  /** A preview without JSON fields or mixed paths makes the selection sound, whatever came before. */
  lemma SetPreviewEstablishesSelection(s: State, fs: seq<Field>, vs: seq<seq<string>>)
    requires NoJsonFields(fs) && NoMixedPath(fs)
    ensures SelectionSound(Reduce(s, SetPreview(fs, vs)))
  {
    PreviewListWritesSelection(fs);
  }

  /** The actions that leave `fields`, `transform` and `exclude` as they are. */
  predicate LeavesSelection(a: Action)
  {
    !(a.FileSelected? || a.SetPreview? || a.ToggleIncludeField? || a.SetFieldType? || a.Open?)
  }

  lemma LeavesSelectionEffect(s: State, a: Action)
    requires LeavesSelection(a)
    ensures Reduce(s, a).fields == s.fields && Reduce(s, a).transform == s.transform
    ensures Reduce(s, a).exclude == s.exclude
  {
    match a
    case FileTypeSelected(_) =>
    case SetStopOnErrors(_) =>
    case SetIgnoreBlanks(_) =>
    case SetDelimiter(_) =>
    case ImportFailed(_) =>
    case ImportStarted(_) =>
    case SetGuesstimatedTotal(_) =>
    case GuesstimatedProgress(_, _) =>
    case Progress(_, _, _) =>
    case Finished(_, _) =>
    case ImportCanceled =>
    case Close =>
    case OpenInProgressMessage =>
    case CloseInProgressMessage =>
    case AnalyzeStarted(_) =>
    case AnalyzeFinished(_) =>
    case AnalyzeFailed(_) =>
    case AnalyzeCancelled =>
    case Foreign =>
  }

  /**
   * Every action except FILE_SELECTED keeps the write selection in step with
   * the fields, provided a preview brings no JSON fields and no path with mixed
   * check marks.
   */
  lemma ReduceKeepsSelection(s: State, a: Action)
    requires SelectionSound(s)
    requires !a.FileSelected?
    requires a.SetPreview? ==> NoJsonFields(a.fields) && NoMixedPath(a.fields)
    ensures SelectionSound(Reduce(s, a))
  {
    if a.SetPreview? {
      SetPreviewEstablishesSelection(s, a.fields, a.values);
    } else if a.ToggleIncludeField? {
      ToggledKeepsNoMixedPath(s.fields, a.path);
      ToggleListsWriteSelection(Toggled(s.fields, a.path));
    } else if a.SetFieldType? {
      RetypedKeepsNoMixedPath(s.fields, a.path, a.bsonType);
      CheckedNotExcluded(Retyped(s.fields, a.path, a.bsonType));
    } else if a.Open? {
      assert Initial.fields == [];
    } else {
      LeavesSelectionEffect(s, a);
    }
  }

  /**
   * FILE_SELECTED empties `fields` but keeps `transform` and `exclude`, so the
   * write selection can outlive the fields it came from.
   */
  lemma FileSelectedKeepsStaleTransform()
    ensures var f := CsvField("a", true, "mixed", None);
      var s := Initial.(fields := [f], transform := [EntryOf(f)]);
      var r := Reduce(s, FileSelected(None, "b.json", Json, None, false));
      && SelectionSound(s) && !SelectionSound(r)
      && r.fields == [] && r.transform == s.transform && r.exclude == s.exclude
  {
    var f := CsvField("a", true, "mixed", None);
    assert Collect([f], CheckedCsvPick) == [EntryOf(f)] by {
      assert [f][..0] == [];
    }
    assert WriteFields([EntryOf(f)], []) == map["a" := Some("mixed")] by {
      WriteFieldsSnoc([], EntryOf(f), []);
    }
    var s := Initial.(fields := [f], transform := [EntryOf(f)]);
    var r := Reduce(s, FileSelected(None, "b.json", Json, None, false));
    assert SelectionSound(s);
    assert r.fields == [];
    assert SelectedTypes([]) == map[];
    assert WriteFields(r.transform, r.exclude) == map["a" := Some("mixed")];
    assert "a" in WriteFields(r.transform, r.exclude) && "a" !in SelectedTypes(r.fields);
  }

  // ---------------------------------------------------------------------
  // Run lifecycle actions
  // ---------------------------------------------------------------------

  /** STARTED resets counters and errors, marks the run started and keeps the controller. */
  lemma StartedEffect(s: State, token: AbortToken)
    ensures var r := Reduce(s, ImportStarted(token));
      && r.status == Started && r.abortController == Some(token) && r.errors == []
      && r.docsTotal == -1 && r.docsProcessed == 0 && r.docsWritten == 0
      && r.guesstimatedDocsTotal == 0 && r.guesstimatedDocsProcessed == 0
      && r.fields == s.fields && r.transform == s.transform && r.exclude == s.exclude
      && r.(errors := s.errors, docsTotal := s.docsTotal, docsProcessed := s.docsProcessed,
            docsWritten := s.docsWritten, guesstimatedDocsTotal := s.guesstimatedDocsTotal,
            guesstimatedDocsProcessed := s.guesstimatedDocsProcessed, status := s.status,
            abortController := s.abortController) == s
  {
  }

  /**
   * FINISHED: a cancelled run stays cancelled; otherwise it completes, with
   * errors exactly when `errors` is non-empty. The controller is cleared and
   * the counts come from the action.
   */
  lemma FinishedEffect(s: State, written: int, total: int)
    ensures var r := Reduce(s, Finished(written, total));
      && (s.status == Canceled ==> r.status == Canceled)
      && (s.status != Canceled ==> (r.status == CompletedWithErrors <==> s.errors != []))
      && (s.status != Canceled ==> (r.status == Completed <==> s.errors == []))
      && r.abortController == None
      && r.docsWritten == written && r.docsTotal == total
      && r.errors == s.errors && r.docsProcessed == s.docsProcessed
      && r.(status := s.status, docsWritten := s.docsWritten, docsTotal := s.docsTotal,
            abortController := s.abortController) == s
  {
  }

  /** CANCELED ends the run as cancelled and drops the controller. */
  lemma CanceledEffect(s: State)
    ensures var r := Reduce(s, ImportCanceled);
      r.status == Canceled && r.abortController == None && r.errors == s.errors
      && r.docsWritten == s.docsWritten && r.docsProcessed == s.docsProcessed
      && r.(status := s.status, abortController := s.abortController) == s
  {
  }

  /** Every entry of the sequence appears once. */
  ghost predicate NoDuplicates<T>(xs: seq<T>)
  {
    forall i, j :: 0 <= i < j < |xs| ==> xs[i] != xs[j]
  }

  /**
   * FAILED marks the run failed and records the error once: it is in `errors`
   * afterwards, it was appended only if absent, and no duplicate appears.
   * Counters are untouched.
   */
  lemma FailedEffect(s: State, e: ImportError)
    ensures var r := Reduce(s, ImportFailed(e));
      && r.status == Failed
      && e in r.errors
      && (e in s.errors ==> r.errors == s.errors)
      && (e !in s.errors ==> r.errors == s.errors + [e])
      && (NoDuplicates(s.errors) ==> NoDuplicates(r.errors))
      && r.docsTotal == s.docsTotal && r.docsProcessed == s.docsProcessed && r.docsWritten == s.docsWritten
      && r.guesstimatedDocsTotal == s.guesstimatedDocsTotal
      && r.guesstimatedDocsProcessed == s.guesstimatedDocsProcessed
      && r.abortController == s.abortController
      && r.(errors := s.errors, status := s.status) == s
  {
  }

  /** A started run always has a controller, so it can always be cancelled. */
  ghost predicate RunCancellable(s: State)
  {
    s.status == Started ==> s.abortController.Some?
  }

  lemma ReduceKeepsRunCancellable(s: State, a: Action)
    requires RunCancellable(s)
    ensures RunCancellable(Reduce(s, a))
  {
  }

  /** OPEN starts a fresh session with the modal open. */
  lemma OpenEffect(s: State)
    ensures var r := Reduce(s, Open);
      r.isOpen && r.status == Unspecified && r.fields == [] && r.errors == []
      && r.abortController == None && r.analyzeAbortController == None
      && r.(isOpen := false) == Initial
  {
  }

  /**
   * FILE_SELECTED records the file and resets the run: status, counters
   * (guessed ones included), errors, both controllers and the fields; every
   * other part of the state is kept, `values`, `transform`, `exclude` and the
   * analysis status among them.
   */
  lemma FileSelectedEffect(s: State, d: Option<Delimiter>, name: string, ft: FileType,
                           stats: Option<FileStats>, multiline: bool)
    ensures var r := Reduce(s, FileSelected(d, name, ft, stats, multiline));
      && r.fileName == name && r.fileType == ft && r.delimiter == d
      && r.fileStats == stats && r.fileIsMultilineJSON == multiline
      && r.status == Unspecified && r.errors == [] && r.fields == []
      && r.docsTotal == -1 && r.docsProcessed == 0 && r.docsWritten == 0
      && r.abortController == None && r.analyzeAbortController == None
      && r.guesstimatedDocsTotal == 0 && r.guesstimatedDocsProcessed == 0
      && r.values == s.values && r.transform == s.transform && r.exclude == s.exclude
      && r.analyzeStatus == s.analyzeStatus
      && r.isOpen == s.isOpen && r.isInProgressMessageOpen == s.isInProgressMessageOpen
      && r.useHeaderLines == s.useHeaderLines && r.stopOnErrors == s.stopOnErrors
      && r.ignoreBlanks == s.ignoreBlanks && r.previewLoaded == s.previewLoaded
      && r.analyzeResult == s.analyzeResult && r.analyzeError == s.analyzeError
  {
  }

  /** A pending analysis can only be one that is running. */
  ghost predicate AnalysisCancellable(s: State)
  {
    s.analyzeAbortController.Some? ==> s.analyzeStatus == Started
  }

  /**
   * Every action keeps a pending analysis controller tied to a running
   * analysis. The converse does not hold: FILE_SELECTED drops the controller
   * of a running analysis but leaves its status STARTED.
   */
  lemma ReduceKeepsAnalysisCancellable(s: State, a: Action)
    requires AnalysisCancellable(s)
    ensures AnalysisCancellable(Reduce(s, a))
    ensures a.FileSelected? && s.analyzeStatus == Started ==>
      Reduce(s, a).analyzeStatus == Started && Reduce(s, a).analyzeAbortController.None?
  {
  }

  /** An action of another slice leaves the import state as it is. */
  lemma ForeignIsIgnored(s: State)
    ensures Reduce(s, Foreign) == s
  {
  }
}
