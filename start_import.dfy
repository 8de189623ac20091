/**
 * The synchronous decisions of `startImport`: the field/type map and options
 * handed to the importer, the progress guesstimate, the callbacks that collect
 * errors and report progress, and the actions that settle a run.
 */
module StartImport {
  import opened ImportTypes
  import opened FieldSelection
  import opened ImportReducer
  import opened SchemaInference

  /**
   * The loop that builds the importer's field map: every `transform` pair
   * whose name is not excluded, a later pair overwriting an earlier one.
   */
  method BuildFieldMap(transform: seq<Entry>, exclude: seq<string>) returns (fields: map<string, Option<CsvType>>)
    ensures fields == WriteFields(transform, exclude)
    ensures forall k :: k in fields <==> k !in exclude && exists i :: 0 <= i < |transform| && transform[i].path == k
  {
    fields := map[];
    var i := 0;
    while i < |transform|
      invariant 0 <= i <= |transform|
      invariant fields == WriteFields(transform[..i], exclude)
    {
      var name, fieldType := transform[i].path, transform[i].fieldType;
      assert transform[..i + 1][..i] == transform[..i];
      i := i + 1;
      if name in exclude {
        continue;
      }
      fields := fields[name := fieldType];
    }
    assert transform[..i] == transform;
    forall k ensures k in fields <==> k !in exclude && exists i :: 0 <= i < |transform| && transform[i].path == k {
      WriteFieldsKeys(transform, exclude, k);
    }
  }

  /**
   * The field map as the loop builds it: `fields` is a plain object, and
   * assigning a type name to its `__proto__` key sets nothing, so that name
   * never reaches the importer.
   */
  function FieldMapAsWritten(transform: seq<Entry>, exclude: seq<string>): map<string, Option<CsvType>>
  {
    WriteFields(transform, exclude) - {"__proto__"}
  }

  /**
   * A header `__proto__` gives a placeholder, and giving that placeholder a
   * type makes it a checked CSV field listed in `transform`, yet the field
   * map as written leaves it out, where `BuildFieldMap` keeps it.
   */
  lemma ProtoFieldDropped(s: State, nameOf: string -> string)
    requires nameOf("__proto__") == "__proto__"
    requires s.fields == HeaderFieldsAsWritten(["__proto__"], nameOf)
    ensures var r := Reduce(s, SetFieldType("__proto__", "int"));
      && r.fields == [CsvField("__proto__", true, "int", None)]
      && r.transform == [Entry("__proto__", Some("int"))] && r.exclude == []
      && "__proto__" !in FieldMapAsWritten(r.transform, r.exclude)
      && "__proto__" in WriteFields(r.transform, r.exclude)
  {
    assert s.fields == [Placeholder("__proto__")];
    ProtoPlaceholderRetyped();
  }

  /** The lists SET_FIELD_TYPE derives once the `__proto__` placeholder is typed. */
  lemma ProtoPlaceholderRetyped()
    ensures var fs := Retyped([Placeholder("__proto__")], "__proto__", "int");
      && fs == [CsvField("__proto__", true, "int", None)]
      && Collect(fs, CheckedCsvPick) == [Entry("__proto__", Some("int"))]
      && Collect(fs, UncheckedPathPick) == []
      && WriteFields([Entry("__proto__", Some("int"))], []) == map["__proto__" := Some("int")]
  {
    var f := CsvField("__proto__", true, "int", None);
    assert [f] == [] + [f];
    CollectAppend([], [f], CheckedCsvPick);
    CollectAppend([], [f], UncheckedPathPick);
    WriteFieldsSnoc([], Entry("__proto__", Some("int")), []);
  }

  datatype JsonVariant = JsonArray | JsonLines

  /** Which importer runs, with the arguments that differ between the two. */
  datatype WriteTarget =
    | CsvImport(delimiter: Option<Delimiter>, fields: map<string, Option<CsvType>>, ignoreEmptyStrings: bool)
    | JsonImport(jsonVariant: JsonVariant)

  /** What `startImport` derives from the state before it launches the importer. */
  datatype ImportPlan = ImportPlan(target: WriteTarget, fileSize: nat, stopOnErrors: bool, ignoreBlanks: bool)

  function PlanImport(s: State): (p: ImportPlan)
    ensures p.target.CsvImport? <==> s.fileType == Csv
    ensures p.ignoreBlanks ==> s.fileType == Csv && s.ignoreBlanks
    ensures s.fileType == Csv ==> p.ignoreBlanks == s.ignoreBlanks && p.target.ignoreEmptyStrings == s.ignoreBlanks
    ensures p.target.CsvImport? ==>
      forall k :: k in p.target.fields <==> k !in s.exclude && exists i :: 0 <= i < |s.transform| && s.transform[i].path == k
    ensures p.target.JsonImport? ==> (p.target.jsonVariant == JsonLines <==> s.fileIsMultilineJSON)
    ensures s.fileStats.None? ==> p.fileSize == 0
    ensures s.fileStats.Some? ==> p.fileSize == s.fileStats.value.size
    ensures p.stopOnErrors == s.stopOnErrors
    ensures p.target.CsvImport? ==>
      p.target.fields == WriteFields(s.transform, s.exclude) && p.target.delimiter == s.delimiter
  {
    var ignoreBlanks := s.ignoreBlanks && s.fileType == Csv;
    var fileSize := if s.fileStats.Some? then s.fileStats.value.size else 0;
    var fields := WriteFields(s.transform, s.exclude);
    forall k ensures k in fields <==> k !in s.exclude && exists i :: 0 <= i < |s.transform| && s.transform[i].path == k {
      WriteFieldsKeys(s.transform, s.exclude, k);
    }
    var target :=
      if s.fileType == Csv then CsvImport(s.delimiter, fields, ignoreBlanks)
      else JsonImport(if s.fileIsMultilineJSON then JsonLines else JsonArray);
    ImportPlan(target, fileSize, s.stopOnErrors, ignoreBlanks)
  }

  /** With a sound selection, a CSV import writes exactly the checked typed fields. */
  lemma PlanWritesSelection(s: State)
    requires SelectionSound(s) && s.fileType == Csv
    ensures PlanImport(s).target.fields == SelectedTypes(s.fields)
  {
  }

  // ---------------------------------------------------------------------
  // Progress
  // ---------------------------------------------------------------------

  /** `Math.ceil(n / d)` on naturals. */
  function CeilDiv(n: nat, d: nat): (q: nat)
    requires d > 0
    ensures q * d >= n
    ensures (q - 1) * d < n || q == 0
  {
    var q := (n + d - 1) / d;
    assert q * d + (n + d - 1) % d == n + d - 1;
    q
  }

  lemma MulMono(a: nat, b: nat, c: nat)
    requires a <= b
    ensures a * c <= b * c
  {
  }

  /**
   * The guessed total of documents: the file size over the average document
   * size so far, and never less than the documents already processed.
   */
  function Guesstimate(docsProcessed: nat, bytesProcessed: nat, fileSize: nat): (g: nat)
    requires bytesProcessed > 0
    ensures g >= docsProcessed
    ensures g * bytesProcessed >= fileSize * docsProcessed
    ensures g == docsProcessed || (g - 1) * bytesProcessed < fileSize * docsProcessed
  {
    var c := CeilDiv(fileSize * docsProcessed, bytesProcessed);
    if c > docsProcessed then c
    else
      MulMono(c, docsProcessed, bytesProcessed);
      docsProcessed
  }

  /** 50 documents in 5000 bytes of a 100000-byte file: about 1000 documents. */
  lemma GuesstimateExample()
    ensures Guesstimate(50, 5000, 100000) == 1000
  {
  }

  /** The three actions one progress report dispatches. */
  function ProgressActions(docsProcessed: nat, docsWritten: nat, bytesProcessed: nat, fileSize: nat,
                           errors: seq<ImportError>): seq<Action>
    requires bytesProcessed > 0
  {
    var g := Guesstimate(docsProcessed, bytesProcessed, fileSize);
    [SetGuesstimatedTotal(g), GuesstimatedProgress(docsProcessed, g), Progress(docsWritten, docsProcessed, errors)]
  }

  /**
   * After a progress report the state holds the reported counts and a copy of
   * the errors so far, and a guessed total at least the processed count that
   * covers the whole file at the average document size.
   */
  lemma ProgressEffect(s: State, docsProcessed: nat, docsWritten: nat, bytesProcessed: nat, fileSize: nat,
                       errors: seq<ImportError>)
    requires bytesProcessed > 0
    ensures var r := Apply(s, ProgressActions(docsProcessed, docsWritten, bytesProcessed, fileSize, errors));
      && r.docsProcessed == docsProcessed && r.docsWritten == docsWritten && r.errors == errors
      && r.guesstimatedDocsProcessed == docsProcessed
      && r.guesstimatedDocsTotal == Guesstimate(docsProcessed, bytesProcessed, fileSize)
      && r.guesstimatedDocsTotal >= docsProcessed
      && r.guesstimatedDocsTotal * bytesProcessed >= fileSize * docsProcessed
      && r.status == s.status && r.abortController == s.abortController && r.fields == s.fields
      && r.(docsProcessed := s.docsProcessed, docsWritten := s.docsWritten, errors := s.errors,
            guesstimatedDocsProcessed := s.guesstimatedDocsProcessed,
            guesstimatedDocsTotal := s.guesstimatedDocsTotal) == s
  {
    var g := Guesstimate(docsProcessed, bytesProcessed, fileSize);
    ApplyThree(s, SetGuesstimatedTotal(g), GuesstimatedProgress(docsProcessed, g), Progress(docsWritten, docsProcessed, errors));
  }

  /**
   * The closure `startImport` builds around one run: the errors the importer
   * reports one by one, and the progress callback that snapshots them.
   */
  class ImportRun {
    const fileSize: nat
    var errors: seq<ImportError>

    constructor (fileSize: nat)
      ensures this.fileSize == fileSize && errors == []
    {
      this.fileSize := fileSize;
      errors := [];
    }

    /** The error callback: appends the error. */
    method OnError(e: ImportError)
      modifies this
      ensures errors == old(errors) + [e]
    {
      errors := errors + [e];
    }

    /** The progress callback (without its rate limit): the actions it dispatches. */
    method OnProgress(docsProcessed: nat, docsWritten: nat, bytesProcessed: nat) returns (actions: seq<Action>)
      requires bytesProcessed > 0
      ensures actions == ProgressActions(docsProcessed, docsWritten, bytesProcessed, fileSize, errors)
      ensures |actions| == 3 && actions[2].Progress? && actions[2].errors == errors
    {
      actions := ProgressActions(docsProcessed, docsWritten, bytesProcessed, fileSize, errors);
    }
  }

  // ---------------------------------------------------------------------
  // Settling a run
  // ---------------------------------------------------------------------

  /** How the importer's promise settled, with the counts it reached. */
  datatype WriteOutcome =
    | Resolved(docsWritten: int, docsProcessed: int)
    | Rejected(error: ImportError, docsWritten: int, docsProcessed: int)

  /**
   * Success dispatches FINISHED (and the import-finished emit, an action of
   * another slice); a rejection dispatches FINISHED and then FAILED. FINISHED's
   * total is the processed count.
   */
  function SettleActions(o: WriteOutcome): seq<Action>
  {
    match o
    case Resolved(w, p) => [Finished(w, p), Foreign]
    case Rejected(e, w, p) => [Finished(w, p), ImportFailed(e)]
  }

  /** The actions of one whole run, from STARTED to settling. */
  function RunActions(token: AbortToken, o: WriteOutcome): seq<Action>
  {
    [ImportStarted(token)] + SettleActions(o)
  }

  /**
   * A resolved run completes (with errors exactly when some were recorded),
   * unless it was cancelled; the counts come from the result, the total
   * being the processed count; the controller is gone.
   */
  lemma SettleResolved(s: State, w: int, p: int)
    ensures var r := Apply(s, SettleActions(Resolved(w, p)));
      && (s.status == Canceled ==> r.status == Canceled)
      && (s.status != Canceled ==> r.status == (if s.errors == [] then Completed else CompletedWithErrors))
      && r.docsWritten == w && r.docsTotal == p && r.abortController == None && r.errors == s.errors
  {
    ApplyTwo(s, Finished(w, p), Foreign);
  }

  /** A rejected run always ends FAILED, cancelled or not, with its error recorded. */
  lemma SettleRejected(s: State, e: ImportError, w: int, p: int)
    ensures var r := Apply(s, SettleActions(Rejected(e, w, p)));
      && r.status == Failed && e in r.errors
      && r.docsWritten == w && r.docsTotal == p && r.abortController == None
  {
    ApplyTwo(s, Finished(w, p), ImportFailed(e));
  }

  /** A run with no errors recorded and no cancel completes cleanly. */
  lemma RunResolvedCompletes(s: State, token: AbortToken, w: int, p: int)
    ensures var r := Apply(s, RunActions(token, Resolved(w, p)));
      r.status == Completed && r.errors == [] && r.docsWritten == w && r.docsTotal == p && r.abortController == None
  {
    ApplyConcat(s, [ImportStarted(token)], SettleActions(Resolved(w, p)));
    ApplyOne(s, ImportStarted(token));
    SettleResolved(Reduce(s, ImportStarted(token)), w, p);
  }
}
