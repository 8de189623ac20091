/**
 * Schema inference for CSV files: turning the header row into preview fields
 * (one unique path per column, placeholders for later array elements), and
 * merging the analyzer's detected types into those fields.
 */
module SchemaInference {
  import opened ImportTypes
  import opened FieldSelection

  // ---------------------------------------------------------------------
  // Header uniquification
  // ---------------------------------------------------------------------

  /** The unique names that the headers before position `i` map to. */
  function NamesBefore(headers: seq<string>, nameOf: string -> string, i: nat): set<string>
    requires i <= |headers|
  {
    set j | 0 <= j < i :: nameOf(headers[j])
  }

  /**
   * The field for header `i`: a checked CSV field of type 'mixed' at its
   * unique name the first time that name comes up, a placeholder carrying the
   * raw header name every later time.
   */
  function HeaderField(headers: seq<string>, nameOf: string -> string, i: nat): Field
    requires i < |headers|
  {
    var u := nameOf(headers[i]);
    if u in NamesBefore(headers, nameOf, i) then Placeholder(headers[i]) else CsvField(u, true, "mixed", None)
  }

  function HeaderFields(headers: seq<string>, nameOf: string -> string): seq<Field>
  {
    seq(|headers|, i requires 0 <= i < |headers| => HeaderField(headers, nameOf, i))
  }

  /**
   * The mapping over the header names, remembering in `fieldMap` every unique
   * name already given to a field. `nameOf` is the header-to-field-name
   * conversion of the CSV utilities.
   */
  method UniqueHeaderFields(headers: seq<string>, nameOf: string -> string) returns (fields: seq<Field>)
    ensures fields == HeaderFields(headers, nameOf)
  {
    var fieldMap: map<string, bool> := map[];
    fields := [];
    var i := 0;
    while i < |headers|
      invariant 0 <= i <= |headers|
      invariant fieldMap.Keys == NamesBefore(headers, nameOf, i)
      invariant forall u :: u in fieldMap ==> fieldMap[u]
      invariant |fields| == i
      invariant forall k :: 0 <= k < i ==> fields[k] == HeaderField(headers, nameOf, k)
    {
      var name := headers[i];
      var uniqueName := nameOf(name);
      var field;
      if uniqueName in fieldMap && fieldMap[uniqueName] {
        field := Placeholder(name);
      } else {
        fieldMap := fieldMap[uniqueName := true];
        field := CsvField(uniqueName, true, "mixed", None);
      }
      assert NamesBefore(headers, nameOf, i + 1) == NamesBefore(headers, nameOf, i) + {uniqueName};
      fields := fields + [field];
      i := i + 1;
    }
  }

  /** Whether no earlier header maps to the same unique name as header `i`. */
  predicate FirstOccurrence(headers: seq<string>, nameOf: string -> string, i: nat)
    requires i < |headers|
  {
    forall j :: 0 <= j < i ==> nameOf(headers[j]) != nameOf(headers[i])
  }

  /**
   * One field per header, in header order: the first header for a unique
   * name gives a checked 'mixed' CSV field at that name, every later one a
   * placeholder with the raw header name.
   */
  lemma HeaderFieldsShape(headers: seq<string>, nameOf: string -> string)
    ensures var fs := HeaderFields(headers, nameOf);
      && |fs| == |headers|
      && forall i :: 0 <= i < |headers| ==>
           (FirstOccurrence(headers, nameOf, i) ==> fs[i] == CsvField(nameOf(headers[i]), true, "mixed", None))
           && (!FirstOccurrence(headers, nameOf, i) ==> fs[i] == Placeholder(headers[i]))
  {
    var fs := HeaderFields(headers, nameOf);
    forall i | 0 <= i < |headers|
      ensures FirstOccurrence(headers, nameOf, i) <==> nameOf(headers[i]) !in NamesBefore(headers, nameOf, i)
    {
      if !FirstOccurrence(headers, nameOf, i) {
        var j :| 0 <= j < i && nameOf(headers[j]) == nameOf(headers[i]);
        assert nameOf(headers[j]) in NamesBefore(headers, nameOf, i);
      }
    }
  }

  /** The CSV fields of a header list have pairwise distinct paths. */
  lemma HeaderPathsDistinct(headers: seq<string>, nameOf: string -> string)
    ensures var fs := HeaderFields(headers, nameOf);
      forall i, j :: 0 <= i < j < |fs| && fs[i].CsvField? && fs[j].CsvField? ==> fs[i].path != fs[j].path
  {
    var fs := HeaderFields(headers, nameOf);
    forall i, j | 0 <= i < j < |fs| && fs[i].CsvField? && fs[j].CsvField? ensures fs[i].path != fs[j].path {
      assert nameOf(headers[i]) in NamesBefore(headers, nameOf, j);
    }
  }

  /**
   * A header list yields no JSON field, every non-placeholder field checked,
   * hence no path with mixed check marks: a sound selection once previewed.
   */
  lemma HeaderFieldsWellFormed(headers: seq<string>, nameOf: string -> string)
    ensures var fs := HeaderFields(headers, nameOf);
      && NoJsonFields(fs) && NoMixedPath(fs)
      && forall i :: 0 <= i < |fs| && !fs[i].Placeholder? ==> fs[i].checked
  {
  }

  /**
   * The members of Object.prototype: looking any of them up in an empty
   * plain JavaScript object gives a truthy value.
   */
  const ObjectPrototypeNames: set<string> := {
    "constructor", "__proto__", "hasOwnProperty", "isPrototypeOf", "propertyIsEnumerable",
    "toLocaleString", "toString", "valueOf",
    "__defineGetter__", "__defineSetter__", "__lookupGetter__", "__lookupSetter__"
  }

  /**
   * The header field as the code computes it: `fieldMap` is a plain object,
   * so a unique name that is a member of Object.prototype already looks taken.
   */
  function HeaderFieldAsWritten(headers: seq<string>, nameOf: string -> string, i: nat): Field
    requires i < |headers|
  {
    var u := nameOf(headers[i]);
    if u in NamesBefore(headers, nameOf, i) || u in ObjectPrototypeNames then Placeholder(headers[i])
    else CsvField(u, true, "mixed", None)
  }

  function HeaderFieldsAsWritten(headers: seq<string>, nameOf: string -> string): seq<Field>
  {
    seq(|headers|, i requires 0 <= i < |headers| => HeaderFieldAsWritten(headers, nameOf, i))
  }

  /**
   * A single column whose unique name is 'toString' comes out as a
   * placeholder, so it can be neither typed nor excluded, where a first
   * occurrence should give a CSV field.
   */
  lemma PrototypeNameBecomesPlaceholder(h: string, nameOf: string -> string)
    requires nameOf(h) == "toString"
    ensures HeaderFieldsAsWritten([h], nameOf) == [Placeholder(h)]
    ensures HeaderFields([h], nameOf) == [CsvField("toString", true, "mixed", None)]
    ensures FirstOccurrence([h], nameOf, 0)
  {
    assert NamesBefore([h], nameOf, 0) == {};
  }

  /** Away from Object.prototype's member names the code does what is intended. */
  lemma AsWrittenAgreesOffPrototype(headers: seq<string>, nameOf: string -> string)
    requires forall i :: 0 <= i < |headers| ==> nameOf(headers[i]) !in ObjectPrototypeNames
    ensures HeaderFieldsAsWritten(headers, nameOf) == HeaderFields(headers, nameOf)
  {
  }

  // ---------------------------------------------------------------------
  // Type merge
  // ---------------------------------------------------------------------

  /**
   * The type shown for an analyzed column: 'undefined' (a column that is
   * always empty while blanks are ignored) is shown as 'null'.
   */
  function Detected(c: ColumnAnalysis): (t: CsvType)
    ensures t != "undefined"
    ensures c.detected == "undefined" ==> t == "null"
    ensures c.detected != "undefined" ==> t == c.detected
  {
    if c.detected == "undefined" then "null" else c.detected
  }

  /** Every non-placeholder field has an analysis in the result. */
  predicate Analyzed(fs: seq<Field>, r: AnalyzeResult)
  {
    forall i :: 0 <= i < |fs| && !fs[i].Placeholder? ==> fs[i].path in r.columns
  }

  /** One field after the merge: a placeholder is skipped, any other field takes the detected type. */
  function MergeField(f: Field, r: AnalyzeResult): Field
    requires f.Placeholder? || f.path in r.columns
  {
    match f
    case Placeholder(_) => f
    case CsvField(p, c, _, _) => CsvField(p, c, Detected(r.columns[p]), Some(r.columns[p]))
    case JsonField(p, c) => CsvField(p, c, Detected(r.columns[p]), Some(r.columns[p]))
  }

  function MergeTypes(fs: seq<Field>, r: AnalyzeResult): seq<Field>
    requires Analyzed(fs, r)
  {
    seq(|fs|, i requires 0 <= i < |fs| => MergeField(fs[i], r))
  }

  /**
   * The position of the first non-placeholder field without an analysis, or
   * the length when every field has one: where the lookup in the merge loop
   * throws.
   */
  function FirstMissing(fs: seq<Field>, r: AnalyzeResult): (k: nat)
    ensures k <= |fs|
    ensures Analyzed(fs[..k], r)
    ensures k < |fs| ==> !fs[k].Placeholder? && fs[k].path !in r.columns
    ensures k == |fs| <==> Analyzed(fs, r)
  {
    if fs == [] then 0
    else if !fs[0].Placeholder? && fs[0].path !in r.columns then 0
    else
      var k := 1 + FirstMissing(fs[1..], r);
      assert forall i :: 1 <= i < k ==> fs[..k][i] == fs[1..][..k - 1][i - 1];
      assert k == |fs| ==> fs[..k] == fs;
      k
  }

  /** Any missing position with all fields before it analysed is the first one. */
  lemma MissingAtIsFirst(fs: seq<Field>, r: AnalyzeResult, k: nat)
    requires MissingAt(fs, r, k)
    ensures k == FirstMissing(fs, r)
  {
  }

  /**
   * What the merge loop leaves in the fields it updates in place: the fields
   * before the first one without an analysis merged, that one and the rest
   * as they were. With every field analysed, the full merge.
   */
  function MergeUntilMissing(fs: seq<Field>, r: AnalyzeResult): (m: seq<Field>)
    ensures |m| == |fs|
    ensures Analyzed(fs, r) ==> m == MergeTypes(fs, r)
  {
    var k := FirstMissing(fs, r);
    assert k == |fs| ==> fs[..k] == fs && fs[k..] == [];
    MergeTypes(fs[..k], r) + fs[k..]
  }

  /**
   * The loop of `loadTypes`, assigning type and analysis to each field in
   * place. A field without an analysis makes the lookup throw: the fields
   * before it have been updated, it and those after it have not.
   */
  method LoadTypes(fields: array<Field>, result: AnalyzeResult) returns (ok: bool)
    modifies fields
    ensures ok <==> Analyzed(old(fields[..]), result)
    ensures ok ==> fields[..] == MergeTypes(old(fields[..]), result)
    ensures !ok ==> (exists k :: 0 <= k < fields.Length && MissingAt(old(fields[..]), result, k) &&
                                  fields[..k] == MergeTypes(old(fields[..])[..k], result) &&
                                  fields[k..] == old(fields[..])[k..])
    ensures fields[..] == MergeUntilMissing(old(fields[..]), result)
  {
    ghost var before := fields[..];
    var i := 0;
    while i < fields.Length
      invariant 0 <= i <= fields.Length
      invariant Analyzed(before[..i], result)
      invariant fields[..i] == MergeTypes(before[..i], result)
      invariant fields[i..] == before[i..]
    {
      assert fields[i] == before[i];
      var field := fields[i];
      if !field.Placeholder? && field.path !in result.columns {
        assert MissingAt(before, result, i);
        MissingAtIsFirst(before, result, i);
        assert fields[..] == fields[..i] + fields[i..];
        return false;
      }
      fields[i] := MergeField(field, result);
      assert before[..i + 1] == before[..i] + [field];
      i := i + 1;
    }
    assert before[..i] == before;
    return true;
  }

  /** Field `k` is the first non-placeholder field without an analysis. */
  predicate MissingAt(fs: seq<Field>, r: AnalyzeResult, k: nat)
  {
    k < |fs| && Analyzed(fs[..k], r) && !fs[k].Placeholder? && fs[k].path !in r.columns
  }

  /**
   * The merge keeps order, count, paths and check marks; placeholders are
   * left alone; every other field becomes a CSV field typed by its analysis,
   * never 'undefined'.
   */
  lemma MergeTypesEffect(fs: seq<Field>, r: AnalyzeResult)
    requires Analyzed(fs, r)
    ensures var m := MergeTypes(fs, r);
      && |m| == |fs|
      && (forall i :: 0 <= i < |fs| && fs[i].Placeholder? ==> m[i] == fs[i])
      && (forall i :: 0 <= i < |fs| && !fs[i].Placeholder? ==>
            && m[i].CsvField? && m[i].path == fs[i].path && m[i].checked == fs[i].checked
            && m[i].result == Some(r.columns[fs[i].path])
            && m[i].fieldType != "undefined"
            && (r.columns[fs[i].path].detected == "undefined" ==> m[i].fieldType == "null")
            && (r.columns[fs[i].path].detected != "undefined" ==> m[i].fieldType == r.columns[fs[i].path].detected))
  {
  }

  /** The merge leaves no JSON field and keeps check marks in agreement per path. */
  lemma MergeKeepsSelectionShape(fs: seq<Field>, r: AnalyzeResult)
    requires Analyzed(fs, r) && NoMixedPath(fs)
    ensures NoJsonFields(MergeTypes(fs, r)) && NoMixedPath(MergeTypes(fs, r))
  {
    var m := MergeTypes(fs, r);
    forall i, j | 0 <= i < |m| && 0 <= j < |m| && !m[i].Placeholder? && !m[j].Placeholder? && m[i].path == m[j].path
      ensures m[i].checked == m[j].checked
    {
      assert !fs[i].Placeholder? && !fs[j].Placeholder?;
    }
  }
}
