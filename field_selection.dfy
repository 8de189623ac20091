/**
 * The field selection engine: the per-field edits of TOGGLE_INCLUDE_FIELD and
 * SET_FIELD_TYPE, the lists `transform` and `exclude` derived from the fields,
 * and the field/type map that an import finally writes with.
 */
module FieldSelection {
  import opened ImportTypes

  /** A sequence with at most one element, from an option. */
  function AsSeq<T>(o: Option<T>): seq<T>
  {
    match o
    case Some(x) => [x]
    case None => []
  }

  /**
   * A filter-and-map over fields, in field order: `pick` says whether a field
   * contributes and what. Every filter/map chain of the reducer is one of these.
   */
  function Collect<T>(fs: seq<Field>, pick: Field -> Option<T>): seq<T>
  {
    if fs == [] then [] else Collect(fs[..|fs| - 1], pick) + AsSeq(pick(fs[|fs| - 1]))
  }

  lemma {:induction false} CollectAppend<T>(xs: seq<Field>, ys: seq<Field>, pick: Field -> Option<T>)
    ensures Collect(xs + ys, pick) == Collect(xs, pick) + Collect(ys, pick)
  {
    if ys == [] {
      assert xs + ys == xs;
    } else {
      var ys' := ys[..|ys| - 1];
      assert (xs + ys)[..|xs + ys| - 1] == xs + ys';
      assert (xs + ys)[|xs + ys| - 1] == ys[|ys| - 1];
      CollectAppend(xs, ys', pick);
    }
  }

  /** An element is collected exactly when some field picks it. */
  lemma {:induction false} CollectMember<T>(fs: seq<Field>, pick: Field -> Option<T>, x: T)
    ensures x in Collect(fs, pick) <==> exists i :: 0 <= i < |fs| && pick(fs[i]) == Some(x)
  {
    if fs != [] {
      var pre := fs[..|fs| - 1];
      CollectMember(pre, pick, x);
      if x in Collect(fs, pick) {
        if x in Collect(pre, pick) {
          var i :| 0 <= i < |pre| && pick(pre[i]) == Some(x);
          assert fs[i] == pre[i];
        } else {
          assert pick(fs[|fs| - 1]) == Some(x);
        }
      }
      if exists i :: 0 <= i < |fs| && pick(fs[i]) == Some(x) {
        var i :| 0 <= i < |fs| && pick(fs[i]) == Some(x);
        if i < |pre| {
          assert pre[i] == fs[i];
        }
      }
    }
  }

  /** Two picks that agree on every field collect the same list. */
  lemma {:induction false} CollectAgree<T>(fs: seq<Field>, p1: Field -> Option<T>, p2: Field -> Option<T>)
    requires forall i :: 0 <= i < |fs| ==> p1(fs[i]) == p2(fs[i])
    ensures Collect(fs, p1) == Collect(fs, p2)
  {
    if fs != [] {
      var pre := fs[..|fs| - 1];
      assert forall i :: 0 <= i < |pre| ==> pre[i] == fs[i];
      CollectAgree(pre, p1, p2);
    }
  }

  /** The `[path, type]` pair of a non-placeholder field. */
  function EntryOf(f: Field): Entry
    requires !f.Placeholder?
  {
    match f
    case CsvField(p, _, t, _) => Entry(p, Some(t))
    case JsonField(p, _) => Entry(p, None)
  }

  /** SET_PREVIEW: checked fields that are not placeholders. */
  function PreviewPick(f: Field): Option<Entry>
  {
    if !f.Placeholder? && f.checked then Some(EntryOf(f)) else None
  }

  /** `csvFields`: the typed fields, checked or not. */
  function CsvPick(f: Field): Option<Entry>
  {
    if f.CsvField? then Some(EntryOf(f)) else None
  }

  /** `csvFields(..).filter(checked)`: the checked typed fields. */
  function CheckedCsvPick(f: Field): Option<Entry>
  {
    if f.CsvField? && f.checked then Some(EntryOf(f)) else None
  }

  /** `nonPlaceholderFields(..).filter(!checked)`: paths of unchecked fields. */
  function UncheckedPathPick(f: Field): Option<string>
  {
    if !f.Placeholder? && !f.checked then Some(f.path) else None
  }

  /** `nonPlaceholderFields`: the CSV and JSON fields, in order. */
  function NonPlaceholderPick(f: Field): Option<Field>
  {
    if f.Placeholder? then None else Some(f)
  }

  lemma NonPlaceholderFields(fs: seq<Field>, f: Field)
    ensures f in Collect(fs, NonPlaceholderPick) <==> f in fs && !f.Placeholder?
  {
    CollectMember(fs, NonPlaceholderPick, f);
  }

  lemma CsvFields(fs: seq<Field>, e: Entry)
    ensures e in Collect(fs, CsvPick) <==>
      exists i :: 0 <= i < |fs| && fs[i].CsvField? && e == Entry(fs[i].path, Some(fs[i].fieldType))
  {
    CollectMember(fs, CsvPick, e);
  }

  /** TOGGLE_INCLUDE_FIELD on one field: flips `checked` when the path matches. */
  function ToggleField(f: Field, p: string): Field
  {
    if f.path == p && !f.Placeholder? then f.(checked := !f.checked) else f
  }

  /** SET_FIELD_TYPE on one field: a matching field becomes a checked CSV field of type `t`. */
  function RetypeField(f: Field, p: string, t: CsvType): Field
  {
    if f.path != p then f
    else match f
      case CsvField(_, _, _, r) => CsvField(p, true, t, r)
      case JsonField(_, _) => CsvField(p, true, t, None)
      case Placeholder(_) => CsvField(p, true, t, None)
  }

  /**
   * The fields after a toggle: a non-placeholder field with the path differs
   * from before only in its check mark, which is flipped; every other field
   * is left as it was.
   */
  function Toggled(fs: seq<Field>, p: string): (r: seq<Field>)
    ensures |r| == |fs|
    ensures forall i :: 0 <= i < |fs| ==> r[i].path == fs[i].path && r[i].Placeholder? == fs[i].Placeholder?
    ensures forall i :: 0 <= i < |fs| && fs[i].path == p && !fs[i].Placeholder? ==>
      r[i].checked == !fs[i].checked && r[i].(checked := fs[i].checked) == fs[i]
    ensures forall i :: 0 <= i < |fs| && (fs[i].path != p || fs[i].Placeholder?) ==> r[i] == fs[i]
  {
    seq(|fs|, i requires 0 <= i < |fs| => ToggleField(fs[i], p))
  }

  /**
   * The fields after a type change: any field with the path, whatever its
   * kind, becomes a checked CSV field of type `t`, keeping its analysis only
   * if it was a CSV field already; every other field is left as it was.
   */
  function Retyped(fs: seq<Field>, p: string, t: CsvType): (r: seq<Field>)
    ensures |r| == |fs|
    ensures forall i :: 0 <= i < |fs| && fs[i].path == p ==>
      && r[i].CsvField? && r[i].path == p && r[i].checked && r[i].fieldType == t
      && r[i].result == (if fs[i].CsvField? then fs[i].result else None)
    ensures forall i :: 0 <= i < |fs| && fs[i].path != p ==> r[i] == fs[i]
  {
    seq(|fs|, i requires 0 <= i < |fs| => RetypeField(fs[i], p, t))
  }

  /**
   * The field/type map an import writes with: each `transform` pair whose name
   * is not in `exclude`, later pairs overriding earlier ones with the same name.
   */
  function WriteFields(transform: seq<Entry>, exclude: seq<string>): map<string, Option<CsvType>>
  {
    if transform == [] then map[]
    else
      var e := transform[|transform| - 1];
      var m := WriteFields(transform[..|transform| - 1], exclude);
      if e.path in exclude then m else m[e.path := e.fieldType]
  }

  lemma WriteFieldsSnoc(t: seq<Entry>, e: Entry, ex: seq<string>)
    ensures WriteFields(t + [e], ex) ==
      if e.path in ex then WriteFields(t, ex) else WriteFields(t, ex)[e.path := e.fieldType]
  {
    assert (t + [e])[..|t|] == t;
  }

  /** A name is written exactly when some pair carries it and it is not excluded. */
  lemma {:induction false} WriteFieldsKeys(t: seq<Entry>, ex: seq<string>, k: string)
    ensures k in WriteFields(t, ex) <==> k !in ex && exists i :: 0 <= i < |t| && t[i].path == k
  {
    if t != [] {
      var pre := t[..|t| - 1];
      WriteFieldsKeys(pre, ex, k);
      assert forall i :: 0 <= i < |pre| ==> pre[i] == t[i];
      if k !in ex && exists i :: 0 <= i < |t| && t[i].path == k {
        var i :| 0 <= i < |t| && t[i].path == k;
        if i == |t| - 1 {
          assert k in WriteFields(t, ex);
        } else {
          assert pre[i].path == k;
        }
      }
    }
  }

  /** The type written for a name is that of the last pair carrying it. */
  lemma {:induction false} WriteFieldsLastWins(t: seq<Entry>, ex: seq<string>, i: nat)
    requires i < |t| && t[i].path !in ex
    requires forall j :: i < j < |t| ==> t[j].path != t[i].path
    ensures t[i].path in WriteFields(t, ex) && WriteFields(t, ex)[t[i].path] == t[i].fieldType
  {
    var pre := t[..|t| - 1];
    if i < |t| - 1 {
      assert forall j :: i < j < |pre| ==> pre[j] == t[j];
      WriteFieldsLastWins(pre, ex, i);
    }
  }

  /** Excluding names that no pair carries changes nothing. */
  lemma {:induction false} WriteFieldsIgnoresForeignExcludes(t: seq<Entry>, ex: seq<string>)
    requires forall i :: 0 <= i < |t| ==> t[i].path !in ex
    ensures WriteFields(t, ex) == WriteFields(t, [])
  {
    if t != [] {
      var pre := t[..|t| - 1];
      assert forall i :: 0 <= i < |pre| ==> pre[i] == t[i];
      WriteFieldsIgnoresForeignExcludes(pre, ex);
    }
  }

  /**
   * Writing every typed field while excluding the unchecked ones is writing
   * just the checked typed fields.
   */
  lemma {:induction false} WriteAllCsvMinusUnchecked(fs: seq<Field>, ex: seq<string>)
    requires forall i :: 0 <= i < |fs| && fs[i].CsvField? && !fs[i].checked ==> fs[i].path in ex
    ensures WriteFields(Collect(fs, CsvPick), ex) == WriteFields(Collect(fs, CheckedCsvPick), ex)
  {
    if fs != [] {
      var pre := fs[..|fs| - 1];
      var f := fs[|fs| - 1];
      forall i | 0 <= i < |pre| && pre[i].CsvField? && !pre[i].checked ensures pre[i].path in ex {
        assert pre[i] == fs[i];
      }
      WriteAllCsvMinusUnchecked(pre, ex);
      var a := Collect(pre, CsvPick);
      var c := Collect(pre, CheckedCsvPick);
      if f.CsvField? && f.checked {
        WriteFieldsSnoc(a, EntryOf(f), ex);
        WriteFieldsSnoc(c, EntryOf(f), ex);
      } else if f.CsvField? {
        assert f.path in ex;
        WriteFieldsSnoc(a, EntryOf(f), ex);
        assert Collect(fs, CheckedCsvPick) == c;
      } else {
        assert Collect(fs, CsvPick) == a;
        assert Collect(fs, CheckedCsvPick) == c;
      }
    }
  }

  /** No path names both a checked and an unchecked non-placeholder field. */
  ghost predicate NoMixedPath(fs: seq<Field>)
  {
    forall i, j ::
      0 <= i < |fs| && 0 <= j < |fs| && !fs[i].Placeholder? && !fs[j].Placeholder? && fs[i].path == fs[j].path
      ==> fs[i].checked == fs[j].checked
  }

  predicate NoJsonFields(fs: seq<Field>)
  {
    forall i :: 0 <= i < |fs| ==> !fs[i].JsonField?
  }

  /** The map of what the user selected: the checked typed fields and their types. */
  function SelectedTypes(fs: seq<Field>): map<string, Option<CsvType>>
  {
    WriteFields(Collect(fs, CheckedCsvPick), [])
  }

  /** Excluding the unchecked paths never removes a checked typed field. */
  lemma CheckedNotExcluded(fs: seq<Field>)
    requires NoMixedPath(fs)
    ensures WriteFields(Collect(fs, CheckedCsvPick), Collect(fs, UncheckedPathPick)) == SelectedTypes(fs)
  {
    var t := Collect(fs, CheckedCsvPick);
    var ex := Collect(fs, UncheckedPathPick);
    forall k | 0 <= k < |t| ensures t[k].path !in ex {
      CollectMember(fs, CheckedCsvPick, t[k]);
      var i :| 0 <= i < |fs| && CheckedCsvPick(fs[i]) == Some(t[k]);
      CollectMember(fs, UncheckedPathPick, t[k].path);
    }
    WriteFieldsIgnoresForeignExcludes(t, ex);
  }

  /**
   * The pair of lists TOGGLE_INCLUDE_FIELD derives (every typed field in
   * `transform`, unchecked paths in `exclude`) writes exactly the selection.
   */
  lemma ToggleListsWriteSelection(fs: seq<Field>)
    requires NoMixedPath(fs)
    ensures WriteFields(Collect(fs, CsvPick), Collect(fs, UncheckedPathPick)) == SelectedTypes(fs)
  {
    var ex := Collect(fs, UncheckedPathPick);
    forall i | 0 <= i < |fs| && fs[i].CsvField? && !fs[i].checked ensures fs[i].path in ex {
      CollectMember(fs, UncheckedPathPick, fs[i].path);
    }
    WriteAllCsvMinusUnchecked(fs, ex);
    CheckedNotExcluded(fs);
  }

  /** Without JSON fields, SET_PREVIEW's `transform` is the list of checked typed fields. */
  lemma PreviewListWritesSelection(fs: seq<Field>)
    requires NoJsonFields(fs)
    ensures Collect(fs, PreviewPick) == Collect(fs, CheckedCsvPick)
    ensures WriteFields(Collect(fs, PreviewPick), []) == SelectedTypes(fs)
  {
    CollectAgree(fs, PreviewPick, CheckedCsvPick);
  }

  lemma ToggledKeepsNoMixedPath(fs: seq<Field>, p: string)
    requires NoMixedPath(fs)
    ensures NoMixedPath(Toggled(fs, p))
  {
  }

  lemma RetypedKeepsNoMixedPath(fs: seq<Field>, p: string, t: CsvType)
    requires NoMixedPath(fs)
    ensures NoMixedPath(Retyped(fs, p, t))
  {
    var r := Retyped(fs, p, t);
    forall i, j | 0 <= i < |r| && 0 <= j < |r| && !r[i].Placeholder? && !r[j].Placeholder? && r[i].path == r[j].path
      ensures r[i].checked == r[j].checked
    {
      if r[i].path != p {
        assert r[i] == fs[i] && r[j] == fs[j];
      }
    }
  }
}
