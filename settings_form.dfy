/** `UserSettingsForm` and the `edit_settings` route: on a valid submission
    every field is written under its own id and the session is committed once;
    otherwise every field is loaded back from the settings store, boolean
    fields coerced with `int(data or 0)`. */
module SettingsForm {
  import opened Python
  import opened UserSettings
  import opened BackupValidation

  /** The wtforms field classes the form uses; only `BooleanField` changes
      how a field is loaded. */
  datatype FieldKind = BooleanKind | StringKind | IntegerKind | SelectKind | TextAreaKind | CsrfTokenKind

  /** A bound form field: its id (the settings key), its class and its data. */
  class FormField {
    const id: string
    const kind: FieldKind
    var data: Value

    constructor (id: string, kind: FieldKind, data: Value)
      ensures this.id == id && this.kind == kind && this.data == data
    {
      this.id := id;
      this.kind := kind;
      this.data := data;
    }
  }

  /** The fields of `UserSettingsForm` in declaration order, then the CSRF
      token field `FlaskForm` adds. Field ids are the settings keys. */
  const Schema: seq<(string, FieldKind)> := [
    ("backup_enabled", BooleanKind),
    ("backup_dir", StringKind),
    ("backup_auto", BooleanKind),
    ("backup_warn", BooleanKind),
    ("backup_count", IntegerKind),
    ("current_theme", SelectKind),
    ("custom_styles", TextAreaKind),
    ("show_highlights", BooleanKind),
    ("show_reading", BooleanKind),
    ("open_popup_in_new_tab", BooleanKind),
    ("stop_audio_on_term_form_open", BooleanKind),
    ("mecab_path", StringKind),
    ("japanese_reading", SelectKind),
    ("unidic_types", SelectKind),
    ("csrf_token", CsrfTokenKind)
  ]

  const BackupEnabledField: nat := 0
  const BackupDirField: nat := 1
  const BackupCountField: nat := 4

  /** A form whose fields are those of `UserSettingsForm`. */
  predicate IsUserSettingsForm(form: seq<FormField>)
  {
    |form| == |Schema| &&
    forall i :: 0 <= i < |form| ==> form[i].id == Schema[i].0 && form[i].kind == Schema[i].1
  }

  /** A field's id, class and data at one moment. */
  datatype Entry = Entry(id: string, kind: FieldKind, data: Value)

  predicate DistinctIds(es: seq<Entry>)
  {
    forall i, j :: 0 <= i < j < |es| ==> es[i].id != es[j].id
  }

  predicate DistinctFields(form: seq<FormField>)
  {
    forall i, j :: 0 <= i < j < |form| ==> form[i].id != form[j].id
  }

  function Snapshot(form: seq<FormField>): (es: seq<Entry>)
    reads set f | f in form
    ensures |es| == |form|
    ensures forall i :: 0 <= i < |form| ==> es[i] == Entry(form[i].id, form[i].kind, form[i].data)
  {
    seq(|form|, i requires 0 <= i < |form| reads set f | f in form => Entry(form[i].id, form[i].kind, form[i].data))
  }

  // ---------------------------------------------------------------------
  // Apply: `UserSetting.set_value(field.id, field.data)` for each field

  /** The two ids the apply loop does not write. */
  predicate Skipped(id: string)
  {
    id == "csrf_token" || id == "submit"
  }

  /** The session after writing each non-skipped entry, first to last. */
  function WriteFields(m: map<string, Value>, es: seq<Entry>): map<string, Value>
  {
    if es == [] then m
    else
      var prior := WriteFields(m, es[..|es| - 1]);
      var e := es[|es| - 1];
      if Skipped(e.id) then prior else prior[e.id := e.data]
  }

  /** Every written field's key holds that field's data afterwards. */
  lemma {:induction false} WriteFieldsStores(m: map<string, Value>, es: seq<Entry>, j: nat)
    requires DistinctIds(es) && j < |es| && !Skipped(es[j].id)
    ensures es[j].id in WriteFields(m, es)
    ensures WriteFields(m, es)[es[j].id] == es[j].data
  {
    var n := |es| - 1;
    if j < n {
      assert DistinctIds(es[..n]) && es[..n][j] == es[j];
      WriteFieldsStores(m, es[..n], j);
    }
  }

  /** A key that is no written field's id is left as it was. */
  lemma {:induction false} WriteFieldsKeepsOthers(m: map<string, Value>, es: seq<Entry>, k: string)
    requires Skipped(k) || forall j :: 0 <= j < |es| ==> es[j].id != k
    ensures k in WriteFields(m, es) <==> k in m
    ensures k in m ==> WriteFields(m, es)[k] == m[k]
  {
    if es != [] {
      var n := |es| - 1;
      assert forall j :: 0 <= j < n ==> es[..n][j] == es[j];
      WriteFieldsKeepsOthers(m, es[..n], k);
    }
  }

  /** Apply: write every field except `csrf_token`/`submit`, then commit once. */
  method ApplyForm(store: Store, form: seq<FormField>)
    modifies store
    ensures store.staged == WriteFields(old(store.staged), old(Snapshot(form)))
    ensures store.committed == store.staged
    ensures store.commits == old(store.commits) + 1
  {
    ghost var es := Snapshot(form);
    var i := 0;
    while i < |form|
      invariant 0 <= i <= |form|
      invariant store.staged == WriteFields(old(store.staged), es[..i])
      invariant store.committed == old(store.committed) && store.commits == old(store.commits)
    {
      var f := form[i];
      if f.id != "csrf_token" && f.id != "submit" {
        store.Set(f.id, f.data);
      }
      assert es[..i + 1][..i] == es[..i];
      i := i + 1;
    }
    assert es[..|form|] == es;
    store.Commit();
  }

  // ---------------------------------------------------------------------
  // Load: `field.data = UserSetting.get_value(field.id)`, then the boolean hack

  /** The data one field ends up with, or the exception `int()` raises. */
  function LoadEntry(staged: map<string, Value>, e: Entry): (r: Result<Value>)
    ensures e.kind != BooleanKind ==> r == Ok(if e.id != "csrf_token" then Lookup(staged, e.id) else e.data)
    ensures e.kind == BooleanKind && e.id != "csrf_token" && !Truthy(Lookup(staged, e.id)) ==> r == Ok(Int(0))
    ensures e.kind == BooleanKind && e.id != "csrf_token" && Lookup(staged, e.id).Bool? ==>
      r == Ok(Int(if Lookup(staged, e.id).b then 1 else 0))
    ensures e.kind == BooleanKind && e.id != "csrf_token" && Lookup(staged, e.id).Int? ==>
      r == Ok(Lookup(staged, e.id))
    ensures e.kind == BooleanKind && e.id != "csrf_token" && Lookup(staged, e.id).Str? ==>
      var s := Lookup(staged, e.id).s;
      && (ParseInt(s).Some? ==> r == Ok(Int(ParseInt(s).value)))
      && (s != "" && ParseInt(s).None? ==> r == Err(InvalidLiteral(s)))
  {
    var d := if e.id != "csrf_token" then Lookup(staged, e.id) else e.data;
    if e.kind == BooleanKind then
      match IntOrZero(d)
      case Ok(n) => Ok(Int(n))
      case Err(x) => Err(x)
    else Ok(d)
  }

  /** Loading every entry in order: all loaded data, or the first exception. */
  function LoadAll(staged: map<string, Value>, es: seq<Entry>): (r: Result<seq<Value>>)
    ensures r.Ok? ==> |r.value| == |es|
  {
    if es == [] then Ok([])
    else
      match LoadAll(staged, es[..|es| - 1])
      case Err(x) => Err(x)
      case Ok(vs) =>
        match LoadEntry(staged, es[|es| - 1])
        case Err(x) => Err(x)
        case Ok(v) => Ok(vs + [v])
  }

  /** Every entry loads on its own. */
  predicate EachLoads(staged: map<string, Value>, es: seq<Entry>)
  {
    forall i :: 0 <= i < |es| ==> LoadEntry(staged, es[i]).Ok?
  }

  /** Loading one more entry after a prefix that loaded. */
  lemma LoadAllStep(staged: map<string, Value>, es: seq<Entry>, i: nat, loaded: seq<Value>)
    requires i < |es| && LoadAll(staged, es[..i]) == Ok(loaded)
    ensures LoadEntry(staged, es[i]).Ok? ==> LoadAll(staged, es[..i + 1]) == Ok(loaded + [LoadEntry(staged, es[i]).value])
    ensures LoadEntry(staged, es[i]).Err? ==> LoadAll(staged, es[..i + 1]) == Err(LoadEntry(staged, es[i]).error)
  {
    assert es[..i + 1][..i] == es[..i];
  }

  /** Loading succeeds exactly when every field loads on its own. */
  lemma {:induction false} LoadAllOkIff(staged: map<string, Value>, es: seq<Entry>)
    ensures LoadAll(staged, es).Ok? <==> EachLoads(staged, es)
  {
    if es != [] {
      var n := |es| - 1;
      var prefix := es[..n];
      LoadAllOkIff(staged, prefix);
      assert forall i :: 0 <= i < n ==> prefix[i] == es[i];
      assert EachLoads(staged, es) <==> EachLoads(staged, prefix) && LoadEntry(staged, es[n]).Ok?;
    }
  }

  /** A load that succeeds gives each field what loading it alone gives. */
  lemma {:induction false} LoadAllValues(staged: map<string, Value>, es: seq<Entry>)
    requires LoadAll(staged, es).Ok?
    ensures forall i :: 0 <= i < |es| ==> LoadEntry(staged, es[i]) == Ok(LoadAll(staged, es).value[i])
  {
    if es != [] {
      var n := |es| - 1;
      var prefix := es[..n];
      LoadAllValues(staged, prefix);
      var vs := LoadAll(staged, prefix).value;
      assert LoadEntry(staged, es[n]).Ok? && LoadAll(staged, es).value == vs + [LoadEntry(staged, es[n]).value];
      forall i | 0 <= i < n ensures LoadEntry(staged, es[i]) == Ok(LoadAll(staged, es).value[i]) {
        assert prefix[i] == es[i];
      }
    }
  }

  /** Once a prefix fails, the whole load fails with the same exception. */
  lemma {:induction false} LoadAllFirstError(staged: map<string, Value>, es: seq<Entry>, k: nat)
    requires k <= |es| && LoadAll(staged, es[..k]).Err?
    ensures LoadAll(staged, es) == LoadAll(staged, es[..k])
  {
    if k < |es| {
      var n := |es| - 1;
      assert es[..n][..k] == es[..k];
      LoadAllFirstError(staged, es[..n], k);
      assert es[..|es|] == es;
    } else {
      assert es[..k] == es;
    }
  }

  /** One iteration of the load loop, on one field. */
  method LoadField(store: Store, f: FormField) returns (raised: Option<Exception>)
    modifies f
    ensures match LoadEntry(store.staged, old(Entry(f.id, f.kind, f.data)))
      case Ok(v) => raised == None && f.data == v
      case Err(x) => raised == Some(x)
  {
    raised := None;
    if f.id != "csrf_token" {
      f.data := store.Get(f.id);
    }
    if f.kind == BooleanKind {
      match IntOrZero(f.data)
      case Ok(n) => f.data := Int(n);
      case Err(x) => raised := Some(x);
    }
  }

  /** Load: every field except `csrf_token` takes its stored value; boolean
      fields then become `int(data or 0)`. An `int()` failure stops the loop
      and propagates. */
  method LoadForm(store: Store, form: seq<FormField>) returns (raised: Option<Exception>)
    requires DistinctFields(form)
    modifies set f | f in form
    ensures LoadAll(store.staged, old(Snapshot(form))).Ok? ==>
      raised == None && forall i :: 0 <= i < |form| ==> form[i].data == LoadAll(store.staged, old(Snapshot(form))).value[i]
    ensures LoadAll(store.staged, old(Snapshot(form))).Err? ==>
      raised == Some(LoadAll(store.staged, old(Snapshot(form))).error)
  {
    ghost var es := Snapshot(form);
    ghost var loaded: seq<Value> := [];
    raised := None;
    var i := 0;
    while i < |form|
      invariant 0 <= i <= |form| && raised == None
      invariant LoadAll(store.staged, es[..i]) == Ok(loaded)
      invariant |loaded| == i && forall j :: 0 <= j < i ==> form[j].data == loaded[j]
      invariant forall j :: i <= j < |form| ==> form[j].data == es[j].data
    {
      ghost var e := es[i];
      assert e == Entry(form[i].id, form[i].kind, form[i].data);
      assert forall j :: 0 <= j < |form| && j != i ==> form[j] != form[i];
      raised := LoadField(store, form[i]);
      LoadAllStep(store.staged, es, i, loaded);
      if raised.Some? {
        LoadAllFirstError(store.staged, es, i + 1);
        return;
      }
      assert LoadEntry(store.staged, e) == Ok(form[i].data);
      loaded := loaded + [form[i].data];
      assert LoadAll(store.staged, es[..i + 1]) == Ok(loaded);
      i := i + 1;
    }
    assert es[..|form|] == es;
  }

  /** Reading back right after an apply: a written field loads its own data;
      a boolean field holding `Bool(b)` loads as 1 or 0. */
  lemma ApplyThenLoad(m: map<string, Value>, es: seq<Entry>, j: nat)
    requires DistinctIds(es) && j < |es| && !Skipped(es[j].id)
    ensures es[j].kind != BooleanKind ==> LoadEntry(WriteFields(m, es), es[j]) == Ok(es[j].data)
    ensures es[j].kind == BooleanKind && es[j].data.Bool? ==>
      LoadEntry(WriteFields(m, es), es[j]) == Ok(Int(if es[j].data.b then 1 else 0))
  {
    WriteFieldsStores(m, es, j);
  }

  /** A boolean setting stored as the text of a number, such as `"0"` or
      `"1"`, loads as that number: `"0"` is truthy, and `int()` turns it
      into 0, so the box renders unchecked. */
  lemma BooleanTextLoadsAsNumber(staged: map<string, Value>, e: Entry, n: int)
    requires e.kind == BooleanKind && e.id != "csrf_token"
    requires Lookup(staged, e.id) == Str(Show(n))
    ensures LoadEntry(staged, e) == Ok(Int(n))
  {
    ParseShowRoundTrip(n);
  }

  /** Boolean settings stored as `bool`, `int` or `None` always load: only a
      non-numeric string under a boolean key makes `int()` raise. */
  lemma CanonicalBooleansLoad(staged: map<string, Value>, es: seq<Entry>)
    requires forall i :: 0 <= i < |es| && es[i].kind == BooleanKind && es[i].id != "csrf_token" ==>
      !Lookup(staged, es[i].id).Str?
    requires forall i :: 0 <= i < |es| && es[i].kind == BooleanKind ==> es[i].id != "csrf_token"
    ensures LoadAll(staged, es).Ok?
  {
    LoadAllOkIff(staged, es);
  }

  // ---------------------------------------------------------------------
  // The route

  datatype Response = Redirected | Rendered | ServerError(error: Exception)

  /** The directory field's data as the validator sees it (`str` or `None`). */
  function TextData(v: Value): Option<string>
  {
    if v.Str? then Some(v.s) else None
  }

  /** The integer field's data for submitted text `raw`. */
  function IntegerData(raw: Option<string>): Value
  {
    match CountData(raw)
    case Some(n) => Int(n)
    case None => NoneValue
  }

  /** `form.validate_on_submit()` as far as the backup validators decide it. */
  predicate Applies(submitted: bool, enabled: Value, dirData: Value, countRaw: Option<string>, fs: FileSystem)
  {
    submitted && BackupFieldsValid(enabled, TextData(dirData), countRaw, fs)
  }

  /** `edit_settings`: `submitted` is whether the request is a form submission,
      `countRaw` the text submitted for `backup_count`. */
  method EditSettings(store: Store, form: seq<FormField>, submitted: bool, countRaw: Option<string>, fs: FileSystem)
    returns (resp: Response)
    requires IsUserSettingsForm(form)
    requires DistinctFields(form)
    requires form[BackupDirField].data.Str? || form[BackupDirField].data.NoneValue?
    requires form[BackupCountField].data == IntegerData(countRaw)
    modifies store, set f | f in form
    ensures Applies(submitted, old(form[BackupEnabledField].data), old(form[BackupDirField].data), countRaw, fs) ==>
      && resp == Redirected
      && store.staged == WriteFields(old(store.staged), old(Snapshot(form)))
      && store.committed == store.staged && store.commits == old(store.commits) + 1
      && forall i :: 0 <= i < |form| ==> form[i].data == old(form[i].data)
    ensures !Applies(submitted, old(form[BackupEnabledField].data), old(form[BackupDirField].data), countRaw, fs) ==>
      && store.staged == old(store.staged) && store.committed == old(store.committed)
      && store.commits == old(store.commits)
      && (LoadAll(store.staged, old(Snapshot(form))).Ok? ==>
            resp == Rendered && forall i :: 0 <= i < |form| ==> form[i].data == LoadAll(store.staged, old(Snapshot(form))).value[i])
      && (LoadAll(store.staged, old(Snapshot(form))).Err? ==>
            resp == ServerError(LoadAll(store.staged, old(Snapshot(form))).error))
  {
    ghost var before := Snapshot(form);
    if Applies(submitted, form[BackupEnabledField].data, form[BackupDirField].data, countRaw, fs) {
      ApplyForm(store, form);
      resp := Redirected;
    } else {
      var raised := LoadForm(store, form);
      ghost var result := LoadAll(store.staged, before);
      resp := if raised.Some? then ServerError(raised.value) else Rendered;
      assert result.Err? ==> resp == ServerError(result.error);
    }
  }
}
