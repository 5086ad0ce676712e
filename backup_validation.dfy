/** The settings form's field validators for the backup settings:
    `UserSettingsForm.validate_backup_dir` and the `backup_count` validators
    `InputRequired()` and `NumberRange(min=1)`. */
module BackupValidation {
  import opened Python

  /** The filesystem queries the validator makes, left uninterpreted:
      `os.path.abspath`, `os.path.exists` and `os.path.isdir`. */
  datatype FileSystem = FileSystem(absPath: string -> string, pathExists: string -> bool, isDir: string -> bool)

  /** The `ValidationError`s `validate_backup_dir` raises, one per check. */
  datatype BackupDirError =
    | DirRequired
    | NotAbsolute(suggested: string)
    | DoesNotExist(dir: string)
    | NotADirectory(dir: string)

  /** The text of each `ValidationError`. */
  function Message(e: BackupDirError): string
  {
    match e
    case DirRequired => "Backup directory required"
    case NotAbsolute(a) => "Backup dir must be absolute path.  Did you mean \"" + a + "\"?"
    case DoesNotExist(d) => "Directory \"" + d + "\" does not exist."
    case NotADirectory(d) => "\"" + d + "\" is not a directory."
  }

  /** The text between a fixed prefix and suffix is determined by the whole. */
  lemma SameFrame(p: string, x: string, y: string, q: string)
    requires p + x + q == p + y + q
    ensures x == y
  {
    assert |x| == |y|;
    assert x == (p + x + q)[|p|..|p| + |x|];
    assert y == (p + y + q)[|p|..|p| + |y|];
  }

  /** What tells the four texts apart: the last character, and for the two
      texts ending in '.', the first. */
  lemma MessageSignature(e: BackupDirError)
    ensures |Message(e)| > 0
    ensures CheckOf(e) == 0 ==> Message(e)[|Message(e)| - 1] == 'd'
    ensures CheckOf(e) == 1 ==> Message(e)[|Message(e)| - 1] == '?'
    ensures CheckOf(e) == 2 ==> Message(e)[|Message(e)| - 1] == '.' && Message(e)[0] == 'D'
    ensures CheckOf(e) == 3 ==> Message(e)[|Message(e)| - 1] == '.' && Message(e)[0] == '"'
  {
  }

  /** A message names its error: two errors with the same text are the same
      check failing on the same value. */
  lemma MessageIdentifiesError(e1: BackupDirError, e2: BackupDirError)
    ensures Message(e1) == Message(e2) ==> e1 == e2
  {
    if Message(e1) == Message(e2) {
      MessageSignature(e1);
      MessageSignature(e2);
      assert CheckOf(e1) == CheckOf(e2);
      match e1
      case DirRequired =>
      case NotAbsolute(a) =>
        SameFrame("Backup dir must be absolute path.  Did you mean \"", a, e2.suggested, "\"?");
      case DoesNotExist(d) =>
        SameFrame("Directory \"", d, e2.dir, "\" does not exist.");
      case NotADirectory(d) =>
        SameFrame("\"", d, e2.dir, "\" is not a directory.");
    }
  }

  /** `(v or "")` for the directory field's data, a `str` or `None`. */
  function DirText(dir: Option<string>): string
  {
    if dir.Some? then dir.value else ""
  }

  /** The four checks, in the order the validator runs them:
      0 required, 1 absolute, 2 exists, 3 is a directory. */
  predicate Holds(k: nat, dir: Option<string>, fs: FileSystem)
    requires k < 4
  {
    var v := DirText(dir);
    match k
    case 0 => Strip(v) != ""
    case 1 => fs.absPath(v) == v
    case 2 => fs.pathExists(v)
    case _ => fs.isDir(v)
  }

  /** Which check an error reports. */
  function CheckOf(e: BackupDirError): (k: nat)
    ensures k < 4
  {
    match e
    case DirRequired => 0
    case NotAbsolute(_) => 1
    case DoesNotExist(_) => 2
    case NotADirectory(_) => 3
  }

  /** The error a failing check `k` raises, carrying the suggested absolute
      path or the offending value. */
  function ErrorFor(k: nat, dir: Option<string>, fs: FileSystem): (e: BackupDirError)
    requires k < 4
    ensures CheckOf(e) == k
  {
    var v := DirText(dir);
    match k
    case 0 => DirRequired
    case 1 => NotAbsolute(fs.absPath(v))
    case 2 => DoesNotExist(v)
    case _ => NotADirectory(v)
  }

  /** `validate_backup_dir`: nothing when `backup_enabled` is exactly `False`;
      otherwise the error of the first failing check, or nothing when all pass. */
  function ValidateBackupDir(enabled: Value, dir: Option<string>, fs: FileSystem): (r: Option<BackupDirError>)
    ensures enabled == Bool(false) ==> r == None
    ensures enabled != Bool(false) ==>
      (r == None <==> forall k :: 0 <= k < 4 ==> Holds(k, dir, fs))
    ensures r.Some? ==>
      && r.value == ErrorFor(CheckOf(r.value), dir, fs)
      && !Holds(CheckOf(r.value), dir, fs)
      && forall k :: 0 <= k < CheckOf(r.value) ==> Holds(k, dir, fs)
  {
    if enabled == Bool(false) then None
    else
      var v := DirText(dir);
      if Strip(v) == "" then
        assert !Holds(0, dir, fs);
        Some(DirRequired)
      else
        var abspath := fs.absPath(v);
        if v != abspath then assert !Holds(1, dir, fs); Some(NotAbsolute(abspath))
        else if !fs.pathExists(v) then assert !Holds(2, dir, fs); Some(DoesNotExist(v))
        else if !fs.isDir(v) then assert !Holds(3, dir, fs); Some(NotADirectory(v))
        else None
  }

  /** Validation runs for every flag other than `False`, including `None` and
      `0` (`0 is False` does not hold in Python): a blank directory is
      rejected then, and accepted only when the flag is `False`. */
  lemma BlankDirRejectedUnlessFalse(enabled: Value, dir: Option<string>, fs: FileSystem)
    requires dir == None || forall i :: 0 <= i < |dir.value| ==> IsSpace(dir.value[i])
    ensures ValidateBackupDir(enabled, dir, fs) == (if enabled == Bool(false) then None else Some(DirRequired))
  {
    StripEmptyIffBlank(DirText(dir));
  }

  /** A non-blank relative path is reported as not absolute, with the absolute
      form as the suggestion, whether or not it exists. */
  lemma RelativeDirSuggestsAbsolute(enabled: Value, d: string, fs: FileSystem)
    requires enabled != Bool(false)
    requires exists i :: 0 <= i < |d| && !IsSpace(d[i])
    requires fs.absPath(d) != d
    ensures ValidateBackupDir(enabled, Some(d), fs) == Some(NotAbsolute(fs.absPath(d)))
  {
    StripEmptyIffBlank(d);
  }

  // ---------------------------------------------------------------------
  // backup_count: IntegerField with InputRequired() and NumberRange(min=1)

  datatype CountError = CountRequired | BelowMinimum

  /** The integer field's data: `int(raw)`, or `None` when that raises. */
  function CountData(raw: Option<string>): Option<int>
  {
    if raw.Some? then ParseInt(raw.value) else None
  }

  /** `InputRequired()` then `NumberRange(min=1)` on the submitted text `raw`
      (`None` when the field was not submitted). `InputRequired` stops the
      chain when the input is missing or empty. */
  function ValidateBackupCount(raw: Option<string>): (r: Option<CountError>)
    ensures r == None <==> CountData(raw).Some? && CountData(raw).value >= 1
    ensures r == Some(CountRequired) <==> raw == None || raw == Some("")
  {
    if raw == None || raw == Some("") then Some(CountRequired)
    else
      var data := CountData(raw);
      if data == None || data.value < 1 then Some(BelowMinimum)
      else None
  }

  /** Any whole number of at least one, written as `str` writes it, is accepted. */
  lemma PositiveCountAccepted(n: int)
    requires n >= 1
    ensures ValidateBackupCount(Some(Show(n))) == None
    ensures CountData(Some(Show(n))) == Some(n)
  {
    ParseShowRoundTrip(n);
  }

  /** The form-level verdict for the backup fields: both validators pass. */
  predicate BackupFieldsValid(enabled: Value, dir: Option<string>, countRaw: Option<string>, fs: FileSystem)
  {
    ValidateBackupDir(enabled, dir, fs) == None && ValidateBackupCount(countRaw) == None
  }

  /** Backups enabled, an existing absolute directory and a retain count of at
      least one pass both validators. */
  lemma ExistingAbsoluteDirAccepted(d: string, n: int, fs: FileSystem)
    requires exists i :: 0 <= i < |d| && !IsSpace(d[i])
    requires fs.absPath(d) == d && fs.pathExists(d) && fs.isDir(d)
    requires n >= 1
    ensures BackupFieldsValid(Bool(true), Some(d), Some(Show(n)), fs)
  {
    StripEmptyIffBlank(d);
    PositiveCountAccepted(n);
  }
}
