# Lute settings routes: a Dafny model

This project models the logic of `lute/settings/routes.py`, the settings page of Lute, a language-learning
application. Underneath the Flask glue it is a typed key-value settings store with staged writes and a
commit, and four things use that store:

- **Backup validation.** `UserSettingsForm.validate_backup_dir` runs a fixed chain of checks on the
  backup directory: required, then absolute, then exists, then is a directory. It skips all of them only
  when `backup_enabled` is exactly `False`. The `backup_count` field must be present and at least 1.
- **`edit_settings`.** On a valid submission it writes every form field except `csrf_token`/`submit`
  under its own id, then commits once. Otherwise it loads every field back from the store and coerces
  boolean fields with `int(data or 0)`.
- **`test_parse` and `set_key_value`.** `test_parse` writes a tentative `mecab_path`, runs a test parse,
  and always writes the old value back without committing. `set_key_value` writes one key and writes the
  old value back if the write raises. It commits in both cases.
- **`set_parser`.** It switches the tagger of the process-wide Japanese parser in place. It builds the
  parser lazily if the registry entry is `None`.

Modules, one per file:

- `Python` (`python.dfy`): the Python runtime behaviour the routes depend on. Values are `None`, `bool`,
  `int` and `str`. It models truthiness, `a or b`, `str.strip()`, `int(...)` and `str(n)`, and the
  `"Type: text"` rendering of a caught exception.
- `UserSettings` (`store.dfy`): the class `Store`. Its `staged` map is the session and its `committed`
  map is the database. `Get`, `Set`, `TrySet` and `Commit` are `get_value`, `set_value` and
  `db.session.commit()`. A ghost counter records how many commits were issued.
- `BackupValidation` (`backup_validation.dfy`): the two field validators, as pure functions.
- `SettingsForm` (`settings_form.dfy`): form fields are objects with a mutable `data`. The form's schema
  is the list of fields declared in `UserSettingsForm`. Apply and load are loops that are proved against
  the specification functions `WriteFields` and `LoadAll`. The module also contains the `edit_settings`
  route.
- `SettingRoutes` (`setting_routes.dfy`): `test_parse` and `set_key_value`.
- `ParserRegistry` (`parser_registry.dfy`): the classes `Parser` and `Registry`, `get_parser`'s lazy
  construction, and `set_parser`.

Foreign calls become parameters:

- The outcome of a `set_value` that may raise is a `WriteAttempt`.
- The test parse is a function from the tentative `mecab_path` value to either a token list or an
  exception.
- Building a parser inside `get_parser` is a `BuildAttempt`.
- `os.path.abspath`, `exists` and `isdir` are uninterpreted functions in a `FileSystem` value.

The model follows the code in five places where its behaviour is easy to misread:

- `set_parser` compares the request with the stored `unidic_types` setting, not with the parser's current
  tagger, and it never writes that setting. Switching to "writing" and then back to "spoken" before the
  form is saved therefore leaves the parser on "writing". `ParserRegistry.SwitchBackWithoutSaving`
  proves this.
- Backup validation runs for every `backup_enabled` value except `False`, including `None`. It does not
  run only when the flag is true.
- `set_key_value` commits after a failed write too, not only after a successful one.
- `int()` skips less whitespace than `str.strip()`. It does not skip the ASCII separators U+001C..U+001F,
  so `int("\x1c5")` raises even though `"\x1c5".strip()` is `"5"`.
- On a failed submission, `edit_settings` does not keep the submitted data. It loads every field back from
  the store.

## Model

| member | source | states |
|---|---|---|
| `Python.IntOrZero` | lute/settings/routes.py:111-113 | `int(data or 0)`: a falsy value gives 0, `True`/`False` give 1/0, an int gives itself, and a string `int()` parses gives its number. It raises exactly for a non-empty string that `int()` cannot parse, and the exception is then that string's `ValueError` |
| `Python.ToInt` | lute/settings/routes.py:113 | `int(v)`: a bool gives 1/0, an int gives itself, a parseable string gives its number, an unparseable one raises `ValueError` with its text, and `None` raises `TypeError` |
| `Python.ParseInt` | lute/settings/routes.py:38 | `int(s)` on a string, also behind wtforms' `IntegerField`: a result needs a literal that is not blank once `int()`'s whitespace is skipped, and a negative result needs a literal that starts with `-` |
| `Python.ParseIntOfDigits` | lute/settings/routes.py:38 | a plain non-empty run of decimal digits parses to the number it denotes |
| `Python.UnitSeparatorNotSkipped` | lute/settings/routes.py:38 | `int()` skips only ASCII space, `\t\n\v\f\r` and non-ASCII whitespace: `"\x1c5"` strips to `"5"` under `str.strip()` but does not parse |
| `Python.Show` | lute/settings/routes.py:38 | `str(n)`: non-empty, starting with `-` exactly for a negative `n`, and all digits after the first character |
| `Python.ParseShowRoundTrip` | lute/settings/routes.py:38-40 | `int(str(n)) == n` for every integer the model's unbounded `int()`/`str()` handle (Python limits both to 4300 digits; see "Left out"): the `int()` model used by the integer field and the boolean coercion reads back every decimal rendering |
| `Python.StripEmptyIffBlank` | lute/settings/routes.py:69 | `s.strip() == ""` holds exactly when every character of `s` is Python whitespace |
| `Python.Describe` | lute/settings/routes.py:141 | the failure message is the exception's class name, then `": "`, then its text |
| `BackupValidation.ValidateBackupDir` | lute/settings/routes.py:64-79 | no error when the flag is exactly `False`. Otherwise no error exactly when all four checks hold. Any error is that of the first failing check (required, absolute, exists, directory), with every earlier check holding, and it carries the suggested absolute path or the offending value |
| `BackupValidation.BlankDirRejectedUnlessFalse` | lute/settings/routes.py:66-70 | a `None`, empty or whitespace-only directory is accepted when the flag is `False`, and rejected with "Backup directory required" for every other flag value, `None` included |
| `BackupValidation.MessageIdentifiesError` | lute/settings/routes.py:70-79 | the four `ValidationError` texts name their error: two errors with the same text are the same check failing on the same value |
| `BackupValidation.RelativeDirSuggestsAbsolute` | lute/settings/routes.py:72-75 | with validation active, a non-blank path that differs from its `abspath` is rejected as not absolute, whether or not it exists, and the message suggests the absolute path |
| `BackupValidation.ValidateBackupCount` | lute/settings/routes.py:38-40 | accepted exactly when the submitted text parses to an integer of at least 1. "Required" is reported exactly when the input is missing or empty |
| `BackupValidation.PositiveCountAccepted` | lute/settings/routes.py:38-40 | every count of at least 1, written in decimal, passes and becomes the field's data |
| `BackupValidation.ExistingAbsoluteDirAccepted` | lute/settings/routes.py:64-79 | backups enabled with an existing absolute directory and a count of at least 1 pass both validators |
| `UserSettings.Store.Get` | lute/settings/routes.py:110 | `get_value(key)` (also at :128, :152 and :166) reads the session: the staged value, or `None` for a key that was never set |
| `UserSettings.Store.Set` | lute/settings/routes.py:144 | a `set_value` that returns (also the apply loop's at :101 and the restoring one at :158): the key now holds the value, every other key is unchanged, and nothing is committed |
| `UserSettings.AfterAttempt` | lute/settings/routes.py:154 | a write that returns stores the value under its key. Whatever a write attempt does, every other key reads as before |
| `UserSettings.Store.TrySet` | lute/settings/routes.py:154 | `set_value` with an outcome: the new session state is the attempt's effect, the raised exception is returned, and nothing is committed |
| `UserSettings.Store.Commit` | lute/settings/routes.py:160 | the durable state becomes the session state, and the commit count grows by exactly one |
| `SettingsForm.ApplyForm` | lute/settings/routes.py:97-102 | the session becomes `WriteFields` of the old session over the fields in order, then exactly one commit makes it durable |
| `SettingsForm.WriteFieldsStores` | lute/settings/routes.py:99-101 | with distinct ids, every field other than `csrf_token`/`submit` is stored under its own id with its own data |
| `SettingsForm.WriteFieldsKeepsOthers` | lute/settings/routes.py:99-101 | a key that is not a written field's id (or is `csrf_token`/`submit`) keeps its presence and value |
| `SettingsForm.LoadEntry` | lute/settings/routes.py:108-113 | a non-boolean field takes the stored value (`csrf_token` keeps its data). A boolean field whose stored value is falsy loads as 0, `True`/`False` loads as 1/0, an int loads as itself, a string `int()` parses loads as its number, and any other non-empty string raises its `ValueError` |
| `SettingsForm.BooleanTextLoadsAsNumber` | lute/settings/routes.py:111-113 | a boolean setting stored as the text of a number (`"0"`, `"1"`) loads as that number, so a stored `"0"` renders unchecked |
| `SettingsForm.LoadAllOkIff` | lute/settings/routes.py:107-113 | the load succeeds exactly when every field loads on its own |
| `SettingsForm.LoadAllValues` | lute/settings/routes.py:107-113 | when the load succeeds, each field gets what loading it alone gives |
| `SettingsForm.LoadAllFirstError` | lute/settings/routes.py:108-113 | once a prefix of the fields fails to load, the whole load fails with that first exception |
| `SettingsForm.LoadField` | lute/settings/routes.py:109-113 | one iteration of the load loop leaves the field with `LoadEntry` of its stored value, or returns the exception `int()` raised |
| `SettingsForm.LoadForm` | lute/settings/routes.py:107-113 | after the loop every field holds its `LoadAll` value, or the first failing field's exception is returned. The store is not written |
| `SettingsForm.ApplyThenLoad` | lute/settings/routes.py:97-113 | loading right after applying gives back each written field's own data, and a boolean written as `True`/`False` comes back as 1/0 |
| `SettingsForm.CanonicalBooleansLoad` | lute/settings/routes.py:111-113 | when no boolean key holds a string, the load never raises |
| `SettingsForm.EditSettings` | lute/settings/routes.py:85-115 | a submission that passes validation writes every field and commits once, and the fields are not touched. In every other case the store is unchanged, no commit is issued, and the fields are loaded, or the `int()` failure is reported |
| `SettingRoutes.WithoutMarkers` | lute/settings/routes.py:137 | a token is kept exactly when it occurs in the input and is not "¶" |
| `SettingRoutes.WithoutMarkersConcat` | lute/settings/routes.py:137 | filtering a concatenation filters each part and keeps them in order |
| `SettingRoutes.WithoutMarkersSingle` | lute/settings/routes.py:137 | a single token is dropped exactly when it is "¶"; with the concatenation lemma this fixes the filtered list, order included |
| `SettingRoutes.JoinConcat` | lute/settings/routes.py:138 | `', '.join` of a concatenation of non-empty lists is the two joins with one `", "` between, so the message lists the tokens in order |
| `SettingRoutes.WithoutMarkersCounts` | lute/settings/routes.py:137 | filtering removes every "¶" and keeps every other token exactly as often as it occurs. The length drops by the number of markers |
| `SettingRoutes.TestParseReply` | lute/settings/routes.py:127-146 | success exactly when the tentative write and the probe both succeed, and the message then lists the probe's tokens without "¶". Otherwise the message is `"Type: text"` of the write's or the probe's exception |
| `SettingRoutes.TestParse` | lute/settings/routes.py:118-146 | whatever the write and the probe do, every key (`mecab_path` included) reads afterwards as it did before. No commit is issued, and the reply is `TestParseReply` |
| `SettingRoutes.SetKeyValue` | lute/settings/routes.py:149-161 | a successful write leaves `key` holding the string value and replies "OK". A raising write leaves `key` reading its old value and replies with `"Type: text"`. Other keys are unchanged, and exactly one commit follows in both cases |
| `ParserRegistry.Parser.SwitchTagger` | lute/settings/routes.py:170 | the same instance now uses the requested tagger, and exactly one switch is recorded |
| `ParserRegistry.Registry.GetParser` | lute/settings/routes.py:168-169 | an existing entry is kept unchanged. A `None` entry gets a freshly built parser, or stays unchanged when the build raises |
| `ParserRegistry.SetParser` | lute/settings/routes.py:164-171 | the store is never written and any result is the requested type. A request equal to the stored `unidic_types` changes nothing. Otherwise a missing key raises KeyError, and an existing instance is switched exactly once. A `None` entry is first filled with a fresh instance, which is then switched once, or the build error is returned with the registry unchanged |
| `ParserRegistry.SwitchBackWithoutSaving` | lute/settings/routes.py:166-170 | with "spoken" stored, switching to "writing" and back to "spoken" leaves the parser on "writing" while the stored setting stays "spoken" |

## Left out

- Flask routing, `request.args`, `render_template`, `flash`, `redirect`, `jsonify` and CSRF handling are
  framework I/O. Replies are the datatypes `Reply` and `Response`.
- The docker read-only styling of `backup_dir` only affects presentation.
- `os.path.abspath`, `os.path.exists` and `os.path.isdir` depend on the filesystem and the working
  directory. They are left uninterpreted.
- `JapaneseParser`, MeCab and `get_parsed_tokens` are an external tokenizer. The test parse is a
  function of the tentative `mecab_path` that gives either tokens or an exception.
- `lute.parse.registry` and `mecab_parser` are not part of this model. `get_parser` is modelled only by
  its effect on the registry entry, and `switch_tagger` only by setting the instance's tagger. A raising
  `switch_tagger` is not modelled.
- The SQLAlchemy session and `UserSetting` persistence are modelled only as a staged map and a committed
  map. `UserSetting.get_value` on an unknown key is modelled as returning `None`.
- `list_themes` and the contents of the select choices are external data.
- Thread safety of the parser singleton is not modelled. Nothing in the code enforces it, and the model
  is sequential.
- `SettingsForm.EditSettings`: validation is modelled only by the backup-directory and backup-count
  validators. The select fields' choice checks and the CSRF check are left out, because their data is
  external. The model also assumes that the directory field's data is a `str` or `None`, as a
  `StringField` guarantees. It also assumes that the bound fields are distinct objects with distinct ids,
  as wtforms guarantees for the attributes of one form class.
- `SettingsForm.ApplyForm`: every `set_value` in the apply loop is assumed to return. A raise there would
  escape the route as a server error before the commit.
- `SettingRoutes.TestParse`: the restoring `set_value` in `finally` is assumed to return. Only the
  tentative write and the probe may raise.
- `SettingRoutes.SetKeyValue`: the restoring `set_value` in the `except` branch is assumed to return.
- `Python.IntOrZero`: `int()` on a string accepts ASCII digits only. Python also accepts other Unicode
  decimal digits. The `ValueError` text quotes the string with plain single quotes instead of Python's
  `repr`. The model's `int()` has no digit limit. Python 3.11 and later, and the 3.8.14, 3.9.14 and
  3.10.7 security releases, raise `ValueError` for a literal of more than 4300 digits.
- `Python.ParseShowRoundTrip`: the model's `str()` has no digit limit either. In those Python versions
  `str(n)` raises for an `n` of more than 4300 digits, so there the round trip holds only up to that size.
- `BackupValidation.ValidateBackupCount`: wtforms' own "Not a valid integer value" processing error is
  not reported. A non-integer input shows up only as failing `NumberRange`.
