/** The slice of Python's runtime the settings routes rely on: dynamically
    typed setting values, truthiness, `x or y`, `int(...)`, `str.strip()`,
    and the "Type: text" rendering of a caught exception. */
module Python {

  datatype Option<T> = None | Some(value: T)

  /** A raised exception: its class name (`type(e).__name__`) and `str(e)`. */
  datatype Exception = Exception(kind: string, text: string)

  datatype Result<T> = Ok(value: T) | Err(error: Exception)

  /** `f"{type(e).__name__}: { str(e) }"`, the message both routes report. */
  function Describe(e: Exception): (m: string)
    ensures |m| == |e.kind| + 2 + |e.text|
    ensures m[..|e.kind|] == e.kind
    ensures m[|e.kind|..|e.kind| + 2] == ": "
    ensures m[|e.kind| + 2..] == e.text
  {
    e.kind + ": " + e.text
  }

  /** A setting or form-field value: Python's None, bool, int or str. */
  datatype Value = NoneValue | Bool(b: bool) | Int(i: int) | Str(s: string)

  /** Python truthiness of a value. */
  predicate Truthy(v: Value)
  {
    match v
    case NoneValue => false
    case Bool(b) => b
    case Int(i) => i != 0
    case Str(s) => s != ""
  }

  /** Python's `a or b`: `a` when it is truthy, else `b`. */
  function Or(a: Value, b: Value): (r: Value)
    ensures Truthy(a) ==> r == a
    ensures !Truthy(a) ==> r == b
  {
    if Truthy(a) then a else b
  }

  // ---------------------------------------------------------------------
  // str.strip()

  /** Characters for which Python's `str.isspace()` holds. */
  predicate IsSpace(c: char)
  {
    var n := c as int;
    (9 <= n <= 13) || (28 <= n <= 32) || n == 0x85 || n == 0xA0 || n == 0x1680 ||
    (0x2000 <= n <= 0x200A) || n == 0x2028 || n == 0x2029 || n == 0x202F ||
    n == 0x205F || n == 0x3000
  }

  /** The whitespace `int()` skips around a literal: ASCII space, `\t`, `\n`,
      `\v`, `\f` and `\r`, and any non-ASCII character `str.isspace()`
      accepts. The ASCII separators U+001C..U+001F are not skipped. */
  predicate IsIntSpace(c: char)
  {
    var n := c as int;
    (9 <= n <= 13) || n == 32 || (n >= 128 && IsSpace(c))
  }

  /** The two whitespace classes: `str.isspace()`, used by `str.strip()`,
      and the narrower one `int()` skips. */
  datatype Whitespace = StrSpace | IntSpace

  predicate InClass(w: Whitespace, c: char)
  {
    if w == StrSpace then IsSpace(c) else IsIntSpace(c)
  }

  /** `s` without its leading whitespace of class `w`. */
  function TrimLeft(s: string, w: Whitespace): (r: string)
    ensures |r| <= |s| && r == s[|s| - |r|..]
    ensures r == [] || !InClass(w, r[0])
    ensures forall i :: 0 <= i < |s| - |r| ==> InClass(w, s[i])
  {
    if |s| > 0 && InClass(w, s[0]) then TrimLeft(s[1..], w) else s
  }

  /** `s` without its trailing whitespace of class `w`. */
  function TrimRight(s: string, w: Whitespace): (r: string)
    ensures |r| <= |s| && r == s[..|r|]
    ensures r == [] || !InClass(w, r[|r| - 1])
    ensures forall i :: |r| <= i < |s| ==> InClass(w, s[i])
  {
    if |s| > 0 && InClass(w, s[|s| - 1]) then TrimRight(s[..|s| - 1], w) else s
  }

  /** Python's `s.strip()`: leading and trailing whitespace removed. */
  function Strip(s: string): string
  {
    TrimRight(TrimLeft(s, StrSpace), StrSpace)
  }

  /** The text `int()` parses once the whitespace it skips is removed. */
  function IntStrip(s: string): string
  {
    TrimRight(TrimLeft(s, IntSpace), IntSpace)
  }

  /** `s.strip() == ""` holds exactly when every character of `s` is whitespace. */
  lemma StripEmptyIffBlank(s: string)
    ensures Strip(s) == "" <==> forall i :: 0 <= i < |s| ==> IsSpace(s[i])
  {
    var l := TrimLeft(s, StrSpace);
    if Strip(s) == "" {
      assert l == [];
    } else {
      var r := Strip(s);
      assert !IsSpace(r[0]);
      assert r[0] == l[0] == s[|s| - |l|];
    }
  }

  // ---------------------------------------------------------------------
  // int(str)

  predicate IsDigit(c: char) { '0' as int <= c as int <= '9' as int }

  /** The body of a base-10 literal as `int()` accepts it: digits, with single
      underscores allowed only between two digits. */
  predicate DigitGroups(b: string)
  {
    |b| > 0 && forall i :: 0 <= i < |b| ==> GroupChar(b, i)
  }

  /** Position `i` of `b` holds a digit, or an underscore between two digits. */
  predicate GroupChar(b: string, i: nat)
    requires i < |b|
  {
    IsDigit(b[i]) || (b[i] == '_' && 0 < i < |b| - 1 && IsDigit(b[i - 1]) && IsDigit(b[i + 1]))
  }

  function WithoutUnderscores(b: string): (r: string)
    ensures forall c :: c in r <==> c in b && c != '_'
  {
    if b == [] then []
    else if b[0] == '_' then WithoutUnderscores(b[1..])
    else [b[0]] + WithoutUnderscores(b[1..])
  }

  /** The number a string of decimal digits denotes (most significant first). */
  function DigitsValue(ds: string): (n: nat)
    requires forall c :: c in ds ==> IsDigit(c)
  {
    if ds == [] then 0
    else
      var last := ds[|ds| - 1];
      assert last in ds && IsDigit(last);
      DigitsValue(ds[..|ds| - 1]) * 10 + (last as int - '0' as int)
  }

  lemma DigitGroupsAreDigits(b: string)
    requires DigitGroups(b)
    ensures forall c :: c in WithoutUnderscores(b) ==> IsDigit(c)
  {
    forall c | c in WithoutUnderscores(b) ensures IsDigit(c) {
      assert c in b && c != '_';
      var i :| 0 <= i < |b| && b[i] == c;
      assert GroupChar(b, i);
    }
  }

  /** Python's `int(s)` for a `str` argument, base 10: `None` where Python raises
      `ValueError`. */
  function ParseInt(s: string): (r: Option<int>)
    ensures r.Some? ==> IntStrip(s) != ""
    ensures r.Some? && r.value < 0 ==> IntStrip(s)[0] == '-'
  {
    var t := IntStrip(s);
    if t == "" then None
    else
      var negative := t[0] == '-';
      var body := if t[0] == '-' || t[0] == '+' then t[1..] else t;
      if !DigitGroups(body) then None
      else
        DigitGroupsAreDigits(body);
        var n: int := DigitsValue(WithoutUnderscores(body));
        Some(if negative then -n else n)
  }

  /** `str(n)` for a natural number. */
  function ShowNat(n: nat): (s: string)
    ensures |s| > 0 && forall c :: c in s ==> IsDigit(c)
  {
    var d := [('0' as int + n % 10) as char];
    if n < 10 then d else ShowNat(n / 10) + d
  }

  /** `str(n)`: decimal, with a leading '-' when negative. */
  function Show(n: int): (s: string)
    ensures |s| > 0 && (s[0] == '-' <==> n < 0)
    ensures n >= 0 ==> IsDigit(s[0])
    ensures forall i :: 0 < i < |s| ==> IsDigit(s[i])
  {
    var digits := ShowNat(if n < 0 then -n else n);
    assert digits[0] in digits;
    if n < 0 then
      var s := "-" + digits;
      assert forall i :: 0 < i < |s| ==> s[i] == digits[i - 1] && s[i] in digits;
      s
    else
      assert forall i :: 0 < i < |digits| ==> digits[i] in digits;
      digits
  }

  lemma {:induction false} DigitsValueShowNat(n: nat)
    ensures DigitsValue(ShowNat(n)) == n
  {
    var s := ShowNat(n);
    if n >= 10 {
      DigitsValueShowNat(n / 10);
      assert s[..|s| - 1] == ShowNat(n / 10);
    }
  }

  lemma {:induction false} WithoutUnderscoresOfDigits(ds: string)
    requires forall c :: c in ds ==> IsDigit(c)
    ensures WithoutUnderscores(ds) == ds
  {
    if ds != [] {
      assert ds[0] in ds;
      WithoutUnderscoresOfDigits(ds[1..]);
    }
  }

  lemma StripShow(n: int)
    ensures IntStrip(Show(n)) == Show(n)
  {
    var s := Show(n);
    assert s[0] == '-' || IsDigit(s[0]);
    assert IsDigit(s[|s| - 1]) || |s| == 1;
    assert !InClass(IntSpace, s[0]) && !InClass(IntSpace, s[|s| - 1]);
    assert TrimLeft(s, IntSpace) == s;
  }

  /** A plain run of decimal digits parses to the number it denotes. */
  lemma ParseIntOfDigits(ds: string)
    requires |ds| > 0 && forall c :: c in ds ==> IsDigit(c)
    ensures ParseInt(ds) == Some(DigitsValue(ds))
  {
    assert ds[0] in ds && ds[|ds| - 1] in ds;
    assert !InClass(IntSpace, ds[0]) && !InClass(IntSpace, ds[|ds| - 1]);
    assert TrimLeft(ds, IntSpace) == ds;
    DigitsAreGroups(ds);
  }

  /** `str.strip()` removes the separator U+001C. */
  lemma StripRemovesUnitSeparator()
    ensures Strip("\U{1C}5") == "5"
  {
    var s := "\U{1C}5";
    assert InClass(StrSpace, s[0]) && !InClass(StrSpace, s[1]);
    assert TrimLeft(s[1..], StrSpace) == "5";
  }

  /** `int()` does not skip the separator U+001C. */
  lemma IntStripKeepsUnitSeparator()
    ensures IntStrip("\U{1C}5") == "\U{1C}5"
  {
    var s := "\U{1C}5";
    assert !InClass(IntSpace, s[0]) && !InClass(IntSpace, s[1]);
    assert TrimLeft(s, IntSpace) == s;
  }

  /** `int()` skips ASCII whitespace but not the separator U+001C, which
      `str.strip()` does remove: `int("\x1c5")` raises. */
  lemma UnitSeparatorNotSkipped()
    ensures Strip("\U{1C}5") == "5"
    ensures ParseInt("\U{1C}5") == None
  {
    var s := "\U{1C}5";
    StripRemovesUnitSeparator();
    IntStripKeepsUnitSeparator();
    assert s[0] != '-' && s[0] != '+';
    assert !GroupChar(s, 0);
  }

  /** A non-empty run of digits is a literal body `int()` accepts, and it has
      no underscores to drop. */
  lemma DigitsAreGroups(digits: string)
    requires |digits| > 0 && forall c :: c in digits ==> IsDigit(c)
    ensures DigitGroups(digits) && WithoutUnderscores(digits) == digits
  {
    forall i | 0 <= i < |digits| ensures GroupChar(digits, i) { assert digits[i] in digits; }
    WithoutUnderscoresOfDigits(digits);
  }

  /** `int(str(n)) == n`: the parser reads back what `str` writes. */
  lemma ParseShowRoundTrip(n: int)
    ensures ParseInt(Show(n)) == Some(n)
  {
    if n >= 0 {
      assert forall c :: c in ShowNat(n) ==> IsDigit(c);
      ParseIntOfDigits(ShowNat(n));
      DigitsValueShowNat(n);
    } else {
      var s := Show(n);
      var digits := ShowNat(-n);
      StripShow(n);
      assert s[0] == '-' && s[1..] == digits;
      DigitsAreGroups(digits);
      DigitsValueShowNat(-n);
    }
  }

  // ---------------------------------------------------------------------
  // int(x) and the form's `int(field.data or 0)`

  /** What `int(None)` raises. */
  const NoneTypeError := Exception("TypeError",
    "int() argument must be a string, a bytes-like object or a real number, not 'NoneType'")

  /** What `int(s)` raises for a string it cannot parse. */
  function InvalidLiteral(s: string): (e: Exception)
    ensures e.kind == "ValueError"
  {
    Exception("ValueError", "invalid literal for int() with base 10: '" + s + "'")
  }

  /** Python's `int(v)` on a setting value. */
  function ToInt(v: Value): (r: Result<int>)
    ensures v.Bool? ==> r == Ok(if v.b then 1 else 0)
    ensures v.Int? ==> r == Ok(v.i)
    ensures v.Str? && ParseInt(v.s).Some? ==> r == Ok(ParseInt(v.s).value)
    ensures v.Str? && ParseInt(v.s).None? ==> r == Err(InvalidLiteral(v.s))
    ensures v.NoneValue? ==> r.Err? && r.error.kind == "TypeError"
  {
    match v
    case NoneValue => Err(NoneTypeError)
    case Bool(b) => Ok(if b then 1 else 0)
    case Int(i) => Ok(i)
    case Str(s) =>
      match ParseInt(s)
      case Some(n) => Ok(n)
      case None => Err(InvalidLiteral(s))
  }

  /** `int(data or 0)`, the form's coercion of a boolean field's stored value. */
  function IntOrZero(v: Value): (r: Result<int>)
    ensures !Truthy(v) ==> r == Ok(0)
    ensures v.Bool? ==> r == Ok(if v.b then 1 else 0)
    ensures v.Int? ==> r == Ok(v.i)
    ensures v.Str? && ParseInt(v.s).Some? ==> r == Ok(ParseInt(v.s).value)
    ensures r.Err? <==> v.Str? && v.s != "" && ParseInt(v.s).None?
    ensures r.Err? ==> v.Str? && r.error == InvalidLiteral(v.s) && r.error.kind == "ValueError"
  {
    ToInt(Or(v, Int(0)))
  }
}
