/**
 * The untyped values that flow between the capture dialogs, the block store and
 * the renderer. In the application a block's `data` is a plain JavaScript object;
 * here it is a map from field names to values, a missing key standing for
 * `undefined`. Also: JavaScript truthiness, the `||` operator, the text a template
 * literal produces for a value, and `String.prototype.trim`.
 */
module Payload {

  /** An opaque reference to a chosen file: only its name and MIME type are read. */
  datatype FileRef = FileRef(name: string, mime: string)

  datatype Value =
    | Str(s: string)
    | Int(n: int)
    | File(file: FileRef)
    | Null

  /** The value read from an object field: `None` is `undefined`. */
  type Field = Option<Value>

  datatype Option<T> = None | Some(value: T)

  /** A block's `data` object. */
  type Data = map<string, Value>

  function Get(d: Data, key: string): (r: Field)
    ensures r.Some? <==> key in d
    ensures r.Some? ==> r.value == d[key]
  {
    if key in d then Some(d[key]) else None
  }

  /** JavaScript truthiness: `undefined`, `null`, `""` and `0` are falsy. */
  predicate Truthy(f: Field) {
    match f
    case None => false
    case Some(Null) => false
    case Some(Str(s)) => s != ""
    case Some(Int(n)) => n != 0
    case Some(File(_)) => true
  }

  /** `a || b`: the left operand when it is truthy, otherwise the right one, whatever it is. */
  function Or(a: Field, b: Field): (r: Field)
    ensures Truthy(a) ==> r == a
    ensures !Truthy(a) ==> r == b
    ensures Truthy(r) <==> Truthy(a) || Truthy(b)
  {
    if Truthy(a) then a else b
  }

  /** The string `s || fallback` yields for a string-valued form field. */
  function OrElse(s: string, fallback: string): (r: string)
    ensures s != "" ==> r == s
    ensures s == "" ==> r == fallback
    ensures r != "" <==> s != "" || fallback != ""
  {
    if s != "" then s else fallback
  }

  // ---------------------------------------------------------------------------
  // Decimal text of an integer, as template literals and JSX print numbers.

  function DigitChar(d: nat): (c: char)
    requires d < 10
    ensures '0' <= c <= '9' && c as int - '0' as int == d
  {
    "0123456789"[d]
  }

  function DigitValue(c: char): (d: nat)
    requires '0' <= c <= '9'
    ensures d < 10 && DigitChar(d) == c
  {
    (c as int - '0' as int) as nat
  }

  predicate IsDigit(c: char) {
    '0' <= c <= '9'
  }

  predicate AllDigits(s: string) {
    forall i :: 0 <= i < |s| ==> IsDigit(s[i])
  }

  /** Decimal text without leading zeros: "0" for zero, and otherwise a first
      digit that is not '0'. */
  function NatToString(n: nat): (r: string)
    ensures r != [] && AllDigits(r)
    ensures n == 0 ==> r == "0"
    ensures n > 0 ==> r[0] != '0'
    decreases n
  {
    if n < 10 then [DigitChar(n)] else NatToString(n / 10) + [DigitChar(n % 10)]
  }

  /** Reads a run of decimal digits back as a number (the inverse of NatToString). */
  function ParseNat(s: string): (n: nat)
    requires AllDigits(s)
  {
    if s == [] then 0 else 10 * ParseNat(s[..|s| - 1]) + DigitValue(s[|s| - 1])
  }

  lemma {:induction false} ParseNatToString(n: nat)
    ensures ParseNat(NatToString(n)) == n
    decreases n
  {
    var r := NatToString(n);
    if n < 10 {
      assert r[..|r| - 1] == [];
    } else {
      ParseNatToString(n / 10);
      assert r[..|r| - 1] == NatToString(n / 10);
    }
  }

  function IntToString(n: int): (r: string)
    ensures r != []
    ensures n >= 0 <==> r[0] != '-'
  {
    if n >= 0 then NatToString(n) else "-" + NatToString(-n)
  }

  /** The text `${v}` produces inside a template literal. */
  function ToText(f: Field): (r: string)
    ensures f.None? ==> r == "undefined"
    ensures f == Some(Null) ==> r == "null"
    ensures f.Some? && f.value.Str? ==> r == f.value.s
    ensures f.Some? && f.value.File? ==> r == "[object File]"
    ensures f.Some? && f.value.Int? ==> r != [] && (f.value.n >= 0 <==> r[0] != '-')
    ensures f.Some? && f.value.Int? && f.value.n >= 0 ==>
      AllDigits(r) && (|r| == 1 || r[0] != '0')
    ensures f.Some? && f.value.Int? && f.value.n < 0 ==>
      |r| >= 2 && AllDigits(r[1..]) && r[1] != '0'
  {
    match f
    case None => "undefined"
    case Some(Null) => "null"
    case Some(Str(s)) => s
    case Some(Int(n)) => IntToString(n)
    case Some(File(_)) => "[object File]"
  }

  /** A number prints as its decimal text, with a minus sign when negative: the
      digits read back as the number's magnitude. */
  lemma ToTextNumber(n: int)
    ensures var r := ToText(Some(Int(n)));
      if n >= 0 then AllDigits(r) && ParseNat(r) == n && (|r| == 1 || r[0] != '0')
      else r[0] == '-' && AllDigits(r[1..]) && ParseNat(r[1..]) == -n && r[1] != '0'
  {
    if n >= 0 {
      ParseNatToString(n);
    } else {
      ParseNatToString(-n);
      assert ToText(Some(Int(n)))[1..] == NatToString(-n);
    }
  }

  // ---------------------------------------------------------------------------
  // String.prototype.trim: removes ECMAScript WhiteSpace and LineTerminator code
  // points from both ends.

  predicate IsLineTerminator(c: char) {
    c == '\n' || c == '\r' || c == '\U{2028}' || c == '\U{2029}'
  }

  predicate IsSpace(c: char) {
    || IsLineTerminator(c)
    || c == '\t' || c == '\U{000B}' || c == '\U{000C}' || c == ' '
    || c == '\U{00A0}' || c == '\U{FEFF}' || c == '\U{1680}'
    || ('\U{2000}' <= c <= '\U{200A}')
    || c == '\U{202F}' || c == '\U{205F}' || c == '\U{3000}'
  }

  predicate Blank(s: string) {
    forall i :: 0 <= i < |s| ==> IsSpace(s[i])
  }

  function TrimStart(s: string): (r: string)
    ensures |r| <= |s| && r == s[|s| - |r|..]
    ensures r != [] ==> !IsSpace(r[0])
    ensures Blank(s[..|s| - |r|])
  {
    if s != [] && IsSpace(s[0]) then
      var r := TrimStart(s[1..]);
      assert s[1..][..|s[1..]| - |r|] == s[1..|s| - |r|];
      BlankCons(s[0], s[1..|s| - |r|]);
      assert s[..|s| - |r|] == [s[0]] + s[1..|s| - |r|];
      r
    else s
  }

  function TrimEnd(s: string): (r: string)
    ensures |r| <= |s| && r == s[..|r|]
    ensures r != [] ==> !IsSpace(r[|r| - 1])
    ensures Blank(s[|r|..])
  {
    if s != [] && IsSpace(s[|s| - 1]) then
      var r := TrimEnd(s[..|s| - 1]);
      assert s[..|s| - 1][|r|..] == s[|r|..|s| - 1];
      BlankSnoc(s[|r|..|s| - 1], s[|s| - 1]);
      assert s[|r|..] == s[|r|..|s| - 1] + [s[|s| - 1]];
      r
    else s
  }

  lemma BlankCons(c: char, t: string)
    requires IsSpace(c) && Blank(t)
    ensures Blank([c] + t)
  {
  }

  lemma BlankSnoc(t: string, c: char)
    requires Blank(t) && IsSpace(c)
    ensures Blank(t + [c])
  {
  }

  function Trim(s: string): (r: string) {
    TrimEnd(TrimStart(s))
  }

  /** `s.trim()` is falsy exactly when every character of `s` is white space. */
  lemma TrimEmptyIffBlank(s: string)
    ensures Trim(s) == "" <==> Blank(s)
  {
    var t := TrimStart(s);
    if Trim(s) == "" {
      assert Blank(t[0..]);
      assert s == s[..|s| - |t|] + t;
    } else {
      var r := Trim(s);
      assert !IsSpace(r[0]);
      assert t[0] == r[0];
      assert s[|s| - |t|] == t[0];
    }
  }
}
