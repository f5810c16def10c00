/**
 * The code block's syntax highlighter: four global regular-expression
 * replacements applied one after the other, each wrapping every match in a
 * `<span class="...">` element. Each pass is modelled as a left-to-right scanner
 * that splits its input into plain characters and matched runs; the pass's
 * output is that split with every matched run wrapped. Later passes scan the
 * markup inserted by earlier ones like any other text.
 */
module Highlight {

  predicate IsLineTerminator(c: char) {
    c == '\n' || c == '\r' || c == '\U{2028}' || c == '\U{2029}'
  }

  predicate IsDigit(c: char) {
    '0' <= c <= '9'
  }

  /** The alternatives of the keyword pattern, in the order the pattern lists them. */
  const Keywords: seq<string> :=
    ["def", "class", "if", "else", "elif", "for", "while", "try", "except", "import", "from", "return", "print"]

  /** The four passes, in the order they are applied. */
  datatype Pass = KeywordPass | StringPass | CommentPass | DigitPass

  function ClassOf(p: Pass): string {
    match p
    case KeywordPass => "text-purple-300"
    case StringPass => "text-green-300"
    case CommentPass => "text-gray-400"
    case DigitPass => "text-yellow-300"
  }

  function OpenTag(cls: string): string {
    "<span class=\"" + cls + "\">"
  }

  const CloseTag: string := "</span>"

  /** The characters at which a scan for the end of a match stops. */
  datatype Stop = QuoteOrBreak | LineBreak | NonDigit

  predicate Stops(stop: Stop, c: char) {
    match stop
    case QuoteOrBreak => c == '"' || IsLineTerminator(c)
    case LineBreak => IsLineTerminator(c)
    case NonDigit => !IsDigit(c)
  }

  /** The first index at or after `from` whose character stops the scan, or |s|. */
  function FirstWhere(s: string, from: nat, stop: Stop): (r: nat)
    requires from <= |s|
    ensures from <= r <= |s|
    ensures from < |s| && !Stops(stop, s[from]) ==> from < r
    decreases |s| - from
  {
    if from == |s| || Stops(stop, s[from]) then from else FirstWhere(s, from + 1, stop)
  }

  /** FirstWhere stops at the first stopping character, and at the end of `s` only
      when there is none. */
  lemma {:induction false} FirstWhereSpec(s: string, from: nat, stop: Stop)
    requires from <= |s|
    ensures var r := FirstWhere(s, from, stop);
      && (r < |s| ==> Stops(stop, s[r]))
      && (forall k :: from <= k < r ==> !Stops(stop, s[k]))
    decreases |s| - from
  {
    if from < |s| && !Stops(stop, s[from]) {
      FirstWhereSpec(s, from + 1, stop);
    }
  }

  /** FirstWhere is determined by the first stopping character. */
  lemma {:induction false} FirstWhereAt(s: string, from: nat, stop: Stop, r: nat)
    requires from <= r <= |s|
    requires r < |s| ==> Stops(stop, s[r])
    requires forall k :: from <= k < r ==> !Stops(stop, s[k])
    ensures FirstWhere(s, from, stop) == r
    decreases r - from
  {
    if from < r {
      FirstWhereAt(s, from + 1, stop, r);
    }
  }

  /** The index of the first alternative of `ks` that is a prefix of `s`. */
  function FirstPrefix(ks: seq<string>, s: string): (r: Option<nat>)
    ensures r.Some? ==> r.value < |ks| && ks[r.value] <= s
  {
    if ks == [] then None
    else if ks[0] <= s then Some(0)
    else
      match FirstPrefix(ks[1..], s)
      case None => None
      case Some(i) => Some(i + 1)
  }

  /** FirstPrefix finds the first alternative that is a prefix, and finds nothing
      only when no alternative is one. */
  lemma {:induction false} FirstPrefixSpec(ks: seq<string>, s: string)
    ensures FirstPrefix(ks, s).Some? ==> forall j :: 0 <= j < FirstPrefix(ks, s).value ==> !(ks[j] <= s)
    ensures FirstPrefix(ks, s).None? <==> forall j :: 0 <= j < |ks| ==> !(ks[j] <= s)
  {
    if ks != [] && !(ks[0] <= s) {
      FirstPrefixSpec(ks[1..], s);
      forall j | 1 <= j < |ks| ensures ks[j] == ks[1..][j - 1] {}
    }
  }

  datatype Option<T> = None | Some(value: T)

  /** The keyword pattern at the start of `s`: the first alternative in list order
      that is a prefix, with no regard for word boundaries. */
  function KeywordMatch(s: string): (r: Option<nat>)
    ensures r.Some? ==> 0 < r.value <= |s|
  {
    match FirstPrefix(Keywords, s)
    case None => None
    case Some(i) => Some(|Keywords[i]|)
  }

  /** The keyword pass matches exactly when some keyword starts `s`, and then it
      takes the first keyword of the list that does. */
  lemma KeywordMatchSpec(s: string)
    ensures KeywordMatch(s).Some? ==>
      exists i :: 0 <= i < |Keywords| && s[..KeywordMatch(s).value] == Keywords[i] &&
        forall j :: 0 <= j < i ==> !(Keywords[j] <= s)
    ensures KeywordMatch(s).None? <==> forall j :: 0 <= j < |Keywords| ==> !(Keywords[j] <= s)
  {
    FirstPrefixSpec(Keywords, s);
    match FirstPrefix(Keywords, s)
    case None =>
    case Some(i) =>
      assert s[..KeywordMatch(s).value] == Keywords[i];
  }

  /** The string pattern at the start of `s`: the shortest "..." on one line. */
  function StringMatch(s: string): (r: Option<nat>)
    ensures r.Some? ==> 2 <= r.value <= |s|
  {
    if s == [] || s[0] != '"' then None
    else
      var j := FirstWhere(s, 1, QuoteOrBreak);
      if j < |s| && s[j] == '"' then Some(j + 1) else None
  }

  /** A string match runs from an opening quote to the next quote, with no quote and
      no line break between; when a line break comes first there is no match. */
  lemma StringMatchSpec(s: string)
    ensures s == [] || s[0] != '"' ==> StringMatch(s).None?
    ensures StringMatch(s).Some? ==> s[0] == '"' && s[StringMatch(s).value - 1] == '"'
    ensures StringMatch(s).Some? ==> forall k :: 0 < k < StringMatch(s).value - 1 ==>
      s[k] != '"' && !IsLineTerminator(s[k])
    ensures StringMatch(s).None? && s != [] && s[0] == '"' ==>
      forall k :: 0 < k < |s| && s[k] == '"' ==> exists m :: 0 < m < k && IsLineTerminator(s[m])
  {
    if s != [] && s[0] == '"' {
      var j := FirstWhere(s, 1, QuoteOrBreak);
      FirstWhereSpec(s, 1, QuoteOrBreak);
      if !(j < |s| && s[j] == '"') {
        forall k | 0 < k < |s| && s[k] == '"' ensures exists m :: 0 < m < k && IsLineTerminator(s[m]) {
          assert IsLineTerminator(s[j]);
        }
      }
    }
  }

  /** The comment pattern at the start of `s`: from # up to the end of the line. */
  function CommentMatch(s: string): (r: Option<nat>)
    ensures r.Some? ==> 0 < r.value <= |s|
  {
    if s == [] || s[0] != '#' then None
    else Some(FirstWhere(s, 0, LineBreak))
  }

  /** A comment match exactly when `s` starts with #, running to the first line
      break or to the end. */
  lemma CommentMatchSpec(s: string)
    ensures CommentMatch(s).Some? <==> s != [] && s[0] == '#'
    ensures CommentMatch(s).Some? ==> forall k :: 0 <= k < CommentMatch(s).value ==> !IsLineTerminator(s[k])
    ensures CommentMatch(s).Some? ==>
      CommentMatch(s).value == |s| || IsLineTerminator(s[CommentMatch(s).value])
  {
    if s != [] && s[0] == '#' {
      FirstWhereSpec(s, 0, LineBreak);
    }
  }

  /** The digit pattern at the start of `s`: a maximal run of digits. */
  function DigitMatch(s: string): (r: Option<nat>)
    ensures r.Some? ==> 0 < r.value <= |s|
  {
    if s == [] || !IsDigit(s[0]) then None
    else Some(FirstWhere(s, 0, NonDigit))
  }

  /** A digit match exactly when `s` starts with a digit, and it takes every digit
      up to the first non-digit. */
  lemma DigitMatchSpec(s: string)
    ensures DigitMatch(s).Some? <==> s != [] && IsDigit(s[0])
    ensures DigitMatch(s).Some? ==> forall k :: 0 <= k < DigitMatch(s).value ==> IsDigit(s[k])
    ensures DigitMatch(s).Some? ==> DigitMatch(s).value == |s| || !IsDigit(s[DigitMatch(s).value])
  {
    if s != [] && IsDigit(s[0]) {
      FirstWhereSpec(s, 0, NonDigit);
    }
  }

  /** The length of the match of pass `p` that starts at the beginning of `s`, if
      one does. */
  function MatchAt(p: Pass, s: string): (r: Option<nat>)
    ensures r.Some? ==> 0 < r.value <= |s|
  {
    match p
    case KeywordPass => KeywordMatch(s)
    case StringPass => StringMatch(s)
    case CommentPass => CommentMatch(s)
    case DigitPass => DigitMatch(s)
  }

  /** A pass splits its input into characters it copies and runs it wraps. */
  datatype Piece = Plain(c: char) | Wrapped(text: string)

  function Scan(p: Pass, s: string): (r: seq<Piece>)
    decreases |s|
  {
    if s == [] then []
    else
      match MatchAt(p, s)
      case Some(n) => [Wrapped(s[..n])] + Scan(p, s[n..])
      case None => [Plain(s[0])] + Scan(p, s[1..])
  }

  /** The text of the pieces with the wrappers taken off. */
  function Raw(ps: seq<Piece>): string {
    if ps == [] then []
    else
      match ps[0]
      case Plain(c) => [c] + Raw(ps[1..])
      case Wrapped(t) => t + Raw(ps[1..])
  }

  /** The text of the pieces with every matched run wrapped in a span of class `cls`. */
  function Markup(cls: string, ps: seq<Piece>): string {
    if ps == [] then []
    else
      match ps[0]
      case Plain(c) => [c] + Markup(cls, ps[1..])
      case Wrapped(t) => OpenTag(cls) + t + CloseTag + Markup(cls, ps[1..])
  }

  /** One `replace` call. */
  function Apply(p: Pass, s: string): string {
    Markup(ClassOf(p), Scan(p, s))
  }

  /** highlightCode: keywords, then strings, then comments, then digits. */
  function HighlightCode(code: string): string {
    Apply(DigitPass, Apply(CommentPass, Apply(StringPass, Apply(KeywordPass, code))))
  }

  // ---------------------------------------------------------------------------
  // Properties

  lemma {:induction false} RawAppend(a: seq<Piece>, b: seq<Piece>)
    ensures Raw(a + b) == Raw(a) + Raw(b)
  {
    if a != [] {
      assert (a + b)[0] == a[0];
      assert (a + b)[1..] == a[1..] + b;
      RawAppend(a[1..], b);
    } else {
      assert a + b == b;
    }
  }

  /** Taking the wrappers off a pass's output gives back that pass's input: a pass
      only inserts markup, it never drops, reorders or alters a character. */
  lemma {:induction false} ScanLossless(p: Pass, s: string)
    ensures Raw(Scan(p, s)) == s
    decreases |s|
  {
    if s != [] {
      var m := MatchAt(p, s);
      var n := if m.Some? then m.value else 1;
      var head := if m.Some? then Wrapped(s[..n]) else Plain(s[0]);
      assert Scan(p, s) == [head] + Scan(p, s[n..]);
      assert Raw([head]) == s[..n];
      ScanLossless(p, s[n..]);
      RawAppend([head], Scan(p, s[n..]));
      assert s[..n] + s[n..] == s;
    }
  }

  predicate NoMatchIn(p: Pass, s: string) {
    forall i :: 0 <= i < |s| ==> MatchAt(p, s[i..]).None?
  }

  function Plains(s: string): (r: seq<Piece>)
    ensures |r| == |s|
    ensures forall i :: 0 <= i < |s| ==> r[i] == Plain(s[i])
  {
    seq(|s|, i requires 0 <= i < |s| => Plain(s[i]))
  }

  /** Where a match starts at the head of `s`, the pass wraps it and goes on after it. */
  lemma ScanWrapsHead(p: Pass, s: string, n: nat)
    requires s != [] && MatchAt(p, s) == Some(n)
    ensures Scan(p, s) == [Wrapped(s[..n])] + Scan(p, s[n..])
  {
  }

  /** Where no match starts at the head of `s`, the pass copies one character. */
  lemma ScanCopiesHead(p: Pass, s: string)
    requires s != [] && MatchAt(p, s).None?
    ensures Scan(p, s) == [Plain(s[0])] + Scan(p, s[1..])
  {
  }

  /** No match of pass `p` starts at any of the first `n` positions of `s`. */
  predicate NoMatchBefore(p: Pass, s: string, n: nat)
    requires n <= |s|
    decreases n
  {
    n == 0 || (MatchAt(p, s).None? && NoMatchBefore(p, s[1..], n - 1))
  }

  /** NoMatchBefore holds exactly when no match starts at any of those positions. */
  lemma {:induction false} NoMatchBeforeAt(p: Pass, s: string, n: nat)
    requires n <= |s|
    ensures NoMatchBefore(p, s, n) <==> forall i :: 0 <= i < n ==> MatchAt(p, s[i..]).None?
    decreases n
  {
    if n > 0 {
      NoMatchBeforeAt(p, s[1..], n - 1);
      assert s[0..] == s;
      forall i | 1 <= i < n ensures s[1..][i - 1..] == s[i..] {}
    }
  }

  /** Where no match starts among the first `n` positions of `s`, the pass copies
      those `n` characters one by one and then continues after them. */
  lemma {:induction false} ScanPlainRun(p: Pass, s: string, n: nat)
    requires n <= |s| && NoMatchBefore(p, s, n)
    ensures Scan(p, s) == Plains(s[..n]) + Scan(p, s[n..])
    decreases n
  {
    if n > 0 {
      ScanCopiesHead(p, s);
      ScanPlainRun(p, s[1..], n - 1);
      PlainsCons(s[..n]);
      assert s[..n][1..] == s[1..][..n - 1];
      assert s[1..][n - 1..] == s[n..];
    } else {
      assert s[..0] == [] && s[0..] == s;
    }
  }

  /** Where no match starts in `a`, the pass copies `a` character by character and
      then continues on `b`. */
  lemma ScanPlainPrefix(p: Pass, a: string, b: string)
    requires forall i :: 0 <= i < |a| ==> MatchAt(p, (a + b)[i..]).None?
    ensures Scan(p, a + b) == Plains(a) + Scan(p, b)
  {
    var s := a + b;
    NoMatchBeforeAt(p, s, |a|);
    ScanPlainRun(p, s, |a|);
    assert s[..|a|] == a && s[|a|..] == b;
  }

  lemma PlainsCons(a: string)
    requires a != []
    ensures Plains(a) == [Plain(a[0])] + Plains(a[1..])
  {
  }

  lemma {:induction false} MarkupPlains(cls: string, s: string, rest: seq<Piece>)
    ensures Markup(cls, Plains(s) + rest) == s + Markup(cls, rest)
    decreases |s|
  {
    if s != [] {
      assert (Plains(s) + rest)[1..] == Plains(s[1..]) + rest;
      MarkupPlains(cls, s[1..], rest);
      assert [s[0]] + s[1..] == s;
    } else {
      assert Plains(s) + rest == rest;
    }
  }

  /** Text in which the pattern of a pass never matches comes out of that pass
      unchanged. */
  lemma ApplyNoMatch(p: Pass, s: string)
    requires NoMatchIn(p, s)
    ensures Apply(p, s) == s
  {
    assert s + [] == s;
    ScanPlainPrefix(p, s, []);
    MarkupPlains(ClassOf(p), s, []);
  }

  /** Code with no keyword anywhere (not even inside a word), no double quote, no
      `#` and no digit is shown exactly as written. */
  lemma PlainCodeUnchanged(code: string)
    requires forall i, j :: 0 <= i < |code| && 0 <= j < |Keywords| ==> !(Keywords[j] <= code[i..])
    requires forall i :: 0 <= i < |code| ==> code[i] != '"' && code[i] != '#' && !IsDigit(code[i])
    ensures HighlightCode(code) == code
  {
    forall p: Pass ensures NoMatchIn(p, code) {
      forall i | 0 <= i < |code| ensures MatchAt(p, code[i..]).None? {
        assert code[i..][0] == code[i];
      }
    }
    ApplyNoMatch(KeywordPass, code);
    ApplyNoMatch(StringPass, code);
    ApplyNoMatch(CommentPass, code);
    ApplyNoMatch(DigitPass, code);
  }

  /** A word is not a prefix of `s` when it differs from `s` at some position. */
  lemma Mismatch(w: string, s: string, i: nat)
    requires i < |w| && (i >= |s| || w[i] != s[i])
    ensures !(w <= s)
  {
  }

  /** At one position the first listed alternative wins: "elif" is matched whole
      (not as "if"), and "else" before "elif". */
  lemma KeywordOrderExample()
    ensures Scan(KeywordPass, "elif") == [Wrapped("elif")]
    ensures Scan(KeywordPass, "else") == [Wrapped("else")]
  {
    Mismatch(Keywords[0], "elif", 0);
    Mismatch(Keywords[1], "elif", 0);
    Mismatch(Keywords[2], "elif", 0);
    Mismatch(Keywords[3], "elif", 2);
    assert Keywords[4] == "elif";
    assert KeywordMatch("elif") == Some(4);
    ScanWrapsHead(KeywordPass, "elif", 4);
    assert "elif"[..4] == "elif" && "elif"[4..] == [];
    Mismatch(Keywords[0], "else", 0);
    Mismatch(Keywords[1], "else", 0);
    Mismatch(Keywords[2], "else", 0);
    assert Keywords[3] == "else";
    assert KeywordMatch("else") == Some(4);
    ScanWrapsHead(KeywordPass, "else", 4);
    assert "else"[..4] == "else" && "else"[4..] == [];
  }

  /** No word boundaries: the "def" at the start of "define" is wrapped and the rest
      is copied. */
  lemma KeywordInsideWordExample(s: string)
    requires s == "define"
    ensures Scan(KeywordPass, s) == [Wrapped("def"), Plain('i'), Plain('n'), Plain('e')]
  {
    assert Keywords[0] == "def" && s[..3] == "def";
    assert KeywordMatch(s) == Some(3);
    ScanWrapsHead(KeywordPass, s, 3);
    KeywordPassCopiesIne(s[3..]);
  }

  lemma KeywordPassCopiesIne(t: string)
    requires t == "ine"
    ensures Scan(KeywordPass, t) == [Plain('i'), Plain('n'), Plain('e')]
  {
    NoKeywordAt(t);
    NoKeywordAt(t[1..]);
    NoKeywordAt(t[2..]);
    ScanCopiesHead(KeywordPass, t);
    assert t[1..][1..] == t[2..];
    ScanCopiesHead(KeywordPass, t[1..]);
    ScanCopiesHead(KeywordPass, t[2..]);
    assert t[2..][1..] == [];
  }

  /** No keyword is a prefix of "ine", "ne" or "e". */
  lemma NoKeywordAt(s: string)
    requires s == "ine" || s == "ne" || s == "e"
    ensures KeywordMatch(s).None?
  {
    forall j | 0 <= j < |Keywords| ensures !(Keywords[j] <= s) {
      if Keywords[j][0] != s[0] {
        Mismatch(Keywords[j], s, 0);
      } else {
        Mismatch(Keywords[j], s, 1);
      }
    }
    KeywordMatchSpec(s);
  }

  /** The string pass copies the start of the keyword pass's opening tag. */
  lemma StringPassCopiesTagHead(t: string)
    ensures Scan(StringPass, "<span class=" + t) == Plains("<span class=") + Scan(StringPass, t)
  {
    var a := "<span class=";
    forall i | 0 <= i < |a| ensures MatchAt(StringPass, (a + t)[i..]).None? {
      assert (a + t)[i..][0] == a[i];
    }
    ScanPlainPrefix(StringPass, a, t);
  }

  /** The string pass wraps a quoted class name. */
  lemma StringPassWrapsClassName(b: string)
    ensures Scan(StringPass, "\"text-purple-300\"" + b) ==
      [Wrapped("\"text-purple-300\"")] + Scan(StringPass, b)
  {
    var q := "\"text-purple-300\"";
    var t := q + b;
    forall k | 0 <= k < 17 ensures t[k] == q[k] {}
    FirstWhereAt(t, 1, QuoteOrBreak, 16);
    assert MatchAt(StringPass, t) == Some(17);
    ScanWrapsHead(StringPass, t, 17);
    assert t[..17] == q && t[17..] == b;
  }

  /** The string pass finds the quoted class name in markup that the keyword pass
      inserted, and wraps it. */
  lemma StringPassRescansKeywordMarkup(rest: string)
    ensures Scan(StringPass, OpenTag(ClassOf(KeywordPass)) + rest) ==
      Plains("<span class=") + [Wrapped("\"text-purple-300\"")] + Scan(StringPass, ">" + rest)
  {
    var a, q, b := "<span class=", "\"text-purple-300\"", ">" + rest;
    assert OpenTag(ClassOf(KeywordPass)) + rest == a + (q + b);
    StringPassCopiesTagHead(q + b);
    StringPassWrapsClassName(b);
  }

  /** The digit pass copies the start of the string pass's opening tag. */
  lemma DigitPassCopiesTagHead(t: string)
    ensures Scan(DigitPass, "<span class=\"text-green-" + t) ==
      Plains("<span class=\"text-green-") + Scan(DigitPass, t)
  {
    var a := "<span class=\"text-green-";
    forall i | 0 <= i < |a| ensures MatchAt(DigitPass, (a + t)[i..]).None? {
      assert (a + t)[i..][0] == a[i];
    }
    ScanPlainPrefix(DigitPass, a, t);
  }

  /** The digit pass wraps the run "300" when a non-digit follows it. */
  lemma DigitPassWrapsShade(b: string)
    requires b != [] && !IsDigit(b[0])
    ensures Scan(DigitPass, "300" + b) == [Wrapped("300")] + Scan(DigitPass, b)
  {
    var t := "300" + b;
    assert t[0] == '3' && t[1] == '0' && t[2] == '0' && t[3] == b[0];
    FirstWhereAt(t, 0, NonDigit, 3);
    assert MatchAt(DigitPass, t) == Some(3);
    ScanWrapsHead(DigitPass, t, 3);
    assert t[..3] == "300" && t[3..] == b;
  }

  /** The digit pass wraps the digits of class names inserted by earlier passes. */
  lemma DigitPassRescansClassNames(rest: string)
    ensures Scan(DigitPass, OpenTag(ClassOf(StringPass)) + rest) ==
      Plains("<span class=\"text-green-") + [Wrapped("300")] + Scan(DigitPass, "\">" + rest)
  {
    var a, d, b := "<span class=\"text-green-", "300", "\">" + rest;
    assert OpenTag(ClassOf(StringPass)) + rest == a + (d + b);
    DigitPassCopiesTagHead(d + b);
    DigitPassWrapsShade(b);
  }
}
