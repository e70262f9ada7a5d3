/**
 * The small part of JavaScript's value and string semantics that the widget
 * and the workers rely on: JSON values as `JSON.parse` returns them, `undefined`,
 * truthiness and `||`, property reads that may throw, and the string methods
 * `trim`, `split`, `startsWith`, `includes`, `toLowerCase` and `replace`.
 */
module Js {

  datatype Option<+T> = None | Some(value: T)

  /** A value as `JSON.parse` returns it. Objects are keyed maps: on duplicate
      keys `JSON.parse` keeps the last one, which a map does by construction. */
  datatype Json =
    | JNull
    | JBool(b: bool)
    | JNum(n: real)
    | JStr(s: string)
    | JArr(items: seq<Json>)
    | JObj(members: map<string, Json>)

  /** A read of a JavaScript value: `None` is `undefined`. */
  type Value = Option<Json>

  /** The outcome of an expression that may throw. */
  datatype Read<+T> = Threw(message: string) | Got(value: T)

  /** The message of the TypeError thrown by a property read on null or
      undefined; engines word it differently, so the model fixes one text. */
  const TypeErrorMessage: string := "TypeError"

  /** JavaScript truthiness (`!!v`). NaN cannot arise from JSON, so a number
      is falsy exactly when it is zero. */
  predicate Truthy(v: Value) {
    match v
    case None => false
    case Some(j) =>
      match j
      case JNull => false
      case JBool(b) => b
      case JNum(n) => n != 0.0
      case JStr(s) => s != ""
      case JArr(_) => true
      case JObj(_) => true
  }

  /** `v || fallback`. */
  function Or(v: Value, fallback: Json): (r: Json)
    ensures Truthy(v) ==> Some(r) == v
    ensures !Truthy(v) ==> r == fallback
  {
    if Truthy(v) then v.value else fallback
  }

  /** Converting `j` to a string (a template literal, `String`, a property
      key, `parseFloat`, `new Date`) returns instead of throwing. An object
      with its own `toString` member throws: that member is not callable,
      and the inherited `valueOf` gives back the object itself, so no
      primitive results. An array converts by joining its elements, so it
      throws when one of them does; every other value converts. */
  predicate Stringable(j: Json)
    decreases j
  {
    match j
    case JObj(m) => "toString" !in m
    case JArr(items) => forall k :: 0 <= k < |items| ==> Stringable(items[k])
    case _ => true
  }

  /** A property of a non-null JSON value: an object's own member, element 0
      and the length of an array or a string; anything else is undefined. */
  function Property(j: Json, key: string): Value {
    match j
    case JObj(m) => if key in m then Some(m[key]) else None
    case JArr(items) =>
      if key == "length" then Some(JNum(|items| as real))
      else if key == "0" && |items| > 0 then Some(items[0])
      else None
    case JStr(s) =>
      if key == "length" then Some(JNum(|s| as real))
      else if key == "0" && |s| > 0 then Some(JStr([s[0]]))
      else None
    case _ => None
  }

  /** `v.key`: reading a property of undefined or null throws a TypeError. */
  function Member(v: Value, key: string): (r: Read<Value>)
    ensures r.Threw? <==> (v == None || v == Some(JNull))
  {
    match v
    case None => Threw(TypeErrorMessage)
    case Some(j) => if j == JNull then Threw(TypeErrorMessage) else Got(Property(j, key))
  }

  /** `v?.key`: optional chaining yields undefined on null or undefined. */
  function OptMember(v: Value, key: string): (r: Value)
    ensures (v == None || v == Some(JNull)) ==> r == None
  {
    match v
    case None => None
    case Some(j) => if j == JNull then None else Property(j, key)
  }

  /** `v?.toLowerCase()`: undefined on null or undefined, the lowercased text
      on a string, and a TypeError on any other value (it has no such method). */
  function OptLowerCase(v: Value): (r: Read<Option<string>>)
    ensures r.Got? && r.value.Some? <==> v.Some? && v.value.JStr?
    ensures r.Threw? <==> v.Some? && !v.value.JStr? && v.value != JNull
    ensures v.Some? && v.value.JStr? ==> r == Got(Some(Lower(v.value.s)))
  {
    match v
    case None => Got(None)
    case Some(j) =>
      match j
      case JNull => Got(None)
      case JStr(s) => Got(Some(Lower(s)))
      case _ => Threw(TypeErrorMessage)
  }

  /** `s || ''` for a string or undefined. */
  function OrEmpty(s: Option<string>): string {
    match s
    case None => ""
    case Some(t) => t
  }

  // ---------------------------------------------------------------- strings

  predicate IsDigit(c: char) { '0' <= c <= '9' }

  /** The characters `String.prototype.trim` removes and the regular
      expression class `\s` matches: WhiteSpace and LineTerminator. */
  predicate IsJsWhitespace(c: char) {
    c in {'\t', '\n', '\U{000B}', '\U{000C}', '\r', ' ', '\U{00A0}', '\U{1680}',
          '\U{2028}', '\U{2029}', '\U{202F}', '\U{205F}', '\U{3000}', '\U{FEFF}'}
    || '\U{2000}' <= c <= '\U{200A}'
  }

  /** `toLowerCase` on one character, for the Latin capitals. */
  function LowerChar(c: char): char {
    if 'A' <= c <= 'Z' then (c as int + 32) as char else c
  }

  function Lower(s: string): string {
    seq(|s|, i requires 0 <= i < |s| => LowerChar(s[i]))
  }

  function TrimStart(s: string): string {
    if |s| > 0 && IsJsWhitespace(s[0]) then TrimStart(s[1..]) else s
  }

  function TrimEnd(s: string): string {
    if |s| > 0 && IsJsWhitespace(s[|s| - 1]) then TrimEnd(s[..|s| - 1]) else s
  }

  /** `s.trim()`. */
  function Trim(s: string): string {
    TrimEnd(TrimStart(s))
  }

  predicate AllWhitespace(s: string) {
    forall i :: 0 <= i < |s| ==> IsJsWhitespace(s[i])
  }

  lemma {:induction false} TrimStartBlank(s: string)
    ensures TrimStart(s) == "" <==> AllWhitespace(s)
    ensures TrimStart(s) != "" ==> !IsJsWhitespace(TrimStart(s)[0])
  {
    if |s| > 0 && IsJsWhitespace(s[0]) {
      TrimStartBlank(s[1..]);
      if AllWhitespace(s[1..]) {
        assert AllWhitespace(s) by {
          forall i | 0 <= i < |s| ensures IsJsWhitespace(s[i]) {
            if i > 0 { assert s[i] == s[1..][i - 1]; }
          }
        }
      }
      if AllWhitespace(s) {
        assert AllWhitespace(s[1..]) by {
          forall i | 0 <= i < |s[1..]| ensures IsJsWhitespace(s[1..][i]) {
            assert s[1..][i] == s[i + 1];
          }
        }
      }
    }
  }

  lemma {:induction false} TrimEndKeepsNonBlank(s: string)
    requires |s| > 0 && !IsJsWhitespace(s[0])
    ensures TrimEnd(s) != "" && TrimEnd(s)[0] == s[0]
    ensures !IsJsWhitespace(TrimEnd(s)[|TrimEnd(s)| - 1])
  {
    if |s| > 0 && IsJsWhitespace(s[|s| - 1]) {
      TrimEndKeepsNonBlank(s[..|s| - 1]);
    }
  }

  /** The submit handler's blank test: `!phone.trim()` holds exactly when the
      input is made of whitespace only; otherwise the trimmed text has no
      whitespace at either end. */
  lemma TrimBlank(s: string)
    ensures Trim(s) == "" <==> AllWhitespace(s)
    ensures Trim(s) != "" ==> !IsJsWhitespace(Trim(s)[0]) && !IsJsWhitespace(Trim(s)[|Trim(s)| - 1])
  {
    TrimStartBlank(s);
    if TrimStart(s) != "" {
      TrimEndKeepsNonBlank(TrimStart(s));
    }
  }

  /** `s.startsWith(prefix)`. */
  predicate StartsWith(s: string, prefix: string) {
    |prefix| <= |s| && s[..|prefix|] == prefix
  }

  /** Two prefixes that differ at a position both have cannot both start `s`. */
  lemma StartsWithDiffers(s: string, p: string, q: string, i: nat)
    requires StartsWith(s, p) && i < |p| && i < |q| && p[i] != q[i]
    ensures !StartsWith(s, q)
  {
    assert s[..|p|][i] == s[i];
  }

  predicate OccursAt(text: string, pattern: string, i: int) {
    0 <= i && i + |pattern| <= |text| && text[i..i + |pattern|] == pattern
  }

  /** `text.includes(pattern)`. */
  predicate Includes(text: string, pattern: string) {
    exists i :: 0 <= i <= |text| - |pattern| && OccursAt(text, pattern, i)
  }

  lemma OccursAtShift(text: string, phrase: string, part: string, i: int, j: int)
    requires OccursAt(text, phrase, i) && OccursAt(phrase, part, j)
    ensures OccursAt(text, part, i + j)
  {
    assert text[i..i + |phrase|] == phrase;
    forall k | 0 <= k < |part|
      ensures text[i + j..i + j + |part|][k] == part[k]
    {
      assert text[i + j..i + j + |part|][k] == text[i..i + |phrase|][j + k];
      assert phrase[j..j + |part|][k] == phrase[j + k];
    }
  }

  /** Containment is transitive: a text that includes a phrase includes every
      part of that phrase. */
  lemma IncludesTransitive(text: string, phrase: string, part: string)
    requires Includes(text, phrase) && Includes(phrase, part)
    ensures Includes(text, part)
  {
    var i :| 0 <= i <= |text| - |phrase| && OccursAt(text, phrase, i);
    var j :| 0 <= j <= |phrase| - |part| && OccursAt(phrase, part, j);
    OccursAtShift(text, phrase, part, i, j);
  }

  function Occurrences(s: string, c: char): nat {
    if s == [] then 0 else (if s[0] == c then 1 else 0) + Occurrences(s[1..], c)
  }

  /** `s.split(sep)` for a one-character separator: one more part than there
      are separators, and no part contains the separator. */
  function Split(s: string, sep: char): (parts: seq<string>)
    ensures |parts| == Occurrences(s, sep) + 1
    ensures forall k :: 0 <= k < |parts| ==> sep !in parts[k]
  {
    if s == [] then [""]
    else
      var rest := Split(s[1..], sep);
      if s[0] == sep then [""] + rest
      else [[s[0]] + rest[0]] + rest[1..]
  }

  /** `parts.join(sep)`. */
  function Join(parts: seq<string>, sep: char): string
    requires |parts| > 0
  {
    if |parts| == 1 then parts[0] else parts[0] + [sep] + Join(parts[1..], sep)
  }

  /** Splitting loses nothing: joining the parts gives the text back. */
  lemma {:induction false} JoinSplit(s: string, sep: char)
    ensures Join(Split(s, sep), sep) == s
  {
    if s != [] {
      var rest := Split(s[1..], sep);
      JoinSplit(s[1..], sep);
      if s[0] != sep {
        if |rest| == 1 {
          assert Split(s, sep) == [[s[0]] + rest[0]];
        } else {
          assert Split(s, sep)[1..] == rest[1..];
          calc {
            Join(Split(s, sep), sep);
            [s[0]] + rest[0] + [sep] + Join(rest[1..], sep);
            [s[0]] + Join(rest, sep);
            s;
          }
        }
      }
    }
  }

  /** Parts taken from the front of `s` are the texts between separators. */
  lemma {:induction false} SplitAfterSeparator(a: string, sep: char, b: string)
    requires sep !in a
    ensures Split(a + [sep] + b, sep) == [a] + Split(b, sep)
  {
    if a == [] {
      assert a + [sep] + b == [sep] + b;
      assert ([sep] + b)[1..] == b;
    } else {
      assert (a + [sep] + b)[1..] == a[1..] + [sep] + b;
      SplitAfterSeparator(a[1..], sep, b);
      assert [a[0]] + a[1..] == a;
    }
  }

  /** The first part is empty exactly when the text is empty or starts
      with the separator. */
  lemma FirstPartEmpty(s: string, sep: char)
    ensures Split(s, sep)[0] == "" <==> s == "" || s[0] == sep
  {
  }

  /** `parts[i]`: undefined past the end. */
  function Part(parts: seq<string>, i: nat): Option<string> {
    if i < |parts| then Some(parts[i]) else None
  }

  /** `s.replace(pattern, replacement)` with a string pattern: only the FIRST
      occurrence is replaced (an empty pattern matches at the start). */
  function ReplaceFirst(s: string, pattern: string, replacement: string): string
    decreases |s|
  {
    if StartsWith(s, pattern) then replacement + s[|pattern|..]
    else if s == [] then s
    else [s[0]] + ReplaceFirst(s[1..], pattern, replacement)
  }

  lemma OccursInTail(s: string, pattern: string, j: nat)
    requires |s| > 0
    ensures OccursAt(s[1..], pattern, j) <==> OccursAt(s, pattern, j + 1)
  {
    if j + 1 + |pattern| <= |s| {
      assert s[1..][j..j + |pattern|] == s[j + 1..j + 1 + |pattern|];
    }
  }

  /** `replace` rewrites the first occurrence and nothing else. */
  lemma {:induction false} ReplaceFirstAt(s: string, pattern: string, replacement: string, i: nat)
    requires OccursAt(s, pattern, i)
    requires forall j :: 0 <= j < i ==> !OccursAt(s, pattern, j)
    ensures ReplaceFirst(s, pattern, replacement) == s[..i] + replacement + s[i + |pattern|..]
    decreases i
  {
    if i == 0 {
      assert StartsWith(s, pattern);
    } else {
      assert !OccursAt(s, pattern, 0);
      var t := s[1..];
      forall j | 0 <= j < i - 1
        ensures !OccursAt(t, pattern, j)
      {
        OccursInTail(s, pattern, j);
      }
      OccursInTail(s, pattern, i - 1);
      ReplaceFirstAt(t, pattern, replacement, i - 1);
      assert ReplaceFirst(s, pattern, replacement) == [s[0]] + ReplaceFirst(t, pattern, replacement);
      assert [s[0]] + t[..i - 1] == s[..i];
      assert t[i - 1 + |pattern|..] == s[i + |pattern|..];
    }
  }

  /** `(a + b + c).replace(b, r)` when `b` does not start anywhere inside `a`. */
  lemma ReplaceFirstBetween(a: string, b: string, c: string, replacement: string)
    requires forall j :: 0 <= j < |a| ==> !OccursAt(a + b + c, b, j)
    ensures ReplaceFirst(a + b + c, b, replacement) == a + replacement + c
  {
    var s := a + b + c;
    assert s[|a|..|a| + |b|] == b;
    ReplaceFirstAt(s, b, replacement, |a|);
    assert s[..|a|] == a;
    assert s[|a| + |b|..] == c;
  }

  function DigitChar(d: nat): char
    requires d < 10
  {
    "0123456789"[d]
  }

  /** Decimal rendering of an integer, as template literals produce it. */
  function IntToString(n: int): (r: string)
    decreases if n < 0 then -n + 1 else n
  {
    if n < 0 then "-" + IntToString(-n)
    else if n < 10 then [DigitChar(n)]
    else IntToString(n / 10) + [DigitChar(n % 10)]
  }

  /** `!isNaN(parseFloat(s))`: after leading whitespace and an optional sign,
      the text starts with a digit, with a point followed by a digit, or with
      "Infinity". */
  predicate ParsesAsNumber(s: string) {
    var t := TrimStart(s);
    var u := if |t| > 0 && (t[0] == '+' || t[0] == '-') then t[1..] else t;
    (|u| > 0 && IsDigit(u[0]))
    || (|u| > 1 && u[0] == '.' && IsDigit(u[1]))
    || StartsWith(u, "Infinity")
  }

  /** Leading whitespace is trimmed the same way whatever follows a comma. */
  lemma {:induction false} TrimStartBeforeComma(s: string, x: string)
    requires |x| > 0 && x[0] == ','
    ensures TrimStart(s + x) == TrimStart(s) + x
  {
    if |s| > 0 && IsJsWhitespace(s[0]) {
      assert (s + x)[1..] == s[1..] + x;
      TrimStartBeforeComma(s[1..], x);
    }
  }

  /** `parseFloat` stops at a comma: `parseFloat(s + ',' + rest)` is a number
      exactly when `parseFloat(s)` is, which is how an array's joined text
      parses by its first element. */
  lemma ParsesBeforeComma(s: string, rest: string)
    ensures ParsesAsNumber(s + "," + rest) <==> ParsesAsNumber(s)
  {
    var x := "," + rest;
    assert s + "," + rest == s + x;
    TrimStartBeforeComma(s, x);
    var t := TrimStart(s);
    var u := if |t| > 0 && (t[0] == '+' || t[0] == '-') then t[1..] else t;
    var t' := t + x;
    var u' := if |t'| > 0 && (t'[0] == '+' || t'[0] == '-') then t'[1..] else t';
    assert u' == u + x by {
      if |t| > 0 && (t[0] == '+' || t[0] == '-') {
        assert t'[1..] == t[1..] + x;
      }
    }
    if |u| < 8 {
      assert u'[|u|] == ',' && "Infinity"[|u|] != ',';
      assert !StartsWith(u', "Infinity");
    } else {
      assert u'[..8] == u[..8];
    }
  }
}
