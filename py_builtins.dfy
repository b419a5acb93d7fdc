/** The handful of Python built-ins the services lean on, stated once:
    optional values and error results, `int()` on a float, `str.join`,
    `str.split`, `str.replace` on one character, `str.title`, `str.strip`
    emptiness and `str()` of a non-negative integer. */
module PyBuiltins {

  datatype Option<T> = None | Some(value: T)

  /** Python's truthiness of an optional string: present and non-empty. */
  predicate Truthy(s: Option<string>)
  {
    s.Some? && s.value != ""
  }

  /** A value, or the exception that the Python code would have raised. */
  datatype Result<T, E> = Ok(value: T) | Err(error: E)

  // ---------------------------------------------------------------------------
  // int(x) on a float truncates toward zero.
  // ---------------------------------------------------------------------------

  function Trunc(x: real): (r: int)
    ensures 0.0 <= x ==> 0 <= r && r as real <= x < r as real + 1.0
    ensures x < 0.0 ==> r <= 0 && r as real - 1.0 < x <= r as real
  {
    if x >= 0.0 then x.Floor else -((-x).Floor)
  }

  /** `int()` never reverses the order of two floats. */
  lemma TruncMonotone(a: real, b: real)
    requires a <= b
    ensures Trunc(a) <= Trunc(b)
  {
    if a >= 0.0 {
      assert Trunc(a) as real <= a <= b < Trunc(b) as real + 1.0;
    } else if b < 0.0 {
      assert Trunc(a) as real - 1.0 < a <= b <= Trunc(b) as real;
    }
  }

  // ---------------------------------------------------------------------------
  // sep.join(parts) and s.split(c)
  // ---------------------------------------------------------------------------

  function Join(sep: string, parts: seq<string>): string
  {
    if |parts| == 0 then ""
    else if |parts| == 1 then parts[0]
    else Join(sep, parts[..|parts| - 1]) + sep + parts[|parts| - 1]
  }

  /** `s.split(c)` for a one-character separator: the pieces between the
      occurrences of `c`; always at least one piece. */
  function Split(s: string, c: char): (pieces: seq<string>)
    ensures |pieces| >= 1
    decreases |s|
  {
    if s == [] then [""]
    else
      var rest := Split(s[1..], c);
      if s[0] == c then [""] + rest else [[s[0]] + rest[0]] + rest[1..]
  }

  lemma {:induction false} SplitNoSeparator(s: string, c: char)
    requires c !in s
    ensures Split(s, c) == [s]
    decreases |s|
  {
    if s != [] {
      SplitNoSeparator(s[1..], c);
      assert [s[0]] + s[1..] == s;
    }
  }

  /** Splitting distributes over one occurrence of the separator. */
  lemma {:induction false} SplitAround(x: string, c: char, y: string)
    ensures Split(x + [c] + y, c) == Split(x, c) + Split(y, c)
    decreases |x|
  {
    if x == [] {
      assert x + [c] + y == [c] + y;
      assert ([c] + y)[1..] == y;
    } else {
      assert (x + [c] + y)[1..] == x[1..] + [c] + y;
      SplitAround(x[1..], c, y);
    }
  }

  /** Joining lines with a newline and splitting them again gives the lines
      back, provided no line contains the separator itself. */
  lemma {:induction false} SplitJoin(parts: seq<string>, c: char)
    requires |parts| >= 1
    requires forall i :: 0 <= i < |parts| ==> c !in parts[i]
    ensures Split(Join([c], parts), c) == parts
    decreases |parts|
  {
    if |parts| == 1 {
      SplitNoSeparator(parts[0], c);
    } else {
      var init, last := parts[..|parts| - 1], parts[|parts| - 1];
      SplitJoin(init, c);
      SplitAround(Join([c], init), c, last);
      SplitNoSeparator(last, c);
      assert init + [last] == parts;
    }
  }

  // ---------------------------------------------------------------------------
  // s.replace(a, b) with one-character a and b
  // ---------------------------------------------------------------------------

  function ReplaceChar(s: string, a: char, b: char): (r: string)
    ensures |r| == |s|
    ensures forall i :: 0 <= i < |s| ==> r[i] == if s[i] == a then b else s[i]
  {
    seq(|s|, i requires 0 <= i < |s| => if s[i] == a then b else s[i])
  }

  // ---------------------------------------------------------------------------
  // s.title(), for ASCII text: a letter that follows a letter is lowered,
  // any other letter is raised; every other character is kept.
  // ---------------------------------------------------------------------------

  predicate IsLetter(c: char)
  {
    'a' <= c <= 'z' || 'A' <= c <= 'Z'
  }

  function Upper(c: char): char
  {
    if 'a' <= c <= 'z' then (c as int - 32) as char else c
  }

  function Lower(c: char): char
  {
    if 'A' <= c <= 'Z' then (c as int + 32) as char else c
  }

  function Title(s: string): string
  {
    TitleAfter(s, false)
  }

  /** `s.title()` continued after a character that was (`afterLetter`) or
      was not a letter. */
  function TitleAfter(s: string, afterLetter: bool): (r: string)
    ensures |r| == |s|
    decreases |s|
  {
    if s == [] then []
    else [if afterLetter then Lower(s[0]) else Upper(s[0])] + TitleAfter(s[1..], IsLetter(s[0]))
  }

  /** Each character of `s.title()`: lowered when it follows a letter,
      raised otherwise. */
  lemma {:induction false} TitleAt(s: string, afterLetter: bool, i: nat)
    requires i < |s|
    ensures TitleAfter(s, afterLetter)[i] ==
      if (if i == 0 then afterLetter else IsLetter(s[i - 1])) then Lower(s[i]) else Upper(s[i])
    decreases i
  {
    if i > 0 {
      TitleAt(s[1..], IsLetter(s[0]), i - 1);
    }
  }

  /** Title-casing touches letters only. */
  lemma {:induction false} TitleKeepsNonLetters(s: string, afterLetter: bool, i: nat)
    requires i < |s| && !IsLetter(s[i])
    ensures TitleAfter(s, afterLetter)[i] == s[i]
    decreases |s|
  {
    if i > 0 {
      TitleKeepsNonLetters(s[1..], IsLetter(s[0]), i - 1);
    }
  }

  /** Title-casing an already title-cased string changes nothing. */
  lemma {:induction false} TitleIdempotent(s: string, afterLetter: bool)
    ensures TitleAfter(TitleAfter(s, afterLetter), afterLetter) == TitleAfter(s, afterLetter)
    decreases |s|
  {
    if s != [] {
      var t := TitleAfter(s, afterLetter);
      assert t[1..] == TitleAfter(s[1..], IsLetter(s[0]));
      assert IsLetter(t[0]) == IsLetter(s[0]);
      TitleIdempotent(s[1..], IsLetter(s[0]));
    }
  }

  /** A character that is not a letter occurs in the title-cased string
      exactly when it occurs in the original. */
  lemma {:induction false} TitleNonLetterOccurs(s: string, afterLetter: bool, c: char)
    requires !IsLetter(c)
    ensures c in TitleAfter(s, afterLetter) <==> c in s
    decreases |s|
  {
    if s != [] {
      var t := TitleAfter(s, afterLetter);
      TitleNonLetterOccurs(s[1..], IsLetter(s[0]), c);
      assert t == [t[0]] + TitleAfter(s[1..], IsLetter(s[0]));
      assert s == [s[0]] + s[1..];
      assert t[0] == c <==> s[0] == c;
    }
  }

  // ---------------------------------------------------------------------------
  // `not s.strip()`: the string is empty or white space only (str.isspace).
  // ---------------------------------------------------------------------------

  predicate IsSpace(c: char)
  {
    || c == ' ' || '\t' <= c <= '\r' || '\U{1C}' <= c <= '\U{1F}'
    || c == '\U{85}' || c == '\U{A0}' || c == '\U{1680}'
    || '\U{2000}' <= c <= '\U{200A}' || c == '\U{2028}' || c == '\U{2029}'
    || c == '\U{202F}' || c == '\U{205F}' || c == '\U{3000}'
  }

  predicate IsBlank(s: string)
  {
    forall i :: 0 <= i < |s| ==> IsSpace(s[i])
  }

  // ---------------------------------------------------------------------------
  // str(n) for n >= 0
  // ---------------------------------------------------------------------------

  function DigitChar(d: nat): (c: char)
    requires d < 10
    ensures '0' <= c <= '9'
  {
    ('0' as int + d) as char
  }

  function NatToString(n: nat): (r: string)
    ensures |r| >= 1
    ensures forall i :: 0 <= i < |r| ==> '0' <= r[i] <= '9'
  {
    if n < 10 then [DigitChar(n)] else NatToString(n / 10) + [DigitChar(n % 10)]
  }

  /** `str(n)` for any integer. */
  function IntToString(n: int): (r: string)
    ensures |r| >= 1 && '\n' !in r
  {
    if n < 0 then "-" + NatToString(-n) else NatToString(n)
  }
}
