/** The string primitives of the JavaScript runtime that the viewer relies on,
    on an ASCII abstraction: case mapping, the regular-expression classes `\w`
    and `\s`, `format_alternate_answer`, `String.prototype.split(' ')`,
    `parseInt` and the `<` order on strings. */
module JsText {
  import opened Options

  // ---------------------------------------------------------------------------
  // Case mapping (ASCII letters only)
  // ---------------------------------------------------------------------------

  function LowerChar(c: char): char {
    if 'A' <= c <= 'Z' then (c as int + 32) as char else c
  }

  function UpperChar(c: char): char {
    if 'a' <= c <= 'z' then (c as int - 32) as char else c
  }

  /** `s.toLowerCase()` */
  function Lower(s: string): string {
    seq(|s|, i requires 0 <= i < |s| => LowerChar(s[i]))
  }

  lemma LowerIdempotent(s: string)
    ensures Lower(Lower(s)) == Lower(s)
  {
    assert forall i :: 0 <= i < |s| ==> LowerChar(LowerChar(s[i])) == LowerChar(s[i]);
  }

  /** The only character that lowercases to '.' is '.' itself. */
  lemma LowerOfDots(s: string)
    requires Lower(s) == "..."
    ensures s == "..."
  {
    assert |s| == 3;
    forall i | 0 <= i < 3
      ensures s[i] == '.'
    {
      assert LowerChar(s[i]) == Lower(s)[i] == '.';
    }
  }

  // ---------------------------------------------------------------------------
  // Regular-expression classes
  // ---------------------------------------------------------------------------

  /** `\w` without the `u` flag: ASCII letters, digits and underscore. */
  predicate IsWordChar(c: char) {
    'a' <= c <= 'z' || 'A' <= c <= 'Z' || '0' <= c <= '9' || c == '_'
  }

  /** `\s`: the ECMAScript WhiteSpace and LineTerminator code points. */
  predicate IsJsSpace(c: char) {
    var n := c as int;
    (0x09 <= n <= 0x0D) || n == 0x20 || n == 0xA0 || n == 0x1680
    || (0x2000 <= n <= 0x200A) || n == 0x2028 || n == 0x2029 || n == 0x202F
    || n == 0x205F || n == 0x3000 || n == 0xFEFF
  }

  /** `/^\s*$/.test(s)`: the string is empty or white space only. */
  predicate IsBlank(s: string) {
    forall i :: 0 <= i < |s| ==> IsJsSpace(s[i])
  }

  // ---------------------------------------------------------------------------
  // format_alternate_answer
  // ---------------------------------------------------------------------------

  /** Position `i` of `t` begins a maximal run of `\w` characters. */
  predicate RunStart(t: string, i: int)
    requires 0 <= i < |t|
  {
    IsWordChar(t[i]) && (i == 0 || !IsWordChar(t[i - 1]))
  }

  /** The `replace` call of `format_alternate_answer`: with the global
      pattern "any number of `\w`", every match is a maximal word run (or
      empty), so the first character of each run is uppercased and everything
      else is kept. `inRun` says whether the character before `t` was a word
      character. */
  function CapitalizeRuns(t: string, inRun: bool): (r: string)
    ensures |r| == |t|
  {
    if t == [] then []
    else [if IsWordChar(t[0]) && !inRun then UpperChar(t[0]) else t[0]]
         + CapitalizeRuns(t[1..], IsWordChar(t[0]))
  }

  lemma {:induction false} CapitalizeRunsAt(t: string, inRun: bool, i: int)
    requires 0 <= i < |t|
    ensures CapitalizeRuns(t, inRun)[i] ==
      if IsWordChar(t[i]) && !(if i == 0 then inRun else IsWordChar(t[i - 1]))
      then UpperChar(t[i]) else t[i]
  {
    if i > 0 {
      CapitalizeRunsAt(t[1..], IsWordChar(t[0]), i - 1);
    }
  }

  /** `format_alternate_answer(s)`: lowercase, then capitalize the first
      character of every maximal `\w` run. */
  function FormatAlternateAnswer(s: string): (r: string)
    ensures |r| == |s|
  {
    CapitalizeRuns(Lower(s), false)
  }

  /** Character `i` of the formatted answer is the folded character, made
      upper case exactly where a word run starts. */
  lemma FormatAlternateAnswerAt(s: string, i: int)
    requires 0 <= i < |s|
    ensures FormatAlternateAnswer(s)[i] ==
      if RunStart(Lower(s), i) then UpperChar(LowerChar(s[i])) else LowerChar(s[i])
  {
    CapitalizeRunsAt(Lower(s), false, i);
  }

  /** Formatting only changes case: folding the formatted string gives the
      folded original back. */
  lemma LowerFormat(s: string)
    ensures Lower(FormatAlternateAnswer(s)) == Lower(s)
  {
    var f := FormatAlternateAnswer(s);
    forall i | 0 <= i < |s|
      ensures Lower(f)[i] == Lower(s)[i]
    {
      var c := s[i];
      FormatAlternateAnswerAt(s, i);
      assert LowerChar(UpperChar(LowerChar(c))) == LowerChar(c);
      assert LowerChar(LowerChar(c)) == LowerChar(c);
    }
  }

  /** Formatting a formatted answer changes nothing. */
  lemma FormatIdempotent(s: string)
    ensures FormatAlternateAnswer(FormatAlternateAnswer(s)) == FormatAlternateAnswer(s)
  {
    LowerFormat(s);
  }

  /** The formatted form of a string depends only on its folded form. */
  lemma FormatOfLower(s: string)
    ensures FormatAlternateAnswer(Lower(s)) == FormatAlternateAnswer(s)
  {
    LowerIdempotent(s);
  }

  /** Case mapping never turns a non-space character into a space, so a
      guess that is not blank stays not blank once folded and formatted. */
  lemma FormatKeepsNonBlank(s: string)
    requires !IsBlank(s)
    ensures !IsBlank(FormatAlternateAnswer(Lower(s)))
  {
    var i :| 0 <= i < |s| && !IsJsSpace(s[i]);
    var f := FormatAlternateAnswer(Lower(s));
    assert Lower(s)[i] == LowerChar(s[i]);
    FormatAlternateAnswerAt(Lower(s), i);
    assert !IsJsSpace(f[i]);
  }

  // ---------------------------------------------------------------------------
  // String order
  // ---------------------------------------------------------------------------

  /** `a < b` on two strings: lexicographic order over characters, a proper
      prefix coming first. */
  predicate StrLess(a: string, b: string) {
    if b == [] then false
    else if a == [] then true
    else if a[0] != b[0] then a[0] < b[0]
    else StrLess(a[1..], b[1..])
  }

  /** Two different strings are ordered one way and not the other, and no
      string is below itself. */
  lemma {:induction false} StrLessTrichotomy(a: string, b: string)
    ensures !StrLess(a, a)
    ensures a != b ==> (StrLess(a, b) <==> !StrLess(b, a))
  {
    if a != [] {
      StrLessTrichotomy(a[1..], a[1..]);
    }
    if a != [] && b != [] && a[0] == b[0] {
      StrLessTrichotomy(a[1..], b[1..]);
      if a != b {
        assert a == [a[0]] + a[1..] && b == [b[0]] + b[1..];
      }
    }
  }

  lemma {:induction false} StrLessTransitive(a: string, b: string, c: string)
    requires StrLess(a, b) && StrLess(b, c)
    ensures StrLess(a, c)
  {
    if a != [] && a[0] == b[0] && b[0] == c[0] {
      StrLessTransitive(a[1..], b[1..], c[1..]);
    }
  }

  // ---------------------------------------------------------------------------
  // split(' ')
  // ---------------------------------------------------------------------------

  /** `fields.join(' ')` */
  function JoinSpace(fields: seq<string>): string
    requires |fields| >= 1
  {
    if |fields| == 1 then fields[0] else fields[0] + " " + JoinSpace(fields[1..])
  }

  /** `s.split(' ')`: the fields between the spaces, never an empty list. */
  function SplitSpace(s: string): (fields: seq<string>)
    ensures |fields| >= 1
    ensures forall k :: 0 <= k < |fields| ==> ' ' !in fields[k]
    ensures JoinSpace(fields) == s
  {
    if s == [] then [""]
    else
      var rest := SplitSpace(s[1..]);
      if s[0] == ' ' then
        assert JoinSpace([""] + rest) == "" + " " + JoinSpace(rest);
        [""] + rest
      else
        var fields := [[s[0]] + rest[0]] + rest[1..];
        assert |rest| > 1 ==> JoinSpace(fields) == [s[0]] + (rest[0] + " " + JoinSpace(rest[1..]));
        fields
  }

  /** Splitting is the inverse of joining fields that hold no space. */
  lemma {:induction false} SplitJoin(fields: seq<string>)
    requires |fields| >= 1
    requires forall k :: 0 <= k < |fields| ==> ' ' !in fields[k]
    ensures SplitSpace(JoinSpace(fields)) == fields
  {
    if |fields| == 1 {
      SplitNoSpace(fields[0]);
    } else {
      SplitJoin(fields[1..]);
      SplitPrefix(fields[0], JoinSpace(fields[1..]));
      assert [fields[0]] + fields[1..] == fields;
    }
  }

  lemma {:induction false} SplitNoSpace(s: string)
    requires ' ' !in s
    ensures SplitSpace(s) == [s]
  {
    if s != [] {
      assert ' ' !in s[1..];
      SplitNoSpace(s[1..]);
    }
  }

  lemma {:induction false} SplitPrefix(head: string, tail: string)
    requires ' ' !in head
    ensures SplitSpace(head + " " + tail) == [head] + SplitSpace(tail)
  {
    if head == [] {
      assert head + " " + tail == [' '] + tail;
      assert (head + " " + tail)[1..] == tail;
    } else {
      assert (head + " " + tail)[1..] == head[1..] + " " + tail;
      SplitPrefix(head[1..], tail);
      assert [head[0]] + head[1..] == head;
    }
  }

  // ---------------------------------------------------------------------------
  // parseInt
  // ---------------------------------------------------------------------------

  /** The value of a digit character in bases up to 36, 36 if it is none. */
  function DigitValue(c: char): nat {
    if '0' <= c <= '9' then c as int - '0' as int
    else if 'a' <= c <= 'z' then c as int - 'a' as int + 10
    else if 'A' <= c <= 'Z' then c as int - 'A' as int + 10
    else 36
  }

  /** The longest prefix of `s` made of digits of the given radix. */
  function DigitPrefix(s: string, radix: nat): (d: string)
    ensures |d| <= |s| && d == s[..|d|]
    ensures forall i :: 0 <= i < |d| ==> DigitValue(d[i]) < radix
    ensures |d| < |s| ==> DigitValue(s[|d|]) >= radix
  {
    if s == [] || DigitValue(s[0]) >= radix then []
    else [s[0]] + DigitPrefix(s[1..], radix)
  }

  /** The number a digit string denotes, most significant digit first. */
  function DigitsValue(d: string, radix: nat): nat {
    if d == [] then 0
    else DigitsValue(d[..|d| - 1], radix) * radix + DigitValue(d[|d| - 1])
  }

  function TrimStart(s: string): string {
    if s != [] && IsJsSpace(s[0]) then TrimStart(s[1..]) else s
  }

  /** `parseInt(s)` with no radix: leading white space, an optional sign, an
      optional `0x` prefix selecting base 16, then the longest run of digits.
      `None` is NaN, the result when there is no digit at all. */
  function ParseInt(s: string): Option<int> {
    var t := TrimStart(s);
    var negative := t != [] && t[0] == '-';
    var u := if t != [] && (t[0] == '-' || t[0] == '+') then t[1..] else t;
    var hex := |u| >= 2 && u[0] == '0' && (u[1] == 'x' || u[1] == 'X');
    var radix := if hex then 16 else 10;
    var digits := DigitPrefix(if hex then u[2..] else u, radix);
    var value: int := DigitsValue(digits, radix);
    if digits == [] then None else Some(if negative then -value else value)
  }

  /** The decimal numeral of `n`, as `String(n)` writes it. */
  function DecimalString(n: nat): (s: string)
    ensures |s| >= 1
    ensures forall i :: 0 <= i < |s| ==> '0' <= s[i] <= '9'
  {
    if n < 10 then [('0' as int + n) as char]
    else DecimalString(n / 10) + [('0' as int + n % 10) as char]
  }

  lemma {:induction false} DecimalStringValue(n: nat)
    ensures DigitsValue(DecimalString(n), 10) == n
  {
    var s := DecimalString(n);
    if n >= 10 {
      DecimalStringValue(n / 10);
      assert s[..|s| - 1] == DecimalString(n / 10);
    }
  }

  lemma {:induction false} DigitPrefixOfDigits(s: string)
    requires forall i :: 0 <= i < |s| ==> '0' <= s[i] <= '9'
    ensures DigitPrefix(s, 10) == s
  {
    if s != [] {
      DigitPrefixOfDigits(s[1..]);
    }
  }

  /** `parseInt(String(n)) == n` for every natural number. */
  lemma ParseIntDecimal(n: nat)
    ensures ParseInt(DecimalString(n)) == Some(n)
  {
    var s := DecimalString(n);
    assert !IsJsSpace(s[0]) && s[0] != '-' && s[0] != '+';
    assert TrimStart(s) == s;
    assert |s| >= 2 ==> s[1] != 'x' && s[1] != 'X';
    DigitPrefixOfDigits(s);
    DecimalStringValue(n);
  }
}
