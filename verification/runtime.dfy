/**
 * The parts of the JavaScript runtime that the handlers rely on: truthiness of
 * JSON values, `process.env`, and the string built-ins `toLowerCase`,
 * `includes`, `trim`, `split`, `join`, number-to-string conversion and
 * `Math.round` on a ratio.
 */
module Runtime {
  import opened Wrappers

  // ---------------------------------------------------------------------------
  // Values and truthiness
  // ---------------------------------------------------------------------------

  /** A JSON value as read from a request body (`undefined` when the key is absent). */
  datatype JsValue =
    | Undefined
    | Null
    | Bool(b: bool)
    | Num(n: real)
    | Str(s: string)
    | Arr(items: seq<JsValue>)
    | Obj

  /** JavaScript truthiness: `if (v)`, `v || w`, `!v`. */
  predicate Truthy(v: JsValue)
  {
    match v
    case Undefined => false
    case Null => false
    case Bool(b) => b
    case Num(n) => n != 0.0
    case Str(s) => s != ""
    case Arr(_) => true
    case Obj => true
  }

  /**
   * Truthiness of an optional string (`image?: string`, `string | null`), and
   * of an environment variable: `!process.env.X` is false exactly when it holds.
   */
  predicate Present(s: Option<string>)
  {
    s.Some? && s.value != ""
  }

  /** The value a JSON body carries for an optional string once serialised. */
  function FromOption(s: Option<string>): (v: JsValue)
    ensures Truthy(v) <==> Present(s)
  {
    match s
    case None => Undefined
    case Some(x) => Str(x)
  }

  /** How a template literal renders a possibly missing string (`${x}`). */
  function Interpolate(s: Option<string>): (r: string)
    ensures s.Some? ==> r == s.value
  {
    match s
    case None => "undefined"
    case Some(x) => x
  }

  // ---------------------------------------------------------------------------
  // process.env
  // ---------------------------------------------------------------------------

  /** The environment variables the core reads; `None` when unset. */
  datatype Env = Env(
    supabaseUrl: Option<string>,
    supabasePrivateKey: Option<string>,
    googleApiKey: Option<string>,
    groqApiKey: Option<string>)

  // ---------------------------------------------------------------------------
  // toLowerCase and includes
  // ---------------------------------------------------------------------------

  /** Lower-casing of one character (ASCII letters only). */
  function LowerChar(c: char): char
  {
    if 'A' <= c <= 'Z' then (c as int + 32) as char else c
  }

  /** `s.toLowerCase()` for ASCII letters; other characters are kept. */
  function ToLower(s: string): (r: string)
    ensures |r| == |s|
    ensures forall i :: 0 <= i < |s| ==> r[i] == LowerChar(s[i])
  {
    if s == [] then [] else [LowerChar(s[0])] + ToLower(s[1..])
  }

  lemma {:induction false} ToLowerAppend(a: string, b: string)
    ensures ToLower(a + b) == ToLower(a) + ToLower(b)
  {
    var l, r := ToLower(a + b), ToLower(a) + ToLower(b);
    assert |l| == |r|;
    forall i | 0 <= i < |l| ensures l[i] == r[i] {
      if i < |a| {
        assert (a + b)[i] == a[i];
      } else {
        assert (a + b)[i] == b[i - |a|];
      }
    }
  }

  /** `sub` occurs in `s` starting at index `i`. */
  predicate OccursAt(s: string, sub: string, i: int)
  {
    0 <= i && i + |sub| <= |s| && s[i..i + |sub|] == sub
  }

  /** `s.indexOf(sub, from)`: the first occurrence at or after `from`, or -1. */
  function IndexOf(s: string, sub: string, from: nat): (r: int)
    requires from <= |s|
    ensures r == -1 || (from <= r && OccursAt(s, sub, r))
    ensures r == -1 ==> forall i :: from <= i ==> !OccursAt(s, sub, i)
    ensures r != -1 ==> forall i :: from <= i < r ==> !OccursAt(s, sub, i)
    decreases |s| - from
  {
    if from + |sub| > |s| then -1
    else if s[from..from + |sub|] == sub then from
    else IndexOf(s, sub, from + 1)
  }

  /** `s.includes(sub)`. */
  predicate Includes(s: string, sub: string)
  {
    IndexOf(s, sub, 0) != -1
  }

  /** `includes` is the substring relation: it holds exactly when some occurrence exists. */
  lemma IncludesIffOccurs(s: string, sub: string)
    ensures Includes(s, sub) <==> exists i :: OccursAt(s, sub, i)
  {
    if !Includes(s, sub) {
      assert forall i :: 0 <= i ==> !OccursAt(s, sub, i);
    }
  }

  predicate StartsWith(s: string, prefix: string)
  {
    |prefix| <= |s| && s[..|prefix|] == prefix
  }

  predicate EndsWith(s: string, suffix: string)
  {
    |suffix| <= |s| && s[|s| - |suffix|..] == suffix
  }

  // ---------------------------------------------------------------------------
  // trim
  // ---------------------------------------------------------------------------

  /** The characters `String.prototype.trim` removes: ECMAScript WhiteSpace and LineTerminator. */
  predicate IsJsWhitespace(c: char)
  {
    || c == '\t' || c == '\U{B}' || c == '\U{C}' || c == ' ' || c == '\U{A0}' || c == '\U{FEFF}'
    || c == '\n' || c == '\r' || c == '\U{2028}' || c == '\U{2029}'
    || c == '\U{1680}' || ('\U{2000}' <= c <= '\U{200A}') || c == '\U{202F}' || c == '\U{205F}'
    || c == '\U{3000}'
  }

  /** Every character of `s` is whitespace (the empty string included). */
  predicate IsBlank(s: string)
  {
    forall i :: 0 <= i < |s| ==> IsJsWhitespace(s[i])
  }

  function TrimStart(s: string): (r: string)
    ensures r == [] || !IsJsWhitespace(r[0])
    ensures |r| <= |s| && r == s[|s| - |r|..]
  {
    if s != [] && IsJsWhitespace(s[0]) then TrimStart(s[1..]) else s
  }

  function TrimEnd(s: string): (r: string)
    ensures r == [] || !IsJsWhitespace(r[|r| - 1])
    ensures |r| <= |s| && r == s[..|r|]
  {
    if s != [] && IsJsWhitespace(s[|s| - 1]) then TrimEnd(s[..|s| - 1]) else s
  }

  /** `s.trim()`. */
  function Trim(s: string): string
  {
    TrimEnd(TrimStart(s))
  }

  /** A non-empty string is blank exactly when its first character is whitespace and the rest is blank. */
  lemma BlankFirst(s: string)
    requires s != []
    ensures IsBlank(s) <==> IsJsWhitespace(s[0]) && IsBlank(s[1..])
  {
    if IsJsWhitespace(s[0]) && IsBlank(s[1..]) {
      forall i | 1 <= i < |s| ensures IsJsWhitespace(s[i]) {
        assert s[i] == s[1..][i - 1];
      }
    }
  }

  /** A non-empty string is blank exactly when its last character is whitespace and the rest is blank. */
  lemma BlankLast(s: string)
    requires s != []
    ensures IsBlank(s) <==> IsJsWhitespace(s[|s| - 1]) && IsBlank(s[..|s| - 1])
  {
    if IsJsWhitespace(s[|s| - 1]) && IsBlank(s[..|s| - 1]) {
      forall i | 0 <= i < |s| - 1 ensures IsJsWhitespace(s[i]) {
        assert s[i] == s[..|s| - 1][i];
      }
    }
  }

  lemma {:induction false} TrimStartEmptyIffBlank(s: string)
    ensures TrimStart(s) == [] <==> IsBlank(s)
  {
    if s != [] {
      BlankFirst(s);
      if IsJsWhitespace(s[0]) {
        TrimStartEmptyIffBlank(s[1..]);
      }
    }
  }

  lemma {:induction false} TrimEndEmptyIffBlank(s: string)
    ensures TrimEnd(s) == [] <==> IsBlank(s)
  {
    if s != [] {
      BlankLast(s);
      if IsJsWhitespace(s[|s| - 1]) {
        TrimEndEmptyIffBlank(s[..|s| - 1]);
      }
    }
  }

  /** `!s.trim()` holds exactly for strings made only of whitespace, the empty string included. */
  lemma TrimEmptyIffBlank(s: string)
    ensures Trim(s) == [] <==> IsBlank(s)
  {
    var t := TrimStart(s);
    TrimStartEmptyIffBlank(s);
    TrimEndEmptyIffBlank(t);
    if t != [] {
      assert !IsBlank(t) by { assert !IsJsWhitespace(t[0]); }
    }
  }

  // ---------------------------------------------------------------------------
  // split and join
  // ---------------------------------------------------------------------------

  /** `s.split(c)` for a one-character separator: the segments between occurrences of `c`. */
  function Split(s: string, c: char): (r: seq<string>)
    ensures |r| >= 1
    ensures forall i :: 0 <= i < |r| ==> c !in r[i]
  {
    if s == [] then [""]
    else
      var rest := Split(s[1..], c);
      if s[0] == c then [""] + rest
      else [[s[0]] + rest[0]] + rest[1..]
  }

  /** `parts.join(sep)`; the empty list joins to the empty string. */
  function Join(parts: seq<string>, sep: string): string
  {
    if |parts| == 0 then ""
    else if |parts| == 1 then parts[0]
    else parts[0] + sep + Join(parts[1..], sep)
  }

  /** Splitting and re-joining with the same separator gives the original string back. */
  lemma {:induction false} JoinSplit(s: string, c: char)
    ensures Join(Split(s, c), [c]) == s
  {
    if s != [] {
      var rest := Split(s[1..], c);
      JoinSplit(s[1..], c);
      if s[0] == c {
        assert Split(s, c) == [""] + rest;
        assert Join([""] + rest, [c]) == "" + [c] + Join(rest, [c]) by {
          assert ([""] + rest)[1..] == rest;
        }
        assert s == [s[0]] + s[1..];
      } else {
        var parts := [[s[0]] + rest[0]] + rest[1..];
        assert Split(s, c) == parts;
        if |rest| == 1 {
          assert Join(parts, [c]) == [s[0]] + rest[0];
          assert s == [s[0]] + s[1..];
        } else {
          assert parts[1..] == rest[1..];
          assert Join(rest, [c]) == rest[0] + [c] + Join(rest[1..], [c]);
          assert Join(parts, [c]) == [s[0]] + rest[0] + [c] + Join(rest[1..], [c]);
          assert s == [s[0]] + s[1..];
        }
      }
    }
  }

  /** Joining segments free of the separator and splitting again gives the segments back. */
  lemma {:induction false} SplitJoin(parts: seq<string>, c: char)
    requires |parts| >= 1
    requires forall i :: 0 <= i < |parts| ==> c !in parts[i]
    ensures Split(Join(parts, [c]), c) == parts
  {
    if |parts| == 1 {
      SplitNoSeparator(parts[0], c);
    } else {
      var tail := Join(parts[1..], [c]);
      SplitJoin(parts[1..], c);
      assert Join(parts, [c]) == parts[0] + ([c] + tail);
      SplitPrefix(parts[0], [c] + tail, c);
      assert ([c] + tail)[1..] == tail;
      assert [parts[0]] + parts[1..] == parts;
    }
  }

  lemma {:induction false} SplitNoSeparator(s: string, c: char)
    requires c !in s
    ensures Split(s, c) == [s]
  {
    if s != [] {
      SplitNoSeparator(s[1..], c);
      assert s == [s[0]] + s[1..];
    }
  }

  /** A separator-free head is the first segment, and the split continues after the separator. */
  lemma {:induction false} SplitPrefix(head: string, rest: string, c: char)
    requires c !in head
    requires rest != [] && rest[0] == c
    ensures Split(head + rest, c) == [head] + Split(rest[1..], c)
  {
    if head == [] {
      assert head + rest == rest;
    } else {
      SplitPrefix(head[1..], rest, c);
      assert (head + rest)[1..] == head[1..] + rest;
      assert [head[0]] + head[1..] == head;
    }
  }

  /** Where part `i` begins in `Join(parts, sep)`. */
  function JoinOffset(parts: seq<string>, sep: string, i: nat): nat
    requires i <= |parts|
  {
    if i == 0 then 0 else JoinOffset(parts, sep, i - 1) + |parts[i - 1]| + |sep|
  }

  lemma {:induction false} JoinLength(parts: seq<string>, sep: string)
    requires |parts| >= 1
    ensures |Join(parts, sep)| == JoinOffset(parts, sep, |parts| - 1) + |parts[|parts| - 1]|
  {
    if |parts| > 1 {
      JoinLength(parts[1..], sep);
      JoinOffsetShift(parts, sep, |parts| - 1);
    }
  }

  lemma {:induction false} JoinOffsetShift(parts: seq<string>, sep: string, i: nat)
    requires 1 <= i <= |parts|
    ensures JoinOffset(parts, sep, i) == |parts[0]| + |sep| + JoinOffset(parts[1..], sep, i - 1)
  {
    if i > 1 {
      JoinOffsetShift(parts, sep, i - 1);
    }
  }

  /** Each part appears, whole and in order, at its offset in the joined string. */
  lemma {:induction false} JoinContainsPart(parts: seq<string>, sep: string, i: nat)
    requires i < |parts|
    ensures OccursAt(Join(parts, sep), parts[i], JoinOffset(parts, sep, i))
  {
    if |parts| == 1 {
    } else if i == 0 {
      assert Join(parts, sep) == parts[0] + (sep + Join(parts[1..], sep));
    } else {
      var rest := Join(parts[1..], sep);
      JoinContainsPart(parts[1..], sep, i - 1);
      JoinOffsetShift(parts, sep, i);
      var k := JoinOffset(parts[1..], sep, i - 1);
      var pre := parts[0] + sep;
      assert Join(parts, sep) == pre + rest;
      assert (pre + rest)[|pre| + k..|pre| + k + |parts[i]|] == rest[k..k + |parts[i]|];
    }
  }

  // ---------------------------------------------------------------------------
  // Numbers
  // ---------------------------------------------------------------------------

  function DigitChar(d: nat): (c: char)
    requires d < 10
    ensures '0' <= c <= '9'
  {
    ('0' as int + d) as char
  }

  predicate IsDigits(s: string)
  {
    forall i :: 0 <= i < |s| ==> '0' <= s[i] <= '9'
  }

  /** `${n}` for a non-negative integer: its decimal digits without leading zeros. */
  function NatToDecimal(n: nat): (r: string)
    ensures |r| >= 1 && IsDigits(r)
    ensures r[0] == '0' <==> n == 0
  {
    if n < 10 then [DigitChar(n)] else NatToDecimal(n / 10) + [DigitChar(n % 10)]
  }

  /** The number a string of decimal digits denotes. */
  function DecimalValue(s: string): nat
    requires IsDigits(s)
  {
    if s == [] then 0 else DecimalValue(s[..|s| - 1]) * 10 + (s[|s| - 1] as int - '0' as int)
  }

  /** Reading back the decimal rendering of `n` gives `n`. */
  lemma {:induction false} DecimalRoundTrip(n: nat)
    ensures DecimalValue(NatToDecimal(n)) == n
  {
    if n >= 10 {
      DecimalRoundTrip(n / 10);
      var r := NatToDecimal(n);
      assert r[..|r| - 1] == NatToDecimal(n / 10);
    }
  }

  /**
   * `Math.round(num / den)` on the exact ratio: the nearest integer, halves
   * rounded up.
   */
  function RoundRatio(num: nat, den: nat): (r: nat)
    requires den > 0
    ensures 2 * den * r <= 2 * num + den < 2 * den * (r + 1)
  {
    (2 * num + den) / (2 * den)
  }
}
