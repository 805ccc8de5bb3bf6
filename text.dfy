/**
 * String helpers shared by the model: decimal printing and parsing of
 * numbers (JavaScript's template-string conversion of an integer), splitting
 * and joining on a one-character separator (`String.prototype.split` /
 * `Array.prototype.join`), the last `n` elements of a list (`slice(-n)`),
 * substring search (`includes`, `startsWith`) and JavaScript whitespace
 * (`trim`).
 */
module Text {

  import opened Wrappers

  // ---------------------------------------------------------------------
  // Decimal numbers
  // ---------------------------------------------------------------------

  predicate IsDigit(c: char) {
    '0' <= c <= '9'
  }

  predicate AllDigits(s: string) {
    forall i :: 0 <= i < |s| ==> IsDigit(s[i])
  }

  function DigitChar(d: nat): (c: char)
    requires d < 10
    ensures IsDigit(c)
    ensures c as int - '0' as int == d
  {
    ('0' as int + d) as char
  }

  /** The decimal text of `n`, without leading zeros. */
  function NatToString(n: nat): (s: string)
    ensures |s| >= 1 && AllDigits(s)
    ensures n >= 10 ==> s[0] != '0'
    decreases n
  {
    if n < 10 then [DigitChar(n)] else NatToString(n / 10) + [DigitChar(n % 10)]
  }

  /** The decimal text of an integer, with a leading '-' when negative. */
  function IntToString(i: int): (s: string)
    ensures |s| >= 1
    ensures (s[0] == '-') <==> i < 0
  {
    if i < 0 then "-" + NatToString(-i) else NatToString(i)
  }

  /**
   * JavaScript's `a % b` for a positive `b`: the remainder takes the sign of
   * `a` (Dafny's own `%` is never negative). For a positive divisor Dafny's
   * `/` rounds down, as `Math.floor(a / b)` does.
   */
  function JsRemainder(a: int, b: int): (r: int)
    requires b > 0
    ensures a >= 0 ==> 0 <= r < b
    ensures a < 0 ==> -b < r <= 0
    ensures (a - r) % b == 0
  {
    RemainderLeavesMultiple(a, b);
    if a >= 0 then a % b else -((-a) % b)
  }

  /** Taking off the remainder, as either sign convention defines it, leaves a multiple of `b`. */
  lemma RemainderLeavesMultiple(a: int, b: int)
    requires b > 0
    ensures a >= 0 ==> (a - a % b) % b == 0
    ensures a < 0 ==> (a + (-a) % b) % b == 0
  {
    var n := if a >= 0 then a else -a;
    var q := n / b;
    assert n - n % b == q * b;
    if a >= 0 {
      MultipleHasNoRemainder(q, b);
    } else {
      assert a + n % b == (-q) * b;
      MultipleHasNoRemainder(-q, b);
    }
  }

  /** A multiple of `b` leaves no remainder. */
  lemma MultipleHasNoRemainder(k: int, b: int)
    requires b > 0
    ensures (k * b) % b == 0
  {
    var q, m := (k * b) / b, (k * b) % b;
    assert m == (k - q) * b;
    if k - q >= 1 {
      assert false;
    } else if k - q <= -1 {
      assert false;
    }
  }

  /** The value of a string of decimal digits (leading zeros allowed). */
  function DigitsValue(s: string): nat
    requires AllDigits(s)
    decreases |s|
  {
    if s == [] then 0 else DigitsValue(s[..|s| - 1]) * 10 + (s[|s| - 1] as int - '0' as int)
  }

  /** Appending a digit multiplies the value by ten and adds the digit. */
  lemma DigitsValueSnoc(s: string, c: char)
    requires AllDigits(s) && IsDigit(c)
    ensures AllDigits(s + [c])
    ensures DigitsValue(s + [c]) == DigitsValue(s) * 10 + (c as int - '0' as int)
  {
    assert (s + [c])[..|s|] == s;
  }

  /** Reads a non-empty run of decimal digits; anything else is rejected. */
  function ParseNat(s: string): (r: Option<nat>)
    ensures r.Some? <==> |s| > 0 && AllDigits(s)
  {
    if |s| > 0 && AllDigits(s) then Some(DigitsValue(s)) else None
  }

  /** Printing then reading a natural number gives it back. */
  lemma {:induction false} ParseNatToString(n: nat)
    ensures ParseNat(NatToString(n)) == Some(n)
  {
    DigitsValueOfNatToString(n);
  }

  lemma {:induction false} DigitsValueOfNatToString(n: nat)
    ensures DigitsValue(NatToString(n)) == n
    decreases n
  {
    if n >= 10 {
      var s := NatToString(n);
      assert s[..|s| - 1] == NatToString(n / 10);
      DigitsValueOfNatToString(n / 10);
    }
  }

  /** Different numbers print differently. */
  lemma NatToStringInjective(a: nat, b: nat)
    requires NatToString(a) == NatToString(b)
    ensures a == b
  {
    ParseNatToString(a);
    ParseNatToString(b);
  }

  // ---------------------------------------------------------------------
  // Substrings
  // ---------------------------------------------------------------------

  predicate StartsWith(s: string, prefix: string) {
    |prefix| <= |s| && s[..|prefix|] == prefix
  }

  /** `s.includes(t)`. */
  predicate Contains(s: string, t: string)
    decreases |s|
  {
    StartsWith(s, t) || (|s| > 0 && Contains(s[1..], t))
  }

  /** A string contains each of its own infixes. */
  lemma {:induction false} ContainsInfix(a: string, t: string, b: string)
    ensures Contains(a + t + b, t)
    decreases |a|
  {
    if a == [] {
      assert (a + t + b)[..|t|] == t;
    } else {
      assert (a + t + b)[1..] == a[1..] + t + b;
      ContainsInfix(a[1..], t, b);
    }
  }

  /** A string that does not contain the character `c` does not contain any text holding `c`. */
  lemma {:induction false} NotContainsChar(s: string, t: string, c: char)
    requires c !in s && c in t
    ensures !Contains(s, t)
    decreases |s|
  {
    if |t| <= |s| {
      var k :| 0 <= k < |t| && t[k] == c;
      assert s[k] != c;
      assert s[..|t|][k] != t[k];
    }
    if |s| > 0 {
      NotContainsChar(s[1..], t, c);
    }
  }

  // ---------------------------------------------------------------------
  // Whitespace
  // ---------------------------------------------------------------------

  /** The characters `String.prototype.trim` removes: white space and line terminators. */
  predicate IsJsWhitespace(c: char) {
    c == ' ' || c == '\t' || c == '\n' || c == '\U{B}' || c == '\U{C}' || c == '\r'
    || c == '\U{A0}' || c == '\U{1680}' || ('\U{2000}' <= c <= '\U{200A}')
    || c == '\U{2028}' || c == '\U{2029}' || c == '\U{202F}' || c == '\U{205F}'
    || c == '\U{3000}' || c == '\U{FEFF}'
  }

  /** `s.trim()` is empty: every character is whitespace (so is the empty string). */
  predicate IsBlank(s: string) {
    forall i :: 0 <= i < |s| ==> IsJsWhitespace(s[i])
  }

  // ---------------------------------------------------------------------
  // Split and join on one character
  // ---------------------------------------------------------------------

  /** `s.split(sep)` for a one-character separator: always at least one part, none holding `sep`. */
  function Split(s: string, sep: char): (parts: seq<string>)
    ensures |parts| >= 1
    ensures forall i :: 0 <= i < |parts| ==> sep !in parts[i]
    decreases |s|
  {
    if s == [] then [""]
    else
      var rest := Split(s[1..], sep);
      if s[0] == sep then [""] + rest else [[s[0]] + rest[0]] + rest[1..]
  }

  /** `parts.join(sep)`. */
  function Join(parts: seq<string>, sep: char): string
    decreases |parts|
  {
    if |parts| == 0 then ""
    else if |parts| == 1 then parts[0]
    else parts[0] + [sep] + Join(parts[1..], sep)
  }

  lemma JoinCons(p: string, ps: seq<string>, sep: char)
    requires |ps| >= 1
    ensures Join([p] + ps, sep) == p + [sep] + Join(ps, sep)
  {
    assert ([p] + ps)[1..] == ps;
  }

  /** Joining the parts of a split gives back the original text. */
  lemma {:induction false} JoinSplit(s: string, sep: char)
    ensures Join(Split(s, sep), sep) == s
    decreases |s|
  {
    if s != [] {
      var rest := Split(s[1..], sep);
      JoinSplit(s[1..], sep);
      if s[0] == sep {
        JoinCons("", rest, sep);
      } else if |rest| == 1 {
      } else {
        JoinCons([s[0]] + rest[0], rest[1..], sep);
        JoinCons(rest[0], rest[1..], sep);
        assert [rest[0]] + rest[1..] == rest;
      }
    }
  }

  lemma {:induction false} SplitNoSep(p: string, sep: char)
    requires sep !in p
    ensures Split(p, sep) == [p]
    decreases |p|
  {
    if p != [] {
      SplitNoSep(p[1..], sep);
      assert [p[0]] + p[1..] == p;
    }
  }

  lemma {:induction false} SplitAtSep(p: string, t: string, sep: char)
    requires sep !in p
    ensures Split(p + [sep] + t, sep) == [p] + Split(t, sep)
    decreases |p|
  {
    var s := p + [sep] + t;
    if p == [] {
      assert s[1..] == t;
    } else {
      assert s[1..] == p[1..] + [sep] + t;
      SplitAtSep(p[1..], t, sep);
      assert [p[0]] + p[1..] == p;
    }
  }

  /** Splitting a join of separator-free parts gives back the parts. */
  lemma {:induction false} SplitJoin(parts: seq<string>, sep: char)
    requires |parts| >= 1
    requires forall i :: 0 <= i < |parts| ==> sep !in parts[i]
    ensures Split(Join(parts, sep), sep) == parts
    decreases |parts|
  {
    if |parts| == 1 {
      SplitNoSep(parts[0], sep);
    } else {
      SplitJoin(parts[1..], sep);
      SplitAtSep(parts[0], Join(parts[1..], sep), sep);
      assert [parts[0]] + parts[1..] == parts;
    }
  }

  /** Joining a final run of the parts gives a suffix of the joined whole. */
  lemma {:induction false} JoinSuffix(parts: seq<string>, k: nat, sep: char)
    requires k < |parts|
    ensures exists m :: 0 <= m <= |Join(parts, sep)| && Join(parts, sep)[m..] == Join(parts[k..], sep)
    decreases k
  {
    var whole := Join(parts, sep);
    if k == 0 {
      assert parts[0..] == parts;
      assert whole[0..] == whole;
    } else {
      JoinSuffix(parts[1..], k - 1, sep);
      assert parts[1..][k - 1..] == parts[k..];
      var tail := Join(parts[1..], sep);
      var m :| 0 <= m <= |tail| && tail[m..] == Join(parts[k..], sep);
      var head := parts[0] + [sep];
      assert whole == head + tail;
      DropAfterPrefix(head, tail, m);
      assert whole[|head| + m..] == Join(parts[k..], sep);
    }
  }

  /** Dropping a whole prefix and then m more elements leaves the rest after m. */
  lemma DropAfterPrefix<T>(a: seq<T>, b: seq<T>, m: nat)
    requires m <= |b|
    ensures (a + b)[|a| + m..] == b[m..]
  {
  }

  // ---------------------------------------------------------------------
  // Final run of a list
  // ---------------------------------------------------------------------

  /**
   * `s.slice(-n)` for n > 0: the last min(n, |s|) elements. (`slice(-0)`
   * would be the whole list, hence the precondition.)
   */
  function Tail<T>(s: seq<T>, n: nat): (r: seq<T>)
    requires n > 0
    ensures |r| == if |s| <= n then |s| else n
    ensures forall i :: 0 <= i < |r| ==> r[i] == s[|s| - |r| + i]
  {
    if |s| <= n then s else s[|s| - n..]
  }

  /** Appending one element then keeping the last n is the same whether or not the list was already cut to n. */
  lemma TailAppend<T>(s: seq<T>, x: T, n: nat)
    requires n >= 1
    ensures Tail(Tail(s, n) + [x], n) == Tail(s + [x], n)
  {
  }

  /** Concatenation is associative; stated once so that callers need not re-prove it element by element. */
  lemma AppendAssoc<T>(a: seq<T>, b: seq<T>, c: seq<T>)
    ensures a + (b + c) == (a + b) + c
  {
  }

  /** Appending the next element of `s` to a prefix of `s` gives the next prefix. */
  lemma PrefixSnoc<T>(base: seq<T>, s: seq<T>, k: nat)
    requires k < |s|
    ensures (base + s[..k]) + [s[k]] == base + s[..k + 1]
  {
    assert s[..k + 1] == s[..k] + [s[k]];
    AppendAssoc(base, s[..k], [s[k]]);
  }
}
