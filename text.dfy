/**
 * The JavaScript string operations the billing core relies on, over
 * `seq<char>`: prefix tests, `indexOf`, `split` and its inverse `join`,
 * `trim`, `Number.prototype.toString` and `parseInt` (decimal).
 */
module Text {
  import opened Wrappers

  /** String.prototype.startsWith */
  predicate StartsWith(s: string, prefix: string) {
    |prefix| <= |s| && s[..|prefix|] == prefix
  }

  /** String.prototype.includes */
  predicate Includes(s: string, t: string) {
    exists i :: 0 <= i <= |s| && StartsWith(s[i..], t)
  }

  /** The WhiteSpace and LineTerminator code points that String.prototype.trim removes. */
  predicate IsJsWhitespace(c: char) {
    || c == ' ' || c == '\t' || c == '\n' || c == '\r' || c == '\U{B}' || c == '\U{C}'
    || c == '\U{A0}' || c == '\U{FEFF}' || c == '\U{1680}' || ('\U{2000}' <= c <= '\U{200A}')
    || c == '\U{2028}' || c == '\U{2029}' || c == '\U{202F}' || c == '\U{205F}' || c == '\U{3000}'
  }

  /** The characters that `.` does not match in a JavaScript regular expression. */
  predicate IsLineTerminator(c: char) {
    c == '\n' || c == '\r' || c == '\U{2028}' || c == '\U{2029}'
  }

  /** A character beyond U+FFFF, which UTF-16 writes as a surrogate pair. */
  predicate IsAstral(c: char) {
    c as int >= 0x10000
  }

  /** JavaScript's `length` of a string: its UTF-16 code units, two for each astral character. */
  function Utf16Length(s: string): (n: nat)
    ensures |s| <= n <= 2 * |s|
  {
    if s == [] then 0 else Utf16Length(s[..|s| - 1]) + (if IsAstral(s[|s| - 1]) then 2 else 1)
  }

  /** The code units of a concatenation are those of its parts. */
  lemma {:induction false} Utf16LengthAppend(a: string, b: string)
    ensures Utf16Length(a + b) == Utf16Length(a) + Utf16Length(b)
    decreases |b|
  {
    if b == [] {
      assert a + b == a;
    } else {
      assert (a + b)[..|a + b| - 1] == a + b[..|b| - 1];
      assert (a + b)[|a + b| - 1] == b[|b| - 1];
      Utf16LengthAppend(a, b[..|b| - 1]);
    }
  }

  /** Text with no astral character has one code unit per character. */
  lemma {:induction false} Utf16LengthOfBasic(s: string)
    requires forall i :: 0 <= i < |s| ==> !IsAstral(s[i])
    ensures Utf16Length(s) == |s|
  {
    if s != [] {
      Utf16LengthOfBasic(s[..|s| - 1]);
    }
  }

  /** Text made only of astral characters has two code units per character. */
  lemma {:induction false} Utf16LengthOfAstral(s: string)
    requires forall i :: 0 <= i < |s| ==> IsAstral(s[i])
    ensures Utf16Length(s) == 2 * |s|
  {
    if s != [] {
      Utf16LengthOfAstral(s[..|s| - 1]);
    }
  }

  /** The first position from `i` on that does not hold whitespace, or the end. */
  function LeadingFrom(s: string, i: nat): (k: nat)
    requires i <= |s|
    ensures i <= k <= |s|
    ensures forall j :: i <= j < k ==> IsJsWhitespace(s[j])
    ensures k == |s| || !IsJsWhitespace(s[k])
    decreases |s| - i
  {
    if i < |s| && IsJsWhitespace(s[i]) then LeadingFrom(s, i + 1) else i
  }

  /** The end of `s[..j]` once the whitespace before `j` is dropped. */
  function TrailingTo(s: string, j: nat): (k: nat)
    requires j <= |s|
    ensures k <= j
    ensures forall i :: k <= i < j ==> IsJsWhitespace(s[i])
    ensures k == 0 || !IsJsWhitespace(s[k - 1])
  {
    if j > 0 && IsJsWhitespace(s[j - 1]) then TrailingTo(s, j - 1) else j
  }

  /** Drops leading whitespace. */
  function TrimStart(s: string): (r: string)
    ensures |r| <= |s| && r == s[|s| - |r|..]
    ensures forall i :: 0 <= i < |s| - |r| ==> IsJsWhitespace(s[i])
    ensures r == [] || !IsJsWhitespace(r[0])
  {
    s[LeadingFrom(s, 0)..]
  }

  /** Drops trailing whitespace. */
  function TrimEnd(s: string): (r: string)
    ensures |r| <= |s| && r == s[..|r|]
    ensures forall i :: |r| <= i < |s| ==> IsJsWhitespace(s[i])
    ensures r == [] || !IsJsWhitespace(r[|r| - 1])
  {
    s[..TrailingTo(s, |s|)]
  }

  /** String.prototype.trim */
  function Trim(s: string): (r: string)
    ensures r == [] || (!IsJsWhitespace(r[0]) && !IsJsWhitespace(r[|r| - 1]))
  {
    TrimEnd(TrimStart(s))
  }

  /** Array.prototype.indexOf: the first position holding `x`, or -1. */
  function IndexOf<T(==)>(s: seq<T>, x: T): (k: int)
    ensures -1 <= k < |s|
    ensures k == -1 <==> x !in s
    ensures k >= 0 ==> s[k] == x && x !in s[..k]
  {
    if s == [] then -1
    else if s[0] == x then 0
    else
      var k := IndexOf(s[1..], x);
      if k == -1 then -1
      else
        assert s[..k + 1] == [s[0]] + s[1..][..k];
        k + 1
  }

  /** Any position holding `x` with no earlier `x` is the one IndexOf finds. */
  lemma IndexOfUnique<T>(s: seq<T>, x: T, k: nat)
    requires k < |s| && s[k] == x && x !in s[..k]
    ensures IndexOf(s, x) == k
  {
  }

  function Last<T>(s: seq<T>): T
    requires |s| > 0
  {
    s[|s| - 1]
  }

  function AllButLast<T>(s: seq<T>): seq<T>
    requires |s| > 0
  {
    s[..|s| - 1]
  }

  /** String.prototype.split with a one-character separator. */
  function Split(s: string, sep: char): (parts: seq<string>)
    ensures |parts| >= 1
    ensures forall i :: 0 <= i < |parts| ==> sep !in parts[i]
    decreases |s|
  {
    var k := IndexOf(s, sep);
    if k < 0 then [s] else [s[..k]] + Split(s[k + 1..], sep)
  }

  /** Array.prototype.join with a one-character separator. */
  function Join(parts: seq<string>, sep: char): string
  {
    if |parts| == 0 then ""
    else if |parts| == 1 then parts[0]
    else parts[0] + [sep] + Join(parts[1..], sep)
  }

  /** Where the first separator sits, a split cuts off the text before it. */
  lemma SplitAt(s: string, sep: char, k: nat)
    requires k < |s| && s[k] == sep && sep !in s[..k]
    ensures Split(s, sep) == [s[..k]] + Split(s[k + 1..], sep)
  {
    IndexOfUnique(s, sep, k);
  }

  /** Joining the pieces of a split gives the string back. */
  lemma {:induction false} JoinSplit(s: string, sep: char)
    ensures Join(Split(s, sep), sep) == s
    decreases |s|
  {
    var k := IndexOf(s, sep);
    if k >= 0 {
      SplitAt(s, sep, k);
      JoinSplit(s[k + 1..], sep);
      JoinCons(s[..k], Split(s[k + 1..], sep), sep);
      assert s == s[..k] + [sep] + s[k + 1..];
    }
  }

  lemma JoinCons(first: string, rest: seq<string>, sep: char)
    requires |rest| >= 1
    ensures Join([first] + rest, sep) == first + [sep] + Join(rest, sep)
  {
    assert ([first] + rest)[1..] == rest;
  }

  lemma ConsLast<T>(x: T, s: seq<T>)
    requires |s| > 0
    ensures AllButLast([x] + s) == [x] + AllButLast(s) && Last([x] + s) == Last(s)
  {
  }

  /**
   * Splitting a concatenation: the complete pieces of `a` come first, then
   * the pieces of `a`'s unterminated tail continued by `b`.
   */
  lemma {:induction false} SplitAppend(a: string, b: string, sep: char)
    ensures Split(a + b, sep) == AllButLast(Split(a, sep)) + Split(Last(Split(a, sep)) + b, sep)
    decreases |a|
  {
    var k := IndexOf(a, sep);
    if k >= 0 {
      var ab := a + b;
      assert ab[..k] == a[..k] && ab[k + 1..] == a[k + 1..] + b;
      SplitAt(a, sep, k);
      SplitAt(ab, sep, k);
      SplitAppend(a[k + 1..], b, sep);
      var rest := Split(a[k + 1..], sep);
      ConsLast(a[..k], rest);
      assert [a[..k]] + (AllButLast(rest) + Split(Last(rest) + b, sep))
          == ([a[..k]] + AllButLast(rest)) + Split(Last(rest) + b, sep);
    }
  }

  /** Appending text that holds no separator only extends the last piece. */
  lemma SplitAppendNoSeparator(a: string, b: string, sep: char)
    requires sep !in b
    ensures AllButLast(Split(a + b, sep)) == AllButLast(Split(a, sep))
  {
    SplitAppend(a, b, sep);
    var t := Last(Split(a, sep));
    assert sep !in t + b;
    assert Split(t + b, sep) == [t + b];
  }

  predicate IsDigit(c: char) {
    '0' <= c <= '9'
  }

  predicate AllDigits(s: string) {
    forall i :: 0 <= i < |s| ==> IsDigit(s[i])
  }

  function DigitChar(d: nat): (c: char)
    requires d < 10
    ensures IsDigit(c)
  {
    ('0' as int + d) as char
  }

  /** The number a string of decimal digits denotes. */
  function DigitsValue(s: string): nat
    requires AllDigits(s)
  {
    if s == [] then 0 else DigitsValue(s[..|s| - 1]) * 10 + (s[|s| - 1] as int - '0' as int)
  }

  /** Number.prototype.toString for a non-negative integer. */
  function NatToString(n: nat): (s: string)
    ensures |s| >= 1 && AllDigits(s)
    decreases n
  {
    if n < 10 then [DigitChar(n)] else NatToString(n / 10) + [DigitChar(n % 10)]
  }

  /** Number.prototype.toString for an integer. */
  function IntToString(n: int): (s: string)
    ensures |s| >= 1
  {
    if n < 0 then "-" + NatToString(-n) else NatToString(n)
  }

  /** Reading the decimal digits of `n` back gives `n`. */
  lemma {:induction false} DigitsValueOfNatToString(n: nat)
    ensures DigitsValue(NatToString(n)) == n
    decreases n
  {
    if n >= 10 {
      DigitsValueOfNatToString(n / 10);
      var s := NatToString(n);
      assert s[..|s| - 1] == NatToString(n / 10);
    }
  }

  /** The longest prefix of decimal digits. */
  function DigitPrefix(s: string): (r: string)
    ensures AllDigits(r) && |r| <= |s| && r == s[..|r|]
    ensures |r| < |s| ==> !IsDigit(s[|r|])
  {
    if s != [] && IsDigit(s[0]) then [s[0]] + DigitPrefix(s[1..]) else []
  }

  lemma {:induction false} DigitPrefixOfDigits(s: string)
    requires AllDigits(s)
    ensures DigitPrefix(s) == s
  {
    if s != [] {
      DigitPrefixOfDigits(s[1..]);
    }
  }

  /**
   * parseInt with no radix, for decimal text: leading whitespace, an
   * optional sign, then the longest run of digits; `None` is NaN.
   */
  function ParseInt(s: string): Option<int>
  {
    ParseSigned(TrimStart(s))
  }

  /** An optional sign, then the digits. */
  function ParseSigned(t: string): Option<int>
  {
    if |t| > 0 && t[0] == '-' then Negated(ParseDigits(t[1..]))
    else if |t| > 0 && t[0] == '+' then ParseDigits(t[1..])
    else ParseDigits(t)
  }

  function Negated(n: Option<int>): Option<int> {
    if n.Some? then Some(-n.value) else None
  }

  /** The value of the longest run of leading digits, if there is one. */
  function ParseDigits(body: string): Option<int>
  {
    var digits := DigitPrefix(body);
    if digits == [] then None else Some(DigitsValue(digits))
  }

  /** Text that starts with a non-whitespace character is its own TrimStart. */
  lemma TrimStartUnchanged(s: string)
    requires |s| > 0 && !IsJsWhitespace(s[0])
    ensures TrimStart(s) == s
  {
    assert LeadingFrom(s, 0) == 0;
  }

  lemma ParseDigitsOfDigits(s: string)
    requires |s| >= 1 && AllDigits(s)
    ensures ParseDigits(s) == Some(DigitsValue(s) as int)
  {
    DigitPrefixOfDigits(s);
  }

  /** parseInt reads a run of digits as its value. */
  lemma ParseIntOfDigits(s: string)
    requires |s| >= 1 && AllDigits(s)
    ensures ParseInt(s) == Some(DigitsValue(s) as int)
  {
    assert IsDigit(s[0]);
    ParseIntUntrimmed(s);
    ParseDigitsOfDigits(s);
  }

  /** parseInt reads a minus sign before digits as the negated value of those digits. */
  lemma ParseIntOfNegativeDigits(s: string, v: int)
    requires |s| >= 1 && ParseDigits(s) == Some(v)
    ensures ParseInt("-" + s) == Some(-v)
  {
    var t := "-" + s;
    assert t[0] == '-' && t[1..] == s;
    ParseIntOfSigned(t, v);
  }

  lemma ParseIntOfSigned(t: string, v: int)
    requires |t| > 0 && t[0] == '-' && ParseDigits(t[1..]) == Some(v)
    ensures ParseInt(t) == Some(-v)
  {
    ParseSignedNegative(t, v);
    ParseIntUntrimmed(t);
  }

  lemma ParseSignedNegative(t: string, v: int)
    requires |t| > 0 && t[0] == '-' && ParseDigits(t[1..]) == Some(v)
    ensures ParseSigned(t) == Some(-v)
  {
  }

  /** Text with no leading whitespace is read as it stands. */
  lemma ParseIntUntrimmed(t: string)
    requires |t| > 0 && !IsJsWhitespace(t[0])
    ensures ParseInt(t) == ParseSigned(t)
  {
    TrimStartUnchanged(t);
  }

  /** parseInt reads back what toString wrote. */
  lemma ParseIntOfNatToString(n: nat)
    ensures ParseInt(NatToString(n)) == Some(n as int)
  {
    ParseIntOfDigits(NatToString(n));
    DigitsValueOfNatToString(n);
  }

  /** parseInt reads back what toString wrote, negative numbers included. */
  lemma ParseIntOfIntToString(n: int)
    ensures ParseInt(IntToString(n)) == Some(n)
  {
    if n < 0 {
      ParseIntOfNegative(-n);
    } else {
      ParseIntOfNatToString(n);
    }
  }

  lemma ParseIntOfNegative(m: nat)
    requires m > 0
    ensures ParseInt("-" + NatToString(m)) == Some(-(m as int))
  {
    ParseDigitsOfDigits(NatToString(m));
    DigitsValueOfNatToString(m);
    ParseIntOfNegativeDigits(NatToString(m), m);
  }

  /** Distinct numbers have distinct decimal texts. */
  lemma NatToStringInjective(m: nat, n: nat)
    requires NatToString(m) == NatToString(n)
    ensures m == n
  {
    DigitsValueOfNatToString(m);
    DigitsValueOfNatToString(n);
  }

  /** A record id made from a prefix and a clock reading, as `'user_' + Date.now()` does. */
  function MakeId(prefix: string, n: nat): (id: string)
    ensures StartsWith(id, prefix) && |id| > |prefix|
  {
    prefix + NatToString(n)
  }

  /** The clock reading an id was made from, if it was made with `prefix`. */
  function IdNumber(prefix: string, id: string): Option<nat>
  {
    if StartsWith(id, prefix) && |id| > |prefix| && AllDigits(id[|prefix|..])
    then Some(DigitsValue(id[|prefix|..]))
    else None
  }

  lemma IdNumberOfMakeId(prefix: string, n: nat)
    ensures IdNumber(prefix, MakeId(prefix, n)) == Some(n)
  {
    var id := MakeId(prefix, n);
    assert id[|prefix|..] == NatToString(n);
    DigitsValueOfNatToString(n);
  }

  /** The ids made with `prefix` from the clock readings below `clock`. */
  ghost function IdsBefore(prefix: string, clock: nat): set<string> {
    set n: nat | n < clock :: MakeId(prefix, n)
  }

  /** Every id in `ids` was made with `prefix` from a reading below `clock`. */
  ghost predicate IdsBelow(ids: set<string>, prefix: string, clock: nat) {
    ids <= IdsBefore(prefix, clock)
  }

  /** Distinct clock readings make distinct ids. */
  lemma MakeIdInjective(prefix: string, m: nat, n: nat)
    requires MakeId(prefix, m) == MakeId(prefix, n)
    ensures m == n
  {
    assert MakeId(prefix, m)[|prefix|..] == NatToString(m);
    assert MakeId(prefix, n)[|prefix|..] == NatToString(n);
    NatToStringInjective(m, n);
  }

  /** Hence the id made from `clock` itself is new. */
  lemma FreshId(ids: set<string>, prefix: string, clock: nat)
    requires IdsBelow(ids, prefix, clock)
    ensures MakeId(prefix, clock) !in ids
    ensures IdsBelow(ids + {MakeId(prefix, clock)}, prefix, clock + 1)
  {
    forall n: nat | n < clock
      ensures MakeId(prefix, n) != MakeId(prefix, clock)
    {
      if MakeId(prefix, n) == MakeId(prefix, clock) {
        MakeIdInjective(prefix, n, clock);
      }
    }
    IdsBelowLater(ids, prefix, clock, clock + 1);
    assert MakeId(prefix, clock) in IdsBefore(prefix, clock + 1);
  }

  /** A bound that holds for one clock reading holds for every later one. */
  lemma IdsBelowLater(ids: set<string>, prefix: string, clock: nat, later: nat)
    requires IdsBelow(ids, prefix, clock) && clock <= later
    ensures IdsBelow(ids, prefix, later)
  {
    forall id | id in IdsBefore(prefix, clock)
      ensures id in IdsBefore(prefix, later)
    {
      var n: nat :| n < clock && MakeId(prefix, n) == id;
      assert n < later;
    }
  }
}
