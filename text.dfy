/** The pieces of Go's `strings` and `strconv` packages that the crawler and
    the bot apply to text: decimal conversion (Atoi, Itoa) and the trimming,
    searching and replacing functions. Strings are sequences of runes. */
module Text {
  import opened Model

  // ---------------------------------------------------------------------
  // Decimal numbers (strconv.Atoi, strconv.Itoa / fmt "%d")
  // ---------------------------------------------------------------------

  const MaxInt64: int := 0x7fff_ffff_ffff_ffff
  const MinInt64: int := -0x8000_0000_0000_0000
  const MaxUint64: int := 0xffff_ffff_ffff_ffff

  predicate IsDigit(c: char) { '0' <= c <= '9' }

  predicate AllDigits(s: string) { forall i :: 0 <= i < |s| ==> IsDigit(s[i]) }

  /** The value of a string of decimal digits. */
  function DigitsValue(s: string): nat
    requires AllDigits(s)
  {
    if s == [] then 0 else DigitsValue(s[..|s| - 1]) * 10 + (s[|s| - 1] - '0') as nat
  }

  /** Length of the longest prefix of `s` made of decimal digits. */
  function DigitPrefix(s: string): (n: nat)
    ensures n <= |s| && AllDigits(s[..n])
    ensures n < |s| ==> !IsDigit(s[n])
  {
    if s == [] || !IsDigit(s[0]) then 0
    else
      var n := 1 + DigitPrefix(s[1..]);
      assert s[..n] == [s[0]] + s[1..][..n - 1];
      n
  }

  datatype NumError = ErrSyntax | ErrRange

  /** What `strconv.Atoi` hands back: the int it assigns (0 on a syntax
      error, the clamped bound on a range error) and the error, if any. */
  datatype AtoiResult = AtoiResult(value: int, err: Option<NumError>)

  /** strconv.Atoi on a 64-bit platform: an optional sign, then base-10 digits
      (no underscores), the value within int64. As in Go, an overflow that is
      reached before the first non-digit is a range error. */
  function Atoi(s: string): (r: AtoiResult)
    ensures MinInt64 <= r.value <= MaxInt64
    ensures r.err.Some? && r.err.value == ErrSyntax ==> r.value == 0
  {
    var neg := |s| > 0 && s[0] == '-';
    var u := if |s| > 0 && (s[0] == '-' || s[0] == '+') then s[1..] else s;
    if u == [] then AtoiResult(0, Some(ErrSyntax))
    else
      var p := u[..DigitPrefix(u)];
      var v: int := DigitsValue(p);
      if v > MaxUint64 then AtoiResult(if neg then MinInt64 else MaxInt64, Some(ErrRange))
      else if |p| < |u| then AtoiResult(0, Some(ErrSyntax))
      else if !neg && v > MaxInt64 then AtoiResult(MaxInt64, Some(ErrRange))
      else if neg && v > -MinInt64 then AtoiResult(MinInt64, Some(ErrRange))
      else AtoiResult(if neg then -v else v, None)
  }

  function DigitChar(d: nat): char
    requires d < 10
  {
    ('0' as int + d) as char
  }

  /** The decimal digits of a natural number, most significant first. */
  function Digits(n: nat): (s: string)
    ensures |s| > 0 && AllDigits(s)
  {
    if n < 10 then [DigitChar(n)] else Digits(n / 10) + [DigitChar(n % 10)]
  }

  /** strconv.Itoa, which is also what fmt's "%d" prints. */
  function Itoa(n: int): (s: string)
    ensures |s| > 0
  {
    if n < 0 then "-" + Digits(-n) else Digits(n)
  }

  lemma {:induction false} DigitsValueOfDigits(n: nat)
    ensures DigitsValue(Digits(n)) == n
  {
    if n >= 10 {
      var s := Digits(n);
      assert s[..|s| - 1] == Digits(n / 10);
      DigitsValueOfDigits(n / 10);
    }
  }

  lemma {:induction false} DigitPrefixOfDigits(s: string)
    requires AllDigits(s)
    ensures DigitPrefix(s) == |s|
  {
    if s != [] {
      DigitPrefixOfDigits(s[1..]);
    }
  }

  /** Atoi reads back exactly what Itoa prints, for every int64. */
  lemma AtoiItoa(n: int)
    requires MinInt64 <= n <= MaxInt64
    ensures Atoi(Itoa(n)) == AtoiResult(n, None)
  {
    var m: nat := if n < 0 then -n else n;
    var d := Digits(m);
    DigitsValueOfDigits(m);
    DigitPrefixOfDigits(d);
    assert d[..|d|] == d;
    if n < 0 {
      assert Itoa(n)[1..] == d;
    } else {
      assert Itoa(n) == d && IsDigit(d[0]);
    }
  }

  /** The text after an optional leading sign. */
  function Unsigned(s: string): string {
    if |s| > 0 && (s[0] == '-' || s[0] == '+') then s[1..] else s
  }

  /** The texts strconv.Atoi accepts: an optional sign, then one or more
      decimal digits (leading zeros allowed) whose value fits int64. */
  predicate Int64Text(s: string) {
    var u := Unsigned(s);
    u != [] && AllDigits(u) &&
    (if s[0] == '-' then DigitsValue(u) <= -MinInt64 else DigitsValue(u) <= MaxInt64)
  }

  /** The value such a text denotes. */
  function Int64Value(s: string): int
    requires Int64Text(s)
  {
    if s[0] == '-' then -(DigitsValue(Unsigned(s)) as int) else DigitsValue(Unsigned(s))
  }

  /** Atoi succeeds exactly on the int64 texts, with the value they denote;
      every other text ("", "+", " 12", "1a2", too many digits) is an error. */
  lemma AtoiExactly(s: string)
    ensures Atoi(s).err.None? <==> Int64Text(s)
    ensures Int64Text(s) ==> Atoi(s).value == Int64Value(s)
  {
    var u := Unsigned(s);
    assert u[..|u|] == u;
    if AllDigits(u) {
      DigitPrefixOfDigits(u);
    }
  }

  /** Text whose last rune is not a digit is never a number. */
  lemma AtoiRejectsTrailingNonDigit(s: string)
    requires s != [] && !IsDigit(s[|s| - 1])
    ensures Atoi(s).err.Some?
  {
    var u := if s[0] == '-' || s[0] == '+' then s[1..] else s;
    if u != [] {
      assert u[|u| - 1] == s[|s| - 1];
      assert u[..|u|] == u && !AllDigits(u);
      assert DigitPrefix(u) < |u|;
    }
  }

  // ---------------------------------------------------------------------
  // strings.HasPrefix, HasSuffix, TrimSuffix, Contains
  // ---------------------------------------------------------------------

  predicate HasPrefix(s: string, prefix: string) {
    |prefix| <= |s| && s[..|prefix|] == prefix
  }

  predicate HasSuffix(s: string, suffix: string) {
    |suffix| <= |s| && s[|s| - |suffix|..] == suffix
  }

  /** strings.TrimSuffix: drop one copy of `suffix` if `s` ends with it. */
  function TrimSuffix(s: string, suffix: string): (r: string)
    ensures HasSuffix(s, suffix) ==> r + suffix == s
    ensures !HasSuffix(s, suffix) ==> r == s
  {
    if HasSuffix(s, suffix) then s[..|s| - |suffix|] else s
  }

  /** `sub` occurs in `s` starting at position `i`. */
  predicate OccursAt(sub: string, s: string, i: int) {
    0 <= i <= |s| - |sub| && s[i..i + |sub|] == sub
  }

  /** `sub` occurs in `s` at some position. */
  ghost predicate Occurs(sub: string, s: string) {
    exists i :: OccursAt(sub, s, i)
  }

  /** strings.Contains: a left-to-right scan for `sub`. */
  function Contains(s: string, sub: string): bool
    decreases |s|
  {
    if HasPrefix(s, sub) then true
    else if s == [] then false
    else Contains(s[1..], sub)
  }

  /** An occurrence in the tail of `s` is an occurrence in `s`. */
  lemma OccursInTail(s: string, sub: string)
    requires s != []
    ensures Occurs(sub, s[1..]) ==> Occurs(sub, s)
  {
    if Occurs(sub, s[1..]) {
      var i :| OccursAt(sub, s[1..], i);
      assert s[i + 1..i + 1 + |sub|] == s[1..][i..i + |sub|];
      assert OccursAt(sub, s, i + 1);
    }
  }

  /** Contains answers true exactly when `sub` occurs somewhere in `s`. */
  lemma {:induction false} ContainsOccurs(s: string, sub: string)
    ensures Contains(s, sub) <==> Occurs(sub, s)
    decreases |s|
  {
    if HasPrefix(s, sub) {
      assert OccursAt(sub, s, 0);
    } else if s != [] {
      ContainsOccurs(s[1..], sub);
      OccursInTail(s, sub);
      if Occurs(sub, s) {
        var i :| OccursAt(sub, s, i);
        if i > 0 {
          assert s[1..][i - 1..i - 1 + |sub|] == s[i..i + |sub|];
          assert OccursAt(sub, s[1..], i - 1);
        }
      }
    }
  }

  // ---------------------------------------------------------------------
  // strings.TrimLeft, TrimRight, TrimSpace: these remove every leading or
  // trailing rune that belongs to a SET, not a fixed prefix or suffix.
  // ---------------------------------------------------------------------

  /** strings.TrimLeft(s, cutset). */
  function TrimLeft(s: string, cutset: string): (r: string)
    ensures |r| <= |s|
  {
    if s != [] && s[0] in cutset then TrimLeft(s[1..], cutset) else s
  }

  /** TrimLeft removes the longest prefix made of cutset runes, and only it. */
  lemma {:induction false} TrimLeftTrims(s: string, cutset: string)
    ensures TrimLeft(s, cutset) == s[|s| - |TrimLeft(s, cutset)|..]
    ensures forall i :: 0 <= i < |s| - |TrimLeft(s, cutset)| ==> s[i] in cutset
    ensures TrimLeft(s, cutset) != [] ==> TrimLeft(s, cutset)[0] !in cutset
  {
    if s != [] && s[0] in cutset {
      TrimLeftTrims(s[1..], cutset);
    }
  }

  /** TrimLeft cuts a run of cutset runes and stops at the first rune that
      is not in the cutset. */
  lemma {:induction false} TrimLeftStops(p: string, rest: string, cutset: string)
    requires forall i :: 0 <= i < |p| ==> p[i] in cutset
    requires rest != [] && rest[0] !in cutset
    ensures TrimLeft(p + rest, cutset) == rest
  {
    if p != [] {
      assert (p + rest)[1..] == p[1..] + rest;
      TrimLeftStops(p[1..], rest, cutset);
    }
  }

  /** strings.TrimRight(s, cutset). */
  function TrimRight(s: string, cutset: string): (r: string)
    ensures |r| <= |s|
  {
    if s != [] && s[|s| - 1] in cutset then TrimRight(s[..|s| - 1], cutset) else s
  }

  /** TrimRight removes the longest suffix made of cutset runes, and only it. */
  lemma {:induction false} TrimRightTrims(s: string, cutset: string)
    ensures TrimRight(s, cutset) == s[..|TrimRight(s, cutset)|]
    ensures forall i :: |TrimRight(s, cutset)| <= i < |s| ==> s[i] in cutset
    ensures TrimRight(s, cutset) != [] ==> TrimRight(s, cutset)[|TrimRight(s, cutset)| - 1] !in cutset
  {
    if s != [] && s[|s| - 1] in cutset {
      TrimRightTrims(s[..|s| - 1], cutset);
    }
  }

  /** unicode.IsSpace. */
  predicate IsSpace(c: char) {
    c == '\t' || c == '\n' || c == '\U{000B}' || c == '\U{000C}' || c == '\r' || c == ' '
    || c == '\U{0085}' || c == '\U{00A0}' || c == '\U{1680}'
    || ('\U{2000}' <= c <= '\U{200A}')
    || c == '\U{2028}' || c == '\U{2029}' || c == '\U{202F}' || c == '\U{205F}' || c == '\U{3000}'
  }

  function TrimSpaceLeft(s: string): (r: string)
    ensures |r| <= |s|
  {
    if s != [] && IsSpace(s[0]) then TrimSpaceLeft(s[1..]) else s
  }

  lemma {:induction false} TrimSpaceLeftTrims(s: string)
    ensures TrimSpaceLeft(s) == s[|s| - |TrimSpaceLeft(s)|..]
    ensures forall i :: 0 <= i < |s| - |TrimSpaceLeft(s)| ==> IsSpace(s[i])
    ensures TrimSpaceLeft(s) != [] ==> !IsSpace(TrimSpaceLeft(s)[0])
  {
    if s != [] && IsSpace(s[0]) {
      TrimSpaceLeftTrims(s[1..]);
    }
  }

  function TrimSpaceRight(s: string): (r: string)
    ensures |r| <= |s|
  {
    if s != [] && IsSpace(s[|s| - 1]) then TrimSpaceRight(s[..|s| - 1]) else s
  }

  lemma {:induction false} TrimSpaceRightTrims(s: string)
    ensures TrimSpaceRight(s) == s[..|TrimSpaceRight(s)|]
    ensures forall i :: |TrimSpaceRight(s)| <= i < |s| ==> IsSpace(s[i])
    ensures TrimSpaceRight(s) != [] ==> !IsSpace(TrimSpaceRight(s)[|TrimSpaceRight(s)| - 1])
  {
    if s != [] && IsSpace(s[|s| - 1]) {
      TrimSpaceRightTrims(s[..|s| - 1]);
    }
  }

  /** strings.TrimSpace. */
  function TrimSpace(s: string): (r: string)
    ensures |r| <= |s|
  {
    TrimSpaceRight(TrimSpaceLeft(s))
  }

  /** TrimSpace leaves no white space at either end, and what it leaves is a
      contiguous piece of `s` from which only white space was cut. */
  lemma TrimSpaceTrims(s: string)
    ensures (TrimSpace(s) != [] ==> !IsSpace(TrimSpace(s)[0]) && !IsSpace(TrimSpace(s)[|TrimSpace(s)| - 1]))
    ensures Occurs(TrimSpace(s), s)
  {
    var l := TrimSpaceLeft(s);
    var r := TrimSpaceRight(l);
    TrimSpaceLeftTrims(s);
    TrimSpaceRightTrims(l);
    assert s[|s| - |l|..|s| - |l| + |r|] == r;
    assert OccursAt(r, s, |s| - |l|);
  }

  /** Text with no white space at either end is left as it is. */
  lemma TrimSpaceKeepsTrimmed(s: string)
    requires s != [] ==> !IsSpace(s[0]) && !IsSpace(s[|s| - 1])
    ensures TrimSpace(s) == s
  {
  }

  // ---------------------------------------------------------------------
  // strings.Replace(s, old, new, -1), strings.ToLower
  // ---------------------------------------------------------------------

  /** strings.Replace with n = -1: every non-overlapping occurrence of `pat`,
      scanning from the left, is replaced by `rep`. */
  function ReplaceAll(s: string, pat: string, rep: string): string
    requires pat != []
    decreases |s|
  {
    if s == [] then []
    else if HasPrefix(s, pat) then rep + ReplaceAll(s[|pat|..], pat, rep)
    else [s[0]] + ReplaceAll(s[1..], pat, rep)
  }

  /** Text in which `pat` does not occur comes back unchanged. */
  lemma {:induction false} ReplaceAllAbsent(s: string, pat: string, rep: string)
    requires pat != [] && !Occurs(pat, s)
    ensures ReplaceAll(s, pat, rep) == s
    decreases |s|
  {
    if s != [] {
      assert !OccursAt(pat, s, 0);
      OccursInTail(s, pat);
      ReplaceAllAbsent(s[1..], pat, rep);
    }
  }

  /** Text that starts with `pat` starts with `rep` after the replacement. */
  lemma ReplaceAllLeading(s: string, pat: string, rep: string)
    requires pat != [] && HasPrefix(s, pat)
    ensures HasPrefix(ReplaceAll(s, pat, rep), rep)
  {
  }

  function LowerChar(c: char): char {
    if 'A' <= c <= 'Z' then (c as int + 32) as char else c
  }

  /** strings.ToLower, for the ASCII letters. */
  function ToLower(s: string): (r: string)
    ensures |r| == |s|
    ensures forall i :: 0 <= i < |s| ==> r[i] == LowerChar(s[i])
  {
    seq(|s|, i requires 0 <= i < |s| => LowerChar(s[i]))
  }
}
