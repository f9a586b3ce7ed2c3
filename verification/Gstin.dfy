/** The check character of a GSTIN: a Luhn sum modulo 36, and which typing errors it catches. */
module Gstin {
  /** Position in GST_CHARS: digits, then capital letters. */
  function Value(c: char): (v: int)
  {
    if '0' <= c <= '9' then c as int - '0' as int else if 'A' <= c <= 'Z' then c as int - 'A' as int + 10 else -1
  }

  predicate Digit(c: char) { '0' <= c <= '9' }

  predicate Letter(c: char) { 'A' <= c <= 'Z' }

  predicate InAlphabet(s: string) {
    forall i :: 0 <= i < |s| ==> Digit(s[i]) || Letter(s[i])
  }

  /** [0-9]{2}[A-Z]{5}[0-9]{4}[A-Z][1-9A-Z]Z[0-9A-Z] */
  predicate Format(s: string) {
    && |s| == 15
    && (forall i :: 0 <= i < 2 ==> Digit(s[i]))
    && (forall i :: 2 <= i < 7 ==> Letter(s[i]))
    && (forall i :: 7 <= i < 11 ==> Digit(s[i]))
    && Letter(s[11])
    && (Letter(s[12]) || (Digit(s[12]) && s[12] != '0'))
    && s[13] == 'Z'
    && (Digit(s[14]) || Letter(s[14]))
  }

  /** The base-36 digits of factor * v, added up, in closed form. */
  function Share(factor: int, v: int): int {
    if factor == 1 then v else if v < 18 then 2 * v else 2 * v - 35
  }

  lemma ShareIsDigitSum(factor: int, v: int)
    requires (factor == 1 || factor == 2) && 0 <= v < 36
    ensures factor * v / 36 + factor * v % 36 == Share(factor, v)
  {
  }

  /** Sum over the string from its last character, which has weight `factor`, with weights 1 and 2 in turn. */
  function Sum(s: string, factor: int): int {
    if s == [] then 0 else Share(factor, Value(s[|s| - 1])) + Sum(s[..|s| - 1], 3 - factor)
  }

  /** The check loop accepts: the check character weighs 1. */
  predicate Checks(s: string) {
    |s| > 0 && Sum(s, 1) % 36 == 0
  }

  predicate Accepted(s: string) {
    Format(s) && Checks(s)
  }

  function Character(v: int): (c: char)
    requires 0 <= v < 36
    ensures Value(c) == v && (Digit(c) || Letter(c))
  {
    if v < 10 then '0' + v as char else 'A' + (v - 10) as char
  }

  method GstinChecksum(value: string) returns (ok: bool)
    ensures ok <==> Accepted(value)
  {
    if !Format(value) {
      return false;
    }
    var prefix := value[..14];
    assert prefix[..14] == prefix;
    var factor, total := 2, 0;
    for i := 14 downto 0
      invariant factor == 1 || factor == 2
      invariant total + Sum(prefix[..i], factor) == Sum(prefix, 2)
    {
      var product := factor * Value(prefix[i]);
      ShareIsDigitSum(factor, Value(prefix[i]));
      assert prefix[..i + 1][..i] == prefix[..i] && prefix[..i + 1][i] == prefix[i];
      total := total + product / 36 + product % 36;
      factor := if factor == 2 then 1 else 2;
    }
    assert Sum(value, 1) == Share(1, Value(value[14])) + total;
    var check := (36 - total % 36) % 36;
    ok := Character(check) == value[14];
    CheckMeans(total, value[14]);
  }

  lemma CheckMeans(total: int, c: char)
    requires Digit(c) || Letter(c)
    ensures Character((36 - total % 36) % 36) == c <==> (Value(c) + total) % 36 == 0
  {
  }

  lemma CharacterIsUnique(v: int, c: char)
    requires 0 <= v < 36 && (Digit(c) || Letter(c))
    ensures Character(v) == c <==> Value(c) == v
  {
  }

  // ---- what one change does to the sum -----------------------------------------------------------------------

  function Weight(n: nat, i: nat, factor: int): int
    requires i < n
  {
    if (n - 1 - i) % 2 == 0 then factor else 3 - factor
  }

  lemma {:induction false} SumUpdate(s: string, i: nat, c: char, factor: int)
    requires i < |s|
    ensures Sum(s[i := c], factor) - Sum(s, factor)
            == Share(Weight(|s|, i, factor), Value(c)) - Share(Weight(|s|, i, factor), Value(s[i]))
  {
    var n := |s|;
    var t := s[i := c];
    if i == n - 1 {
      assert t[..n - 1] == s[..n - 1];
    } else {
      assert t[..n - 1] == s[..n - 1][i := c];
      SumUpdate(s[..n - 1], i, c, 3 - factor);
    }
  }

  /** Either weight permutes the 36 values. */
  lemma SharesDiffer(factor: int, v: int, w: int)
    requires (factor == 1 || factor == 2) && 0 <= v < 36 && 0 <= w < 36 && v != w
    ensures -35 <= Share(factor, v) - Share(factor, w) <= 35 && Share(factor, v) != Share(factor, w)
  {
  }

  lemma ValueInjective(c: char, d: char)
    requires (Digit(c) || Letter(c)) && (Digit(d) || Letter(d)) && c != d
    ensures Value(c) != Value(d) && 0 <= Value(c) < 36 && 0 <= Value(d) < 36
  {
  }

  lemma NotBoth(a: int, b: int)
    requires -35 <= b - a <= 35 && a != b
    ensures !(a % 36 == 0 && b % 36 == 0)
  {
  }

  /** No single wrong character, wherever it stands, passes the check. */
  lemma SubstitutionIsCaught(s: string, i: nat, c: char)
    requires InAlphabet(s) && Checks(s) && i < |s| && (Digit(c) || Letter(c)) && c != s[i]
    ensures !Checks(s[i := c])
  {
    var w := Weight(|s|, i, 1);
    SumUpdate(s, i, c, 1);
    ValueInjective(c, s[i]);
    SharesDiffer(w, Value(c), Value(s[i]));
    NotBoth(Sum(s, 1), Sum(s[i := c], 1));
  }

  /** Every prefix has exactly one check character. */
  lemma CheckCharacterExists(prefix: string)
    ensures exists c :: (Digit(c) || Letter(c)) && Checks(prefix + [c])
    ensures forall c, d :: (Digit(c) || Letter(c)) && (Digit(d) || Letter(d)) && Checks(prefix + [c]) && Checks(prefix + [d]) ==> c == d
  {
    var v := (36 - Sum(prefix, 2) % 36) % 36;
    forall c | Digit(c) || Letter(c) ensures Checks(prefix + [c]) <==> c == Character(v) {
      assert (prefix + [c])[..|prefix|] == prefix;
      assert Sum(prefix + [c], 1) == Value(c) + Sum(prefix, 2);
      CharacterIsUnique(v, c);
    }
    assert Checks(prefix + [Character(v)]);
  }

  // ---- swapping neighbours -----------------------------------------------------------------------------------------

  function Swapped(s: string, i: nat): string
    requires i + 1 < |s|
  {
    s[i := s[i + 1]][i + 1 := s[i]]
  }

  /** The pair that the doubling maps to neighbours 36 apart. */
  predicate ZeroAndZ(c: char, d: char) {
    (c == '0' && d == 'Z') || (c == 'Z' && d == '0')
  }

  lemma SwapShift(w: int, a: int, b: int)
    requires (w == 1 || w == 2) && 0 <= a < 36 && 0 <= b < 36
    ensures var d := Share(w, b) - Share(w, a) + Share(3 - w, a) - Share(3 - w, b);
      d % 36 == 0 <==> a == b || (a == 0 && b == 35) || (a == 35 && b == 0)
  {
  }

  lemma WeightAlternates(n: nat, i: nat)
    requires i + 1 < n
    ensures Weight(n, i + 1, 1) == 3 - Weight(n, i, 1)
  {
  }

  lemma SumSwapped(s: string, i: nat)
    requires i + 1 < |s|
    ensures var w := Weight(|s|, i, 1);
      var a, b := Value(s[i]), Value(s[i + 1]);
      Sum(Swapped(s, i), 1) == Sum(s, 1) + (Share(w, b) - Share(w, a) + Share(3 - w, a) - Share(3 - w, b))
  {
    SwapAsTwoUpdates(s, i, s[i], s[i + 1], s[i := s[i + 1]]);
  }

  lemma SwapAsTwoUpdates(s: string, i: nat, c: char, d: char, t: string)
    requires i + 1 < |s| && c == s[i] && d == s[i + 1] && t == s[i := d]
    ensures var w := Weight(|s|, i, 1);
      var a, b := Value(c), Value(d);
      Sum(t[i + 1 := c], 1) == Sum(s, 1) + (Share(w, b) - Share(w, a) + Share(3 - w, a) - Share(3 - w, b))
  {
    WeightAlternates(|s|, i);
    SumUpdate(s, i, d, 1);
    assert t[i + 1] == d && |t| == |s|;
    SumUpdate(t, i + 1, c, 1);
  }

  lemma ShiftKeepsZero(a: int, d: int)
    requires a % 36 == 0
    ensures (a + d) % 36 == 0 <==> d % 36 == 0
  {
  }

  /** The sum alone lets the swap of two different neighbours pass exactly when they are 0 and Z. */
  lemma SwapIsCaught(s: string, i: nat)
    requires InAlphabet(s) && Checks(s) && i + 1 < |s| && s[i] != s[i + 1]
    ensures Checks(Swapped(s, i)) <==> ZeroAndZ(s[i], s[i + 1])
  {
    var w := Weight(|s|, i, 1);
    var a, b := Value(s[i]), Value(s[i + 1]);
    SumSwapped(s, i);
    SwapShift(w, a, b);
    ValueInjective(s[i], s[i + 1]);
    ShiftKeepsZero(Sum(s, 1), Share(w, b) - Share(w, a) + Share(3 - w, a) - Share(3 - w, b));
    assert |Swapped(s, i)| == |s|;
  }

  /** The format rules that pair out: the whole validator rejects every swap of two different neighbours. */
  lemma NoSwapIsAccepted(s: string, i: nat)
    requires Accepted(s) && i + 1 < |s| && s[i] != s[i + 1]
    ensures !Accepted(Swapped(s, i))
  {
    assert InAlphabet(s);
    SwapIsCaught(s, i);
    if ZeroAndZ(s[i], s[i + 1]) {
      var t := Swapped(s, i);
      assert t[i] == s[i + 1] && t[i + 1] == s[i];
    }
  }

  lemma NoSubstitutionIsAccepted(s: string, i: nat, c: char)
    requires Accepted(s) && i < |s| && c != s[i]
    ensures !Accepted(s[i := c])
  {
    assert InAlphabet(s);
    if Digit(c) || Letter(c) {
      SubstitutionIsCaught(s, i, c);
    } else {
      assert s[i := c][i] == c;
    }
  }
}
