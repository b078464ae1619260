/**
 * Names of the loss terms: the auxiliary layer i term `k` is renamed
 * `k + f'_{i}'`, with i written in decimal.
 */
module LossKeys {

  /** The character of one decimal digit. */
  function Digit(d: nat): (c: char)
    requires d < 10
    ensures '0' <= c <= '9'
  {
    ('0' as int + d) as char
  }

  /** `f'{n}'`: the decimal representation of n, without leading zeros. */
  function Decimal(n: nat): (s: string)
    ensures |s| >= 1 && (n >= 10 ==> |s| >= 2)
    ensures forall k :: 0 <= k < |s| ==> '0' <= s[k] <= '9'
  {
    if n < 10 then [Digit(n)] else Decimal(n / 10) + [Digit(n % 10)]
  }

  /** Distinct layer numbers are written differently. */
  lemma {:induction false} DecimalInjective(a: nat, b: nat)
    requires Decimal(a) == Decimal(b)
    ensures a == b
  {
    if a >= 10 && b >= 10 {
      var da, db := Decimal(a), Decimal(b);
      assert da[|da| - 1] == Digit(a % 10) && db[|db| - 1] == Digit(b % 10);
      assert da[..|da| - 1] == Decimal(a / 10) && db[..|db| - 1] == Decimal(b / 10);
      DecimalInjective(a / 10, b / 10);
    }
  }

  /** `key + f'_{i}'`. */
  function Suffix(key: string, i: nat): string
  {
    key + "_" + Decimal(i)
  }

  /** The separator sits right after the name, and only digits follow it. */
  lemma SuffixShape(key: string, i: nat)
    ensures |key| < |Suffix(key, i)| && Suffix(key, i)[|key|] == '_'
    ensures forall j :: |key| < j < |Suffix(key, i)| ==> '0' <= Suffix(key, i)[j] <= '9'
  {
    var s, d := Suffix(key, i), Decimal(i);
    assert forall j :: |key| < j < |s| ==> s[j] == d[j - |key| - 1];
  }

  /** A suffixed name determines both the name it came from and the layer. */
  lemma SuffixInjective(k1: string, i1: nat, k2: string, i2: nat)
    requires Suffix(k1, i1) == Suffix(k2, i2)
    ensures k1 == k2 && i1 == i2
  {
    var s, d1, d2 := Suffix(k1, i1), Decimal(i1), Decimal(i2);
    assert |k1| == |k2| by {
      SuffixShape(k1, i1);
      SuffixShape(k2, i2);
    }
    assert d1 == s[|k1| + 1..] == d2;
    assert k1 == s[..|k1|] == k2;
    DecimalInjective(i1, i2);
  }

  lemma SuffixInjectiveAt(i: nat)
    ensures forall k1, k2 :: Suffix(k1, i) == Suffix(k2, i) ==> k1 == k2
  {
    forall k1, k2 | Suffix(k1, i) == Suffix(k2, i) ensures k1 == k2 {
      SuffixInjective(k1, i, k2, i);
    }
  }

  /** A suffixed name ends in a digit, so it differs from any name that does not. */
  lemma SuffixEndsInDigit(key: string, i: nat)
    ensures |Suffix(key, i)| > 0 && '0' <= Suffix(key, i)[|Suffix(key, i)| - 1] <= '9'
  {
    var d := Decimal(i);
    assert Suffix(key, i)[|Suffix(key, i)| - 1] == d[|d| - 1];
  }

  /** `{k + f'_{i}': v for k, v in m.items()}`. */
  function Suffixed<V>(m: map<string, V>, i: nat): (r: map<string, V>)
    ensures forall k :: k in m ==> Suffix(k, i) in r && r[Suffix(k, i)] == m[k]
    ensures forall k' :: k' in r ==> exists k :: k in m && k' == Suffix(k, i)
  {
    SuffixInjectiveAt(i);
    map k | k in m :: Suffix(k, i) := m[k]
  }
}
