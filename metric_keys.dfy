/** Metric names and the `f"{metric}@{k}"` keys of the result tables. */
module MetricKeys {

  /** `str.lower()` on one character; only ASCII letters are mapped. */
  function LowerChar(c: char): char {
    if 'A' <= c <= 'Z' then (c as int + 32) as char else c
  }

  /** `str.lower()`, ASCII only. */
  function Lower(s: string): (r: string)
    ensures |r| == |s|
    ensures forall i :: 0 <= i < |r| ==> !('A' <= r[i] <= 'Z')
  {
    seq(|s|, i requires 0 <= i < |s| => LowerChar(s[i]))
  }

  /** A string without ASCII capitals is its own lower-case form. */
  lemma LowerOfLowercase(s: string)
    requires forall i :: 0 <= i < |s| ==> !('A' <= s[i] <= 'Z')
    ensures Lower(s) == s
  {
  }

  /** The decimal digit character for `d`. */
  function Digit(d: nat): char
    requires d < 10
  {
    ('0' as int + d) as char
  }

  /** `str(n)` for a natural number: its decimal digits, no leading zero. */
  function Decimal(n: nat): (r: string)
    ensures |r| >= 1
    ensures forall i :: 0 <= i < |r| ==> '0' <= r[i] <= '9'
    ensures n >= 10 <==> |r| >= 2
  {
    if n < 10 then [Digit(n)] else Decimal(n / 10) + [Digit(n % 10)]
  }

  /** Different numbers print differently. */
  lemma {:induction false} DecimalInjective(a: nat, b: nat)
    requires Decimal(a) == Decimal(b)
    ensures a == b
  {
    if a >= 10 && b >= 10 {
      var da, db := Decimal(a), Decimal(b);
      assert da[..|da| - 1] == Decimal(a / 10);
      assert db[..|db| - 1] == Decimal(b / 10);
      DecimalInjective(a / 10, b / 10);
      assert Digit(a % 10) == da[|da| - 1] == db[|db| - 1] == Digit(b % 10);
    }
  }

  /** The result-table key `f"{name}@{k}"`. */
  function Key(name: string, k: nat): string {
    name + "@" + Decimal(k)
  }

  /** For one cutoff, different names give different keys. */
  lemma SameCutoffKeys(a: string, b: string, k: nat)
    requires Key(a, k) == Key(b, k)
    ensures a == b
  {
    assert |a| == |b|;
    assert a == Key(a, k)[..|a|];
  }

  /** Position of the first '@' in `s`, or `|s|` if there is none. */
  function FirstAt(s: string): (i: nat)
    ensures i <= |s|
  {
    if s == [] || s[0] == '@' then 0 else 1 + FirstAt(s[1..])
  }

  lemma {:induction false} FirstAtOfKey(a: string, rest: string)
    requires '@' !in a
    ensures FirstAt(a + "@" + rest) == |a|
  {
    if a != [] {
      assert (a + "@" + rest)[1..] == a[1..] + "@" + rest;
      FirstAtOfKey(a[1..], rest);
    }
  }

  /** A metric name without '@' and a cutoff are recovered from their key. */
  lemma KeyInjective(a: string, ka: nat, b: string, kb: nat)
    requires '@' !in a && '@' !in b
    requires Key(a, ka) == Key(b, kb)
    ensures a == b && ka == kb
  {
    var s := Key(a, ka);
    FirstAtOfKey(a, Decimal(ka));
    FirstAtOfKey(b, Decimal(kb));
    assert |a| == |b|;
    assert a == s[..|a|] == b;
    assert Decimal(ka) == s[|a| + 1..] == Decimal(kb);
    DecimalInjective(ka, kb);
  }
}
