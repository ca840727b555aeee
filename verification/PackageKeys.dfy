/** Fresh package keys: a slug, or the slug with the least free numeric suffix from 2 on. */
module PackageKeys {
  import opened Collections

  const DIGITS := "0123456789"

  /** A number as its decimal digits. */
  function Decimal(n: nat): string {
    if n < 10 then [DIGITS[n]] else Decimal(n / 10) + [DIGITS[n % 10]]
  }

  lemma {:induction false} DecimalInjective(a: nat, b: nat)
    requires Decimal(a) == Decimal(b)
    ensures a == b
    decreases a
  {
    var s, t := Decimal(a), Decimal(b);
    assert s[|s| - 1] == DIGITS[a % 10] && t[|t| - 1] == DIGITS[b % 10];
    assert |Decimal(a / 10)| > 0 && |Decimal(b / 10)| > 0;
    if a >= 10 && b >= 10 {
      assert Decimal(a / 10) == s[..|s| - 1] && Decimal(b / 10) == t[..|t| - 1];
      DecimalInjective(a / 10, b / 10);
    }
  }

  /** The keys tried for a stem, in order: the stem itself, then stem-2, stem-3, … */
  function Candidate(stem: string, n: nat): string {
    if n == 0 then stem else stem + "-" + Decimal(n + 1)
  }

  lemma CandidateInjective(stem: string, m: nat, n: nat)
    requires Candidate(stem, m) == Candidate(stem, n)
    ensures m == n
  {
    var s, t := Candidate(stem, m), Candidate(stem, n);
    assert m > 0 ==> |s| > |stem|;
    assert n > 0 ==> |t| > |stem|;
    if m > 0 && n > 0 {
      assert s[|stem| + 1..] == Decimal(m + 1) && t[|stem| + 1..] == Decimal(n + 1);
      DecimalInjective(m + 1, n + 1);
    }
  }

  /** The first `n` candidates. */
  ghost function Tried(stem: string, n: nat): (r: set<string>)
    ensures forall k :: k in r <==> exists m :: 0 <= m < n && k == Candidate(stem, m)
  {
    if n == 0 then {} else Tried(stem, n - 1) + {Candidate(stem, n - 1)}
  }

  lemma {:induction false} TriedCount(stem: string, n: nat)
    ensures |Tried(stem, n)| == n
  {
    if n > 0 {
      TriedCount(stem, n - 1);
      if Candidate(stem, n - 1) in Tried(stem, n - 1) {
        var m :| 0 <= m < n - 1 && Candidate(stem, n - 1) == Candidate(stem, m);
        CandidateInjective(stem, m, n - 1);
      }
    }
  }

  /** A finite set of used keys cannot hold more candidates than it has members. */
  lemma SomeCandidateIsFree(stem: string, used: set<string>, n: nat)
    requires forall m :: 0 <= m < n ==> Candidate(stem, m) in used
    ensures n <= |used|
  {
    TriedCount(stem, n);
    SubsetSize(Tried(stem, n), used);
  }

  function Stem(slug: string -> string, value: string, fallback: string): string {
    if slug(value) == "" then fallback else slug(value)
  }

  /** `key` is the first candidate that is not used. */
  ghost predicate FirstFree(stem: string, used: set<string>, key: string) {
    exists n :: FirstFreeAt(stem, used, n) && key == Candidate(stem, n)
  }

  ghost predicate FirstFreeAt(stem: string, used: set<string>, n: nat) {
    Candidate(stem, n) !in used && forall m :: 0 <= m < n ==> Candidate(stem, m) in used
  }

  /** `portableKey`: the suffix loop ends because the used keys are finitely many. */
  method PortableKey(slug: string -> string, value: string, fallback: string, used: set<string>)
    returns (key: string, now: set<string>)
    ensures FirstFree(Stem(slug, value, fallback), used, key)
    ensures key !in used && now == used + {key}
  {
    var stem := Stem(slug, value, fallback);
    key := stem;
    var suffix := 2;
    while key in used
      invariant suffix >= 2 && key == Candidate(stem, suffix - 2)
      invariant forall m :: 0 <= m < suffix - 2 ==> Candidate(stem, m) in used
      decreases |used| + 2 - suffix
    {
      assert forall m :: 0 <= m < suffix - 1 ==> Candidate(stem, m) in used;
      SomeCandidateIsFree(stem, used, suffix - 1);
      key := stem + "-" + Decimal(suffix);
      suffix := suffix + 1;
    }
    assert FirstFreeAt(stem, used, suffix - 2);
    now := used + {key};
  }
}
