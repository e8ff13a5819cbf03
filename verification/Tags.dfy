/** Operation keys: the exact string that is both the durable identity of an attempt and the
    tag its remote session carries. */
module Tags {
  import opened Wrappers

  const OPERATION_TAG_PREFIX := "op:"

  function Digit(d: nat): char
    requires d < 10
  {
    "0123456789"[d]
  }

  /** Decimal rendering, as an f-string prints a non-negative integer. */
  function Decimal(n: nat): (r: string)
    ensures |r| > 0 && (|r| == 1 <==> n < 10)
  {
    if n < 10 then [Digit(n)] else Decimal(n / 10) + [Digit(n % 10)]
  }

  lemma {:induction false} DecimalInjective(m: nat, n: nat)
    requires Decimal(m) == Decimal(n)
    ensures m == n
  {
    var a, b := Decimal(m), Decimal(n);
    assert a[|a| - 1] == Digit(m % 10) && b[|b| - 1] == Digit(n % 10);
    if m >= 10 && n >= 10 {
      assert a[..|a| - 1] == Decimal(m / 10) && b[..|b| - 1] == Decimal(n / 10);
      DecimalInjective(m / 10, n / 10);
    }
  }

  datatype Kind = Triage | Remediation

  function KindValue(k: Kind): string {
    match k
    case Triage => "TRIAGE"
    case Remediation => "REMEDIATION"
  }

  function Tail(kind: Kind, ordinal: nat): string {
    ":" + KindValue(kind) + ":" + Decimal(ordinal)
  }

  function OperationKey(caseId: string, kind: Kind, ordinal: nat): string {
    OPERATION_TAG_PREFIX + caseId + Tail(kind, ordinal)
  }

  /** The digests must be complete; anything shorter is refused (`ValueError`). */
  function RemediationOperationKey(caseId: string, resultHash: string, baseSha: string, ordinal: nat): Option<string> {
    if |resultHash| != 64 || |baseSha| != 40 then None
    else Some(OPERATION_TAG_PREFIX + caseId + ":REMEDIATION:" + resultHash + ":" + baseSha + ":" + Decimal(ordinal))
  }

  lemma SplitAt(a: string, b: string, x: string, y: string)
    requires a + x == b + y && |a| == |b|
    ensures a == b && x == y
  {
    assert a == (a + x)[..|a|] && b == (b + y)[..|b|];
    assert x == (a + x)[|a|..] && y == (b + y)[|b|..];
  }

  lemma TailIdentifies(k: Kind, m: nat, l: Kind, n: nat)
    requires Tail(k, m) == Tail(l, n)
    ensures k == l && m == n
  {
    assert Tail(k, m)[1] == KindValue(k)[0] && Tail(l, n)[1] == KindValue(l)[0];
    SplitAt(":" + KindValue(k) + ":", ":" + KindValue(l) + ":", Decimal(m), Decimal(n));
    DecimalInjective(m, n);
  }

  /** A triage-style key determines its case, kind and ordinal. */
  lemma OperationKeyIdentifies(c: string, k: Kind, m: nat, d: string, l: Kind, n: nat)
    requires |c| == |d| && OperationKey(c, k, m) == OperationKey(d, l, n)
    ensures c == d && k == l && m == n
  {
    var p := OPERATION_TAG_PREFIX;
    SplitAt(p + c, p + d, Tail(k, m), Tail(l, n));
    SplitAt(p, p, c, d);
    TailIdentifies(k, m, l, n);
  }

  /** A remediation key determines its case, approved result, base commit and ordinal. */
  lemma RemediationKeyIdentifies(
    c: string, h: string, s: string, m: nat, d: string, i: string, t: string, n: nat)
    requires |c| == |d|
    requires RemediationOperationKey(c, h, s, m).Some?
    requires RemediationOperationKey(c, h, s, m) == RemediationOperationKey(d, i, t, n)
    ensures c == d && h == i && s == t && m == n
  {
    var p, r := OPERATION_TAG_PREFIX, ":REMEDIATION:";
    var key := RemediationOperationKey(c, h, s, m).value;
    assert key == (p + c + r + h + ":" + s + ":") + Decimal(m);
    assert key == (p + d + r + i + ":" + t + ":") + Decimal(n);
    SplitAt(p + c + r + h + ":" + s + ":", p + d + r + i + ":" + t + ":", Decimal(m), Decimal(n));
    DecimalInjective(m, n);
    var x, y := p + c + r + h + ":" + s + ":", p + d + r + i + ":" + t + ":";
    var e := |c|;
    assert x[3..3 + e] == c && y[3..3 + e] == d;
    assert x[16 + e..80 + e] == h && y[16 + e..80 + e] == i;
    assert x[81 + e..121 + e] == s && y[81 + e..121 + e] == t;
  }

  /** No triage key is ever a remediation key of a case with an equally long id. */
  lemma PhasesNeverShareAKey(c: string, m: nat, d: string, h: string, s: string, n: nat)
    requires |c| == |d| && RemediationOperationKey(d, h, s, n).Some?
    ensures Some(OperationKey(c, Triage, m)) != RemediationOperationKey(d, h, s, n)
  {
    var a, b := OperationKey(c, Triage, m), RemediationOperationKey(d, h, s, n).value;
    assert a[4 + |c|] == Tail(Triage, m)[1] == 'T';
    assert b[4 + |c|] == 'R';
  }

  lemma {:induction false} DecimalLength(n: nat, digits: nat, bound: nat)
    requires digits > 0 && n < bound && bound == Power10(digits)
    ensures |Decimal(n)| <= digits
  {
    if n >= 10 {
      assert digits > 1;
      DecimalLength(n / 10, digits - 1, Power10(digits - 1));
    }
  }

  function Power10(k: nat): nat {
    if k == 0 then 1 else 10 * Power10(k - 1)
  }

  /** The key fits the 255-character column for a 36-character id, whatever the ordinal up to
      ninety-six digits. */
  lemma RemediationKeyFits(c: string, h: string, s: string, n: nat)
    requires |c| == 36 && RemediationOperationKey(c, h, s, n).Some? && n < Power10(96)
    ensures |RemediationOperationKey(c, h, s, n).value| <= 255
  {
    DecimalLength(n, 96, Power10(96));
  }

  predicate StartsWith(tag: string, prefix: string) { prefix <= tag }

  /** `tag_value`: the rest of the first tag that carries the prefix. */
  method TagValue(tags: seq<string>, prefix: string) returns (r: Option<string>)
    ensures r.None? <==> forall tag <- tags :: !StartsWith(tag, prefix)
    ensures r.Some? ==>
              exists i | 0 <= i < |tags| ::
                tags[i] == prefix + r.value && forall j | 0 <= j < i :: !StartsWith(tags[j], prefix)
  {
    for i := 0 to |tags|
      invariant forall j | 0 <= j < i :: !StartsWith(tags[j], prefix)
    {
      if StartsWith(tags[i], prefix) {
        assert tags[i] == prefix + tags[i][|prefix|..];
        return Some(tags[i][|prefix|..]);
      }
    }
    r := None;
  }
}
