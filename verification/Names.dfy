/**
Names and labels printed with `%d`: the decimal form of an ordinal, the replicaset
name `role-ordinal`, the pod name `replicaset-ordinal`, and the parse that reads an
ordinal back from a label.
*/
module Names {
  import opened Basics

  const DIGITS := "0123456789"

  predicate IsDigit(c: char) { '0' <= c <= '9' }

  function DigitValue(c: char): (r: nat)
    requires IsDigit(c)
    ensures r < 10 && DIGITS[r] == c
  {
    c as int - '0' as int
  }

  function Decimal(n: nat): (s: string)
    ensures |s| > 0 && AllDigits(s)
  {
    if n < 10 then [DIGITS[n]] else Decimal(n / 10) + [DIGITS[n % 10]]
  }

  /** The number a non-empty digit string denotes. */
  function Magnitude(s: string): nat
    requires |s| > 0 && AllDigits(s)
  {
    DigitValue(s[|s| - 1]) + if |s| == 1 then 0 else 10 * Magnitude(s[..|s| - 1])
  }

  /** `fmt.Sprintf("%d", n)`. */
  function Print(n: int): string {
    if n < 0 then "-" + Decimal(0 - n) else Decimal(n)
  }

  predicate AllDigits(s: string) {
    forall i | 0 <= i < |s| :: IsDigit(s[i])
  }

  function ParseDigits(digits: string, negative: bool): Option<int32> {
    if |digits| == 0 || !AllDigits(digits) then None
    else
      var n: int := if negative then 0 - Magnitude(digits) else Magnitude(digits);
      if -0x8000_0000 <= n < 0x8000_0000 then Some(n) else None
  }

  /** `strconv.ParseInt(s, 10, 32)`: an optional sign, digits only, in the int32 range. */
  function ParseInt32(s: string): Option<int32> {
    if |s| > 0 && s[0] == '-' then ParseDigits(s[1..], true)
    else if |s| > 0 && s[0] == '+' then ParseDigits(s[1..], false)
    else ParseDigits(s, false)
  }

  lemma {:induction false} MagnitudeOfDecimal(n: nat)
    ensures Magnitude(Decimal(n)) == n
  {
    if n < 10 {
    } else {
      var s := Decimal(n);
      assert s[..|s| - 1] == Decimal(n / 10);
      MagnitudeOfDecimal(n / 10);
    }
  }

  lemma ParseOfDigits(d: string)
    requires |d| > 0 && AllDigits(d)
    ensures Magnitude(d) < 0x8000_0000 ==> ParseInt32(d) == Some(Magnitude(d))
    ensures Magnitude(d) <= 0x8000_0000 ==> ParseInt32("-" + d) == Some(0 - Magnitude(d))
  {
    assert IsDigit(d[0]);
    assert ("-" + d)[1..] == d;
  }

  /** An ordinal survives being printed into a label and parsed back, for every int32. */
  lemma ParseOfPrint(n: int32)
    ensures ParseInt32(Print(n)) == Some(n)
  {
    var size: nat := if n < 0 then 0 - n else n;
    MagnitudeOfDecimal(size);
    ParseOfDigits(Decimal(size));
  }

  lemma PrintInjective(m: int32, n: int32)
    requires Print(m) == Print(n)
    ensures m == n
  {
    ParseOfPrint(m);
    ParseOfPrint(n);
  }

  /** `fmt.Sprintf("%s-%d", base, ordinal)`: the shape of replicaset names, pod names and UUID seeds. */
  function Dashed(base: string, ordinal: int): string {
    base + "-" + Print(ordinal)
  }

  lemma LastDash(base: string, ordinal: nat)
    ensures Dashed(base, ordinal)[|base|] == '-'
    ensures forall i | |base| < i < |Dashed(base, ordinal)| :: IsDigit(Dashed(base, ordinal)[i])
  {
    forall i | |base| < i < |Dashed(base, ordinal)|
      ensures IsDigit(Dashed(base, ordinal)[i])
    {
      assert Dashed(base, ordinal)[i] == Decimal(ordinal)[i - |base| - 1];
    }
  }

  /** The part before the last dash and the ordinal after it are both recoverable. */
  lemma DashedInjective(a: string, m: int32, b: string, n: int32)
    requires m >= 0 && n >= 0 && Dashed(a, m) == Dashed(b, n)
    ensures a == b && m == n
  {
    var s := Dashed(a, m);
    LastDash(a, m);
    LastDash(b, n);
    assert |a| == |b|;
    assert a == s[..|a|] && b == s[..|b|];
    assert Print(m) == s[|a| + 1..] && Print(n) == s[|b| + 1..];
    PrintInjective(m, n);
  }

  /** `Role.GetReplicasetName`. */
  function ReplicasetName(role: string, replicaset: int): string {
    Dashed(role, replicaset)
  }

  /** `utils.GetStatefulSetPodName` of a replicaset of a role. */
  function PodName(role: string, replicaset: int, pod: int): (s: string)
    ensures s != ""
  {
    Dashed(ReplicasetName(role, replicaset), pod)
  }

  /**
  Different (role, replicaset, pod) triples have different pod names, even when role
  names contain dashes and digits.
  */
  lemma PodNameInjective(role: string, rs: int32, pod: int32, role': string, rs': int32, pod': int32)
    requires rs >= 0 && pod >= 0 && rs' >= 0 && pod' >= 0
    requires PodName(role, rs, pod) == PodName(role', rs', pod')
    ensures role == role' && rs == rs' && pod == pod'
  {
    DashedInjective(ReplicasetName(role, rs), pod, ReplicasetName(role', rs'), pod');
    DashedInjective(role, rs, role', rs');
  }

  /** The bound on ordinals is needed: a negative ordinal can imitate a role name ending in a dash. */
  lemma NegativeOrdinalsCollide()
    ensures ReplicasetName("router", -5) == ReplicasetName("router-", 5)
  {
    assert Print(-5) == "-5" && Print(5) == "5";
  }
}
