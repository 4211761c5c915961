/** The text conversions that join the two controllers: fmt's "%d", strconv.Atoi, strings.SplitN(s, sep, 2)
    and the two key formats "namespace/name" and "namespace-name". */
module Text {
  import opened Options

  const INT64_MIN := -0x8000_0000_0000_0000
  const INT64_MAX := 0x7fff_ffff_ffff_ffff

  function Digit(d: nat): char
    requires d < 10
  {
    ('0' as int + d) as char
  }

  predicate IsDigit(c: char) {
    '0' <= c <= '9'
  }

  /** The decimal digits of n, most significant first. */
  function Digits(n: nat): string {
    if n < 10 then [Digit(n)] else Digits(n / 10) + [Digit(n % 10)]
  }

  /** fmt.Sprintf("%d", n) */
  function Itoa(n: int): string {
    if n < 0 then "-" + Digits(-n) else Digits(n)
  }

  predicate AllDigits(s: string) {
    forall i :: 0 <= i < |s| ==> IsDigit(s[i])
  }

  function Value(s: string): (v: int)
    requires AllDigits(s)
    ensures v >= 0
  {
    if s == "" then 0 else 10 * Value(s[..|s| - 1]) + (s[|s| - 1] as int - '0' as int)
  }

  /** strconv.Atoi with 64-bit ints: an optional sign, at least one digit, nothing else, and no overflow. */
  function Atoi(s: string): Option<int> {
    var signed := s != "" && (s[0] == '-' || s[0] == '+');
    var body := if signed then s[1..] else s;
    if body == "" || !AllDigits(body) then
      None
    else
      var v := if signed && s[0] == '-' then -Value(body) else Value(body);
      if INT64_MIN <= v <= INT64_MAX then Some(v) else None
  }

  lemma {:induction false} DigitsRoundTrip(n: nat)
    ensures Digits(n) != "" && AllDigits(Digits(n)) && Value(Digits(n)) == n
  {
    if n >= 10 {
      DigitsRoundTrip(n / 10);
      var s := Digits(n);
      assert s[..|s| - 1] == Digits(n / 10);
    } else {
      assert Digits(n)[..0] == "";
    }
  }

  lemma AtoiOfDigits(s: string)
    requires s != "" && AllDigits(s)
    ensures Value(s) <= INT64_MAX ==> Atoi(s) == Some(Value(s))
    ensures -Value(s) >= INT64_MIN ==> Atoi("-" + s) == Some(-Value(s))
  {
    assert IsDigit(s[0]);
    assert ("-" + s)[1..] == s;
  }

  /** Reading back what was printed gives the same number, for every 64-bit int. */
  lemma AtoiItoa(n: int)
    requires INT64_MIN <= n <= INT64_MAX
    ensures Atoi(Itoa(n)) == Some(n)
  {
    var digits := Digits(if n < 0 then -n else n);
    DigitsRoundTrip(if n < 0 then -n else n);
    AtoiOfDigits(digits);
  }

  lemma ItoaInjective(m: nat, n: nat)
    requires Itoa(m) == Itoa(n)
    ensures m == n
  {
    DigitsRoundTrip(m);
    DigitsRoundTrip(n);
  }

  /** strings.SplitN(s, sep, 2) for a one-character separator: one piece, or the text before and after the first sep. */
  function SplitN2(s: string, sep: char): seq<string> {
    if sep !in s then [s]
    else var i := IndexOf(s, sep); [s[..i], s[i + 1..]]
  }

  function IndexOf(s: string, c: char): (i: nat)
    requires c in s
    ensures i < |s| && s[i] == c && c !in s[..i]
  {
    if s[0] == c then 0 else 1 + IndexOf(s[1..], c)
  }

  lemma {:induction false} IndexOfUnique(s: string, c: char, i: nat)
    requires i < |s| && s[i] == c && c !in s[..i]
    ensures IndexOf(s, c) == i
  {
    if i > 0 {
      assert s[0] in s[..i];
      assert forall x :: x in s[1..][..i - 1] ==> x in s[..i];
      IndexOfUnique(s[1..], c, i - 1);
    }
  }

  lemma SplitN2Join(a: string, sep: char, b: string)
    requires sep !in a
    ensures SplitN2(a + [sep] + b, sep) == [a, b]
  {
    var s := a + [sep] + b;
    assert s[..|a|] == a && s[|a|] == sep && s[|a| + 1..] == b;
    IndexOfUnique(s, sep, |a|);
  }

  /** The "namespace/name" key of pods and deployments. */
  function SlashKey(namespace: string, name: string): string {
    namespace + "/" + name
  }

  /** The "namespace-name" key of operators and compute groups. */
  function DashKey(namespace: string, name: string): string {
    namespace + "-" + name
  }

  lemma SlashKeySplits(namespace: string, name: string)
    requires '/' !in namespace
    ensures SplitN2(SlashKey(namespace, name), '/') == [namespace, name]
  {
    SplitN2Join(namespace, '/', name);
    assert SlashKey(namespace, name) == namespace + ['/'] + name;
  }

  lemma DashKeyInjective(namespace: string, n1: string, n2: string)
    requires DashKey(namespace, n1) == DashKey(namespace, n2)
    ensures n1 == n2
  {
    var k := |namespace| + 1;
    assert DashKey(namespace, n1)[k..] == n1;
    assert DashKey(namespace, n2)[k..] == n2;
  }
}
