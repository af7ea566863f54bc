/** Decimal text of natural numbers, as printed and as parsed into a machine word. */
module Decimal {
  import opened Prelude

  const USIZE_MAX := 0xFFFF_FFFF_FFFF_FFFF

  predicate Digit(c: char) {
    '0' <= c <= '9'
  }

  predicate Digits(s: string) {
    forall i :: 0 <= i < |s| ==> Digit(s[i])
  }

  function Print(n: nat): (s: string)
    ensures s != [] && Digits(s)
  {
    var last := '0' + (n % 10) as char;
    if n < 10 then [last] else Print(n / 10) + [last]
  }

  function Value(s: string): nat
    requires Digits(s)
  {
    if s == [] then 0 else Value(s[..|s| - 1]) * 10 + (s[|s| - 1] - '0') as nat
  }

  /** One leading plus sign is allowed; an empty text, any other character and a value past the word
      are refused. */
  function ParseUsize(s: string): Option<nat> {
    var digits := if s != [] && s[0] == '+' then s[1..] else s;
    if digits == [] || !Digits(digits) || USIZE_MAX < Value(digits) then None else Some(Value(digits))
  }

  lemma {:induction false} ValueOfPrint(n: nat)
    ensures Value(Print(n)) == n
  {
    if n >= 10 {
      ValueOfPrint(n / 10);
      var s := Print(n);
      assert s[..|s| - 1] == Print(n / 10);
    }
  }

  lemma ParseOfPrint(n: nat)
    requires n <= USIZE_MAX
    ensures ParseUsize(Print(n)) == Some(n)
  {
    ValueOfPrint(n);
    assert Digit(Print(n)[0]);
  }

  /** Different numbers print differently. */
  lemma PrintIsInjective(m: nat, n: nat)
    ensures Print(m) == Print(n) <==> m == n
  {
    ValueOfPrint(m);
    ValueOfPrint(n);
  }
}
