/** Identifiers used by the Cascades optimizer and their textual forms.
    A group id prints as `!` followed by its number, an expression id as its
    bare number; both numbers are printed in decimal without leading zeros. */
module Ids {

  datatype Option<T> = None | Some(value: T)

  /** Handle of a group (an equivalence class of expressions). */
  datatype GroupId = GroupId(id: nat)

  /** Handle of one memoized expression. */
  datatype ExprId = ExprId(id: nat)

  /** Position of a rule in the optimizer's rule list. */
  type RuleId = nat

  predicate IsDigit(c: char) {
    '0' <= c <= '9'
  }

  /** A canonical decimal numeral: non-empty, digits only, no leading zero. */
  predicate IsNumeral(s: string) {
    && |s| > 0
    && (forall i :: 0 <= i < |s| ==> IsDigit(s[i]))
    && (s[0] == '0' ==> |s| == 1)
  }

  function DigitChar(d: nat): (c: char)
    requires d < 10
    ensures IsDigit(c) && c as int - '0' as int == d
  {
    ('0' as int + d) as char
  }

  /** Decimal rendering of an unsigned number. */
  function Decimal(n: nat): (s: string)
    ensures IsNumeral(s)
    ensures |s| == 1 <==> n < 10
  {
    if n < 10 then [DigitChar(n)] else Decimal(n / 10) + [DigitChar(n % 10)]
  }

  /** The number a string of digits denotes; the reference reading of `Decimal`. */
  function NumeralValue(s: string): nat
    requires forall i :: 0 <= i < |s| ==> IsDigit(s[i])
  {
    if s == [] then 0
    else
      assert IsDigit(s[|s| - 1]);
      NumeralValue(s[..|s| - 1]) * 10 + (s[|s| - 1] as int - '0' as int)
  }

  lemma {:induction false} NumeralValueOfDecimal(n: nat)
    ensures NumeralValue(Decimal(n)) == n
  {
    var s := Decimal(n);
    if n >= 10 {
      assert s[..|s| - 1] == Decimal(n / 10);
      NumeralValueOfDecimal(n / 10);
    }
  }

  /** A digit string that starts with a non-zero digit denotes a positive number. */
  lemma {:induction false} LeadingDigitPositive(s: string)
    requires |s| > 0 && s[0] != '0'
    requires forall i :: 0 <= i < |s| ==> IsDigit(s[i])
    ensures NumeralValue(s) >= 1
  {
    if |s| > 1 {
      LeadingDigitPositive(s[..|s| - 1]);
    }
  }

  lemma {:induction false} DecimalOfNumeralValue(s: string)
    requires IsNumeral(s)
    ensures Decimal(NumeralValue(s)) == s
  {
    if |s| > 1 {
      var p := s[..|s| - 1];
      LeadingDigitPositive(p);
      DecimalOfNumeralValue(p);
      var n := NumeralValue(s);
      assert n / 10 == NumeralValue(p) && n % 10 == s[|s| - 1] as int - '0' as int;
    }
  }

  /** `Display for GroupId`: `!` and the number. */
  function GroupIdDisplay(g: GroupId): (s: string)
    ensures |s| >= 2 && s[0] == '!' && IsNumeral(s[1..])
  {
    "!" + Decimal(g.id)
  }

  /** `Display for ExprId`: the bare number. */
  function ExprIdDisplay(e: ExprId): (s: string)
    ensures IsNumeral(s)
  {
    Decimal(e.id)
  }

  /** Reads back what `GroupIdDisplay` writes; `None` for any other string. */
  function ParseGroupId(s: string): Option<GroupId> {
    if |s| >= 2 && s[0] == '!' && IsNumeral(s[1..]) then Some(GroupId(NumeralValue(s[1..]))) else None
  }

  /** Reads back what `ExprIdDisplay` writes; `None` for any other string. */
  function ParseExprId(s: string): Option<ExprId> {
    if IsNumeral(s) then Some(ExprId(NumeralValue(s))) else None
  }

  lemma GroupIdDisplayRoundTrip(g: GroupId)
    ensures ParseGroupId(GroupIdDisplay(g)) == Some(g)
  {
    var s := GroupIdDisplay(g);
    assert s[1..] == Decimal(g.id);
    NumeralValueOfDecimal(g.id);
  }

  /** Every string the parser accepts is exactly the display of what it returns. */
  lemma ParseGroupIdCanonical(s: string)
    requires ParseGroupId(s).Some?
    ensures GroupIdDisplay(ParseGroupId(s).value) == s
  {
    DecimalOfNumeralValue(s[1..]);
  }

  lemma ExprIdDisplayRoundTrip(e: ExprId)
    ensures ParseExprId(ExprIdDisplay(e)) == Some(e)
  {
    NumeralValueOfDecimal(e.id);
  }

  lemma ParseExprIdCanonical(s: string)
    requires ParseExprId(s).Some?
    ensures ExprIdDisplay(ParseExprId(s).value) == s
  {
    DecimalOfNumeralValue(s);
  }

  /** Distinct ids print differently, and a group never prints like an expression. */
  lemma DisplayDistinguishesIds(g1: GroupId, g2: GroupId, e1: ExprId, e2: ExprId)
    ensures GroupIdDisplay(g1) == GroupIdDisplay(g2) <==> g1 == g2
    ensures ExprIdDisplay(e1) == ExprIdDisplay(e2) <==> e1 == e2
    ensures GroupIdDisplay(g1) != ExprIdDisplay(e1)
  {
    GroupIdDisplayRoundTrip(g1);
    GroupIdDisplayRoundTrip(g2);
    ExprIdDisplayRoundTrip(e1);
    ExprIdDisplayRoundTrip(e2);
    var s := ExprIdDisplay(e1);
    assert IsDigit(s[0]);
  }
}
