/**
  Decimal amounts of the payment tables, exactly: an amount or a rate is a whole number of 10^-12
  units (NUMERIC(30, 12)) and a target amount a whole number of 10^-8 units.
 */
module Amounts {
  import opened Common

  predicate Digit(c: char) { '0' <= c <= '9' }

  predicate AllDigits(s: string) { forall i :: 0 <= i < |s| ==> Digit(s[i]) }

  function Value(s: string): nat
    requires AllDigits(s)
  {
    if s == [] then 0 else 10 * Value(s[..|s| - 1]) + (s[|s| - 1] as int - '0' as int)
  }

  /** The index of the first point, or the length. */
  function Point(s: string): (k: nat)
    ensures k <= |s| && (k < |s| ==> s[k] == '.') && '.' !in s[..k]
  {
    if s == [] || s[0] == '.' then 0 else
    var k := Point(s[1..]);
    assert s[..k + 1] == [s[0]] + s[1..][..k];
    k + 1
  }

  /** The number of 10^-12 units the two parts spell: the point moved twelve places right. */
  function Units(whole: string, fraction: string): nat
    requires AllDigits(whole) && AllDigits(fraction) && |fraction| <= 12
  {
    Value(whole + fraction + seq(12 - |fraction|, _ => '0'))
  }

  /** Digits, then optionally a point and one to twelve digits; the text "0" alone is refused. */
  function Amount(text: string): Option<nat> {
    var k := Point(text);
    var whole, fraction := text[..k], if k == |text| then [] else text[k + 1..];
    if whole == [] || !AllDigits(whole) || text == "0" then None
    else if (k < |text| && fraction == []) || |fraction| > 12 || !AllDigits(fraction) then None
    else Some(Units(whole, fraction))
  }

  lemma {:induction false} PointAt(whole: string, rest: string)
    requires AllDigits(whole) && (rest == [] || rest[0] == '.')
    ensures Point(whole + rest) == |whole|
  {
    if whole == [] {
      assert whole + rest == rest;
    } else {
      assert Digit(whole[0]);
      assert (whole + rest)[1..] == whole[1..] + rest;
      PointAt(whole[1..], rest);
    }
  }

  /** The texts the pattern admits, with their parts. */
  ghost predicate Spells(text: string, whole: string, fraction: string) {
    && whole != [] && AllDigits(whole) && AllDigits(fraction) && |fraction| <= 12
    && text == if fraction == [] then whole else whole + ("." + fraction)
  }

  lemma SpelledOut(text: string, whole: string, fraction: string)
    requires text != "0" && Spells(text, whole, fraction)
    ensures Amount(text) == Some(Units(whole, fraction))
  {
    if fraction == [] {
      assert text == whole + [];
      PointAt(whole, []);
      assert text[..|whole|] == whole;
    } else {
      PointAt(whole, "." + fraction);
      assert text[..|whole|] == whole && text[|whole| + 1..] == fraction;
    }
  }

  lemma PartsOf(text: string) returns (whole: string, fraction: string)
    requires Amount(text).Some?
    ensures Spells(text, whole, fraction) && Amount(text) == Some(Units(whole, fraction))
  {
    var k := Point(text);
    whole, fraction := text[..k], if k == |text| then [] else text[k + 1..];
    assert k < |text| ==> text == whole + ("." + fraction);
  }

  /** Exactly the texts the pattern admits are amounts, each with the value it spells. */
  lemma AmountExact(text: string, units: nat)
    ensures Amount(text) == Some(units) <==>
            text != "0" && exists whole, fraction :: Spells(text, whole, fraction) && units == Units(whole, fraction)
  {
    if Amount(text) == Some(units) {
      var whole, fraction := PartsOf(text);
    }
    if text != "0" && exists whole, fraction :: Spells(text, whole, fraction) && units == Units(whole, fraction) {
      var whole, fraction :| Spells(text, whole, fraction) && units == Units(whole, fraction);
      SpelledOut(text, whole, fraction);
    }
  }

  const HALF: int := 5_000_000_000_000_000
  const UNIT: int := 10_000_000_000_000_000

  /** round(source * rate, 8): 10^-24 units to 10^-8 units, halves up. */
  function Target(source: nat, rate: nat): nat {
    (source * rate + HALF) / UNIT
  }

  /** The target is the nearest to source times rate, and only a positive amount gets a positive one. */
  lemma TargetNearest(source: nat, rate: nat)
    ensures -HALF <= source * rate - Target(source, rate) * UNIT < HALF
    ensures Target(source, rate) > 0 ==> source > 0 && rate > 0
  {
    if source == 0 || rate == 0 {
      assert source * rate == 0;
    }
  }
}
