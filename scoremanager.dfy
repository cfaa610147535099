/** The ScoreManager component: a 32-bit integer score, shown on a bound
    text element or, when none is bound, written to the log; plus the
    first-instance-wins rule for the static `Instance`. */
module Scoring {

  const Int32Min: int := -0x8000_0000
  const Int32Max: int := 0x7fff_ffff

  /** The C# `int` the score and the amounts are declared with. */
  type int32 = x: int | Int32Min <= x <= Int32Max

  /** Two's-complement wrap-around of C#'s unchecked `+`. */
  function Wrap32(x: int): (r: int32)
    ensures Int32Min <= x <= Int32Max ==> r == x
    ensures (r - x) % 0x1_0000_0000 == 0
  {
    (x + 0x8000_0000) % 0x1_0000_0000 - 0x8000_0000
  }

  /** Wrapping an intermediate sum does not change the final wrapped sum. */
  lemma WrapAdd(a: int, b: int)
    ensures Wrap32(Wrap32(a) + b) == Wrap32(a + b)
  {
    var k := (a + 0x8000_0000) / 0x1_0000_0000;
    assert Wrap32(a) == a - k * 0x1_0000_0000;
    ModShift(a + b + 0x8000_0000, k);
  }

  lemma ModShift(x: int, k: int)
    ensures (x - k * 0x1_0000_0000) % 0x1_0000_0000 == x % 0x1_0000_0000
  {
    var q := x / 0x1_0000_0000;
    var r := x % 0x1_0000_0000;
    assert x == q * 0x1_0000_0000 + r;
    assert x - k * 0x1_0000_0000 == (q - k) * 0x1_0000_0000 + r;
  }

  function Sum(amounts: seq<int>): int {
    if |amounts| == 0 then 0 else Sum(amounts[..|amounts| - 1]) + amounts[|amounts| - 1]
  }

  /** The score after `AddScore` is called with each amount in turn. */
  function Accumulate(start: int32, amounts: seq<int32>): int32 {
    if |amounts| == 0 then start
    else Wrap32(Accumulate(start, amounts[..|amounts| - 1]) + amounts[|amounts| - 1])
  }

  /** The accumulated score is the wrapped sum of the start and all amounts. */
  lemma {:induction false} AccumulateIsWrappedSum(start: int32, amounts: seq<int32>)
    ensures Accumulate(start, amounts) == Wrap32(start + Sum(amounts))
  {
    if |amounts| > 0 {
      var init := amounts[..|amounts| - 1];
      var last := amounts[|amounts| - 1];
      AccumulateIsWrappedSum(start, init);
      WrapAdd(start + Sum(init), last);
    }
  }

  /** Without overflow the score is exactly the start plus the amounts. */
  lemma ScoreIsSum(start: int32, amounts: seq<int32>)
    requires Int32Min <= start + Sum(amounts) <= Int32Max
    ensures Accumulate(start, amounts) == start + Sum(amounts)
  {
    AccumulateIsWrappedSum(start, amounts);
  }

  /** With no negative amount and no overflow, the score never decreases:
      every intermediate score lies between the start and the final one. */
  lemma {:induction false} AccumulateMonotone(start: int32, amounts: seq<int32>, k: nat)
    requires forall i :: 0 <= i < |amounts| ==> amounts[i] >= 0
    requires start + Sum(amounts) <= Int32Max
    requires k <= |amounts|
    ensures start <= Accumulate(start, amounts[..k]) <= Accumulate(start, amounts)
  {
    SumPrefixBounds(amounts, k);
    SumPrefixBounds(amounts, |amounts|);
    assert amounts[..|amounts|] == amounts;
    ScoreIsSum(start, amounts[..k]);
    ScoreIsSum(start, amounts);
  }

  lemma {:induction false} SumPrefixBounds(amounts: seq<int>, k: nat)
    requires forall i :: 0 <= i < |amounts| ==> amounts[i] >= 0
    requires k <= |amounts|
    ensures 0 <= Sum(amounts[..k]) <= Sum(amounts)
  {
    if k < |amounts| {
      var init := amounts[..|amounts| - 1];
      assert amounts[..k] == init[..k];
      SumPrefixBounds(init, k);
    } else {
      assert amounts[..k] == amounts;
      if k > 0 {
        var init := amounts[..k - 1];
        assert amounts[..k - 1] == init[..k - 1];
        SumPrefixBounds(amounts[..k - 1], k - 1);
        assert init[..k - 1] == init;
      }
    }
  }

  /** Digits of a natural number, most significant first, no leading zero. */
  function NatToString(n: nat): (s: string)
    ensures |s| >= 1 && forall i :: 0 <= i < |s| ==> '0' <= s[i] <= '9'
    ensures |s| > 1 ==> s[0] != '0'
    decreases n
  {
    if n < 10 then ["0123456789"[n]]
    else NatToString(n / 10) + ["0123456789"[n % 10]]
  }

  predicate AllDigits(s: string) {
    forall i :: 0 <= i < |s| ==> '0' <= s[i] <= '9'
  }

  /** The text C#'s `{score}` interpolation yields for an int. */
  function IntToString(n: int): (s: string)
    ensures |s| >= 1
    ensures (s[0] == '-') <==> n < 0
    ensures n < 0 ==> s == "-" + NatToString(-n) && AllDigits(s[1..])
    ensures n >= 0 ==> s == NatToString(n) && AllDigits(s)
  {
    if n < 0 then
      var digits := NatToString(-n);
      assert ("-" + digits)[1..] == digits;
      "-" + digits
    else NatToString(n)
  }

  function ParseNat(s: string): nat
    requires AllDigits(s)
  {
    if |s| == 0 then 0
    else ParseNat(s[..|s| - 1]) * 10 + ((s[|s| - 1] as int) - ('0' as int))
  }

  /** Reads back a number written by IntToString. */
  function ParseInt(s: string): int
    requires |s| >= 1
    requires s[0] == '-' ==> AllDigits(s[1..])
    requires s[0] != '-' ==> AllDigits(s)
  {
    if s[0] == '-' then 0 - ParseNat(s[1..]) else ParseNat(s)
  }

  lemma DigitRoundTrip(d: nat)
    requires d < 10
    ensures ("0123456789"[d] as int) - ('0' as int) == d
  {
  }

  lemma {:induction false} NatToStringRoundTrip(n: nat)
    ensures ParseNat(NatToString(n)) == n
    decreases n
  {
    var s := NatToString(n);
    if n < 10 {
      DigitRoundTrip(n);
      assert s[..0] == [];
    } else {
      var init := NatToString(n / 10);
      assert s == init + ["0123456789"[n % 10]];
      assert s[..|s| - 1] == init;
      NatToStringRoundTrip(n / 10);
      DigitRoundTrip(n % 10);
      assert ParseNat(s) == ParseNat(init) * 10 + n % 10;
    }
  }

  /** The displayed score determines the score: formatting is injective. */
  lemma IntToStringRoundTrip(n: int)
    ensures ParseInt(IntToString(n)) == n
  {
    if n < 0 {
      NegativeRoundTrip(n);
    } else {
      NatToStringRoundTrip(n);
    }
  }

  lemma NegativeRoundTrip(n: int)
    requires n < 0
    ensures ParseInt(IntToString(n)) == n
  {
    var m: nat := -n;
    var digits := NatToString(m);
    assert IntToString(n) == "-" + digits;
    ParseNegative(digits);
    NatToStringRoundTrip(m);
    assert ParseNat(digits) == m;
  }

  lemma ParseNegative(digits: string)
    requires AllDigits(digits)
    ensures ParseInt("-" + digits) == 0 - ParseNat(digits)
  {
    assert ("-" + digits)[1..] == digits;
  }

  function ScoreLine(score: int): string {
    "Score: " + IntToString(score)
  }

  /** Holder of the static `ScoreManager.Instance` property. */
  class ScoreManagerStatics {
    var Instance: ScoreManager?

    constructor ()
      ensures Instance == null
    {
      Instance := null;
    }
  }

  class ScoreManager {
    /** Whether a text element is bound in the inspector. */
    const hasScoreText: bool
    var score: int32
    /** The bound text element's content. */
    var text: string
    /** Lines written to the log sink. */
    var log: seq<string>
    /** Every amount added so far, in order. */
    ghost var history: seq<int32>

    ghost predicate Valid()
      reads this
    {
      score == Accumulate(0, history)
    }

    constructor (hasScoreText: bool, text: string)
      ensures Valid() && history == []
      ensures score == 0 && this.hasScoreText == hasScoreText
      ensures this.text == text && log == []
    {
      this.hasScoreText := hasScoreText;
      score := 0;
      this.text := text;
      log := [];
      history := [];
    }

    /** First instance wins: a later instance leaves `Instance` as it was
        (the script then destroys that later instance's object). */
    method Awake(statics: ScoreManagerStatics)
      modifies statics
      ensures statics.Instance == if old(statics.Instance) == null then this else old(statics.Instance)
    {
      if statics.Instance != null && statics.Instance != this {
        return;
      }
      statics.Instance := this;
    }

    /** The effect of one `AddScore(amount)`: the amount is added with
        C#'s 32-bit wrap-around and the new score is shown on the bound
        text, or logged when no text is bound. */
    twostate predicate Added(amount: int32)
      reads this
    {
      && Valid() && history == old(history) + [amount]
      && score == Wrap32(old(score) + amount)
      && (hasScoreText ==> text == ScoreLine(score) && log == old(log))
      && (!hasScoreText ==> log == old(log) + [ScoreLine(score)] && text == old(text))
    }

    /** `score += amount`, then the score line to the text or the log. */
    method AddScore(amount: int32)
      requires Valid()
      modifies this
      ensures Added(amount)
    {
      score := Wrap32(score + amount);
      history := history + [amount];
      assert history[..|history| - 1] == old(history);
      if hasScoreText {
        text := ScoreLine(score);
      } else {
        log := log + [ScoreLine(score)];
      }
    }
  }
}
