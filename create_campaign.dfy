/**
 * The create-campaign form: `createCampaign` checks the four fields in a fixed order, turns
 * the duration in minutes into a `0x` hexadecimal Unix-seconds deadline, and on success
 * clears the form and goes back to the home page. The amount and duration inputs hold
 * `parseFloat` of what was typed, so either may be NaN.
 */
module CreateCampaign {
  import opened JsText

  const FillAllFields: string := "Fill all the fields"
  const AmountNotPositive: string := "Amount must be more than 0"
  const DurationTooShort: string := "Duration must be more than 5 mins"
  /** What `"0x" + NaN.toString(16)` prints. */
  const HexNaN: string := "0xNaN"

  /** `!n` for a Number: NaN and zero are falsy. */
  predicate Falsy(n: JsNumber) {
    n.NaN? || (n.Finite? && n.value == 0.0)
  }

  /** `n < bound` for a Number: false for NaN, decided by the sign for an infinity. */
  predicate Below(n: JsNumber, bound: real) {
    match n
    case NaN => false
    case Finite(x) => x < bound
    case Infinity(negative) => negative
  }

  /** A Number that is positive: a finite value above zero, or +Infinity. */
  predicate Positive(n: JsNumber) {
    (n.Finite? && n.value > 0.0) || n == Infinity(false)
  }

  /** At least the bound: a finite value not below it, or +Infinity. */
  predicate AtLeast(n: JsNumber, bound: real) {
    (n.Finite? && n.value >= bound) || n == Infinity(false)
  }

  /**
   * The checks at the head of `createCampaign`, in their order; `None` when all pass.
   * Accepted are exactly a non-empty title and description, a positive target and a duration
   * of at least 5 minutes; the first failing check names the message.
   */
  function ValidateFields(title: string, description: string, targetAmount: JsNumber, deadline: JsNumber)
    : (error: Option<string>)
    ensures error == None <==>
      title != "" && description != "" && Positive(targetAmount) && AtLeast(deadline, 5.0)
    ensures error == Some(FillAllFields) <==>
      title == "" || description == "" || Falsy(targetAmount) || Falsy(deadline)
    ensures error == Some(AmountNotPositive) <==>
      title != "" && description != "" && !Falsy(deadline) && Below(targetAmount, 0.0)
    ensures error == Some(DurationTooShort) <==>
      title != "" && description != "" && Positive(targetAmount) && !Falsy(deadline) && Below(deadline, 5.0)
  {
    if title == "" || description == "" || Falsy(targetAmount) || Falsy(deadline) then Some(FillAllFields)
    else if Below(targetAmount, 0.0) then Some(AmountNotPositive)
    else if Below(deadline, 5.0) then Some(DurationTooShort)
    else None
  }

  // --------------------------------------------------------- the hex timestamp

  /** `new Date(nowMs + minutes * 60000).getTime()`; `None` is NaN. */
  function FutureTimeMs(nowMs: nat, minutes: JsNumber): Option<int> {
    match minutes
    case Finite(m) => TimeClip(Finite(nowMs as real + m * 60000.0))
    case _ => TimeClip(minutes)
  }

  /**
   * `"0x" + (ms / 1000).toString(16)`: the hex digits of the whole seconds, then "." and the
   * fraction's digits (here a parameter) when ms is no whole number of seconds; NaN prints as "NaN".
   */
  function HexTimestamp(futureMs: Option<int>, fraction: string): string {
    match futureMs
    case None => HexNaN
    case Some(ms) =>
      var magnitude: nat := if ms < 0 then -ms else ms;
      var sign := if ms < 0 then "-" else "";
      "0x" + sign + ToRadix(magnitude / 1000, 16) + (if magnitude % 1000 == 0 then "" else "." + fraction)
  }

  /** The three values `createCampaign` computes: the hex text, its integer part, and that integer in hex again. */
  datatype Timestamp = Timestamp(hexTimestamp: string, integerTimestamp: Option<int>, formattedHexTimestamp: string)

  function EncodeDeadline(nowMs: nat, minutes: JsNumber, fraction: string): Timestamp {
    var hex := HexTimestamp(FutureTimeMs(nowMs, minutes), fraction);
    var integer := ParseInt(hex, 16);
    var formatted := match integer
                     case None => HexNaN
                     case Some(v) => "0x" + IntToRadix(v, 16);
    Timestamp(hex, integer, formatted)
  }

  /** The whole seconds of a non-negative millisecond time are the floor of the real quotient. */
  lemma {:induction false} SecondsOfMillis(t: real, ms: int)
    requires 0.0 <= t && ms as real <= t < ms as real + 1.0
    ensures ms / 1000 == (t / 1000.0).Floor
  {
    var q, r := ms / 1000, ms % 1000;
    assert ms == 1000 * q + r && 0 <= r < 1000;
    assert q as real <= t / 1000.0 < q as real + 1.0;
  }

  /** The hex text of a non-negative time reads back, in radix 16, as its whole seconds. */
  lemma {:induction false} HexTimestampParses(ms: int, fraction: string)
    requires ms >= 0
    ensures ParseInt(HexTimestamp(Some(ms), fraction), 16) == Some(ms / 1000)
  {
    var tail := if ms % 1000 == 0 then "" else "." + fraction;
    assert HexTimestamp(Some(ms), fraction) == "0x" + ToRadix(ms / 1000, 16) + tail;
    HexLiteralParses(ms / 1000, tail);
  }

  /** `"0x" + n.toString(16)` reads back as n. */
  lemma {:induction false} FormattedParses(n: nat)
    ensures ParseInt("0x" + IntToRadix(n, 16), 16) == Some(n)
  {
    HexLiteralParses(n, "");
    assert "0x" + ToRadix(n, 16) + "" == "0x" + ToRadix(n, 16);
  }

  /**
   * For an accepted duration within the Date range, the encoded deadline is the floor of
   * (now + minutes) in Unix seconds, written "0x" + lower-case hex: `parseInt(…, 16)` drops the
   * fraction after the ".", and reading `formattedHexTimestamp` back in radix 16 gives
   * `integerTimestamp`.
   */
  lemma {:induction false} EncodeInRange(nowMs: nat, minutes: real, fraction: string)
    requires minutes >= 5.0 && nowMs as real + minutes * 60000.0 <= MaxTimeMs
    ensures var ts := EncodeDeadline(nowMs, Finite(minutes), fraction);
      var seconds := ((nowMs as real + minutes * 60000.0) / 1000.0).Floor;
      && seconds >= 0
      && ts.integerTimestamp == Some(seconds)
      && ts.formattedHexTimestamp == "0x" + ToRadix(seconds, 16)
      && ParseInt(ts.formattedHexTimestamp, 16) == ts.integerTimestamp
  {
    var ms := FutureMillis(nowMs, minutes);
    IntegerTimestampIsSeconds(nowMs, minutes, fraction, ms);
    FormattedReadsBack(nowMs, minutes, fraction, ms);
  }

  /** The future time is a valid Date whose whole seconds are the floor of the real quotient. */
  lemma {:induction false} FutureMillis(nowMs: nat, minutes: real) returns (ms: int)
    requires minutes >= 5.0 && nowMs as real + minutes * 60000.0 <= MaxTimeMs
    ensures ms >= 0 && FutureTimeMs(nowMs, Finite(minutes)) == Some(ms)
    ensures ms / 1000 == ((nowMs as real + minutes * 60000.0) / 1000.0).Floor
  {
    var t := nowMs as real + minutes * 60000.0;
    var futureMs := FutureTimeMs(nowMs, Finite(minutes));
    assert futureMs == TimeClip(Finite(t));
    ms := futureMs.value;
    SecondsOfMillis(t, ms);
  }

  lemma {:induction false} IntegerTimestampIsSeconds(nowMs: nat, minutes: real, fraction: string, ms: int)
    requires ms >= 0 && FutureTimeMs(nowMs, Finite(minutes)) == Some(ms)
    ensures EncodeDeadline(nowMs, Finite(minutes), fraction).integerTimestamp == Some(ms / 1000)
  {
    HexTimestampParses(ms, fraction);
  }

  lemma {:induction false} FormattedReadsBack(nowMs: nat, minutes: real, fraction: string, ms: int)
    requires ms >= 0 && EncodeDeadline(nowMs, Finite(minutes), fraction).integerTimestamp == Some(ms / 1000)
    ensures EncodeDeadline(nowMs, Finite(minutes), fraction).formattedHexTimestamp == "0x" + ToRadix(ms / 1000, 16)
    ensures ParseInt(EncodeDeadline(nowMs, Finite(minutes), fraction).formattedHexTimestamp, 16) == Some(ms / 1000)
  {
    FormattedParses(ms / 1000);
  }

  /** Past the largest Date (or for an infinite duration) all three values are NaN. */
  lemma {:induction false} EncodeOutOfRange(nowMs: nat, minutes: JsNumber, fraction: string)
    requires AtLeast(minutes, 5.0)
    requires !(minutes.Finite? && nowMs as real + minutes.value * 60000.0 <= MaxTimeMs)
    ensures EncodeDeadline(nowMs, minutes, fraction) == Timestamp(HexNaN, None, HexNaN)
  {
    assert FutureTimeMs(nowMs, minutes) == None;
    HexNaNReadsNaN();
  }

  /** `parseInt("0xNaN", 16)` finds no hex digit after the prefix. */
  lemma {:induction false} HexNaNReadsNaN()
    ensures ParseInt(HexNaN, 16) == None
  {
    assert TrimStart(HexNaN) == HexNaN by { assert !IsWhiteSpace('0'); }
    assert ReadUnsigned(HexNaN, 16) == None by {
      assert HexNaN[2..] == "NaN";
      assert DigitPrefix("NaN", 16) == [];
    }
  }

  // ------------------------------------------------------------------ the page

  datatype CreateResult =
    | Rejected(message: string)   // a field check failed: the alert's text
    | NoWallet                    // no injected wallet: nothing happens
    | Failed                      // the provider or contract setup threw
    | Created(timestamp: Timestamp)

  /** The form's state and whether the page has navigated back home. */
  class CreateCampaignPage {
    var title: string
    var description: string
    var targetAmount: JsNumber
    var deadline: JsNumber
    var atHomepage: bool

    /** The form as it starts and as a successful submission leaves it. */
    predicate Cleared()
      reads this
    {
      title == "" && description == "" && targetAmount == Finite(0.0) && deadline == Finite(0.0)
    }

    constructor ()
      ensures Cleared() && !atHomepage
    {
      title, description := "", "";
      targetAmount, deadline := Finite(0.0), Finite(0.0);
      atHomepage := false;
    }

    /** The success path's `setTitle("")`, `setDescription("")`, `setTargetAmount(0)`, `setDeadline(0)` and `router.push("/")`. */
    method ClearAndGoHome()
      modifies this
      ensures Cleared() && atHomepage
    {
      title, description := "", "";
      deadline, targetAmount := Finite(0.0), Finite(0.0);
      atHomepage := true;
    }

    /**
     * `createCampaign`: the checks come first and a failure changes nothing; with a wallet the
     * deadline is encoded, the form is cleared (title and description "", amount and duration
     * 0) and the page goes home. The contract call itself is not made by the source.
     */
    method Create(nowMs: nat, ethereum: bool, setupThrows: bool, fraction: string) returns (result: CreateResult)
      modifies this
      ensures var check := ValidateFields(old(title), old(description), old(targetAmount), old(deadline));
        && (check.Some? ==> result == Rejected(check.value))
        && (check.None? && !ethereum ==> result == NoWallet)
        && (check.None? && ethereum && setupThrows ==> result == Failed)
        && (check.None? && ethereum && !setupThrows ==>
              result == Created(EncodeDeadline(nowMs, old(deadline), fraction)))
      ensures result.Created? ==> Cleared() && atHomepage
      ensures !result.Created? ==> unchanged(this)
    {
      var check := ValidateFields(title, description, targetAmount, deadline);
      if check.Some? {
        return Rejected(check.value);
      }
      if !ethereum {
        return NoWallet;
      }
      if setupThrows {
        return Failed;
      }
      var timestamp := EncodeDeadline(nowMs, deadline, fraction);
      ClearAndGoHome();
      result := Created(timestamp);
    }
  }
}
