/**
 * `ShutterSpeed.toString`: "Auto" for `AUTO`, otherwise the display fraction followed by "s". The
 * code always prints the denominator, so the whole-second constants read "1/1s" and "15/1s"; the
 * method's documentation promises "1s" and "15s". Both readings are kept here, the documented one
 * as `Text`.
 */
module ShutterSpeedTexts {
  import opened Numbers
  import opened ShutterSpeeds

  /** `toString` as written: "Auto" for `AUTO`, otherwise numerator, "/", denominator and "s". */
  function TextAsWritten(s: ShutterSpeed): string {
    if s == Auto then "Auto" else PlainString(s.numerator) + "/" + PlainString(s.denominator) + "s"
  }

  /** The whole-second constants print as "1/1s" and "15/1s", where the documentation promises "1s" and "15s". */
  lemma AsWrittenWholeSeconds()
    ensures TextAsWritten(S1) == "1/1s" && TextAsWritten(S15) == "15/1s"
  {
    hide PlainString;
    Numerals();
  }

  /** The plain text of the whole numerators and denominators the lemmas here cite. */
  lemma Numerals()
    ensures PlainString(Decimal(1, 0)) == "1" && PlainString(Decimal(15, 0)) == "15"
    ensures PlainString(Decimal(10, 0)) == "10" && PlainString(Decimal(25000, 0)) == "25000"
  {
    One();
    Fifteen();
    Ten();
    TwentyFiveThousand();
  }

  lemma One() ensures PlainString(Decimal(1, 0)) == "1" {}
  lemma Ten() ensures PlainString(Decimal(10, 0)) == "10" {}
  lemma Fifteen() ensures PlainString(Decimal(15, 0)) == "15" {}
  lemma TwentyFiveThousand() ensures PlainString(Decimal(25000, 0)) == "25000" {}

  /** A whole number of seconds: the denominator is exactly one. */
  predicate WholeSeconds(s: ShutterSpeed) {
    s.denominator == Decimal(1, 0)
  }

  /** `toString` as documented: like the code, except that a whole number of seconds drops the "/1". */
  function Text(s: ShutterSpeed): string {
    if s == Auto then "Auto"
    else if WholeSeconds(s) then PlainString(s.numerator) + "s"
    else TextAsWritten(s)
  }

  /** Each example the documentation gives: "Auto", "1/25000s", "1/10s", "1s" and "15s". */
  lemma TextExamples()
    ensures Text(Auto) == "Auto" && Text(S1_25000) == "1/25000s" && Text(S1_10) == "1/10s"
    ensures Text(S1) == "1s" && Text(S15) == "15s"
  {
    hide PlainString;
    Numerals();
  }

  /**
   * The documented text and the code's text differ exactly on the whole-second constants other
   * than `AUTO`, and there only by the "/1" the code inserts before the "s".
   */
  lemma TextVersusAsWritten(s: ShutterSpeed)
    ensures Text(s) == TextAsWritten(s) <==> s == Auto || !WholeSeconds(s)
    ensures s != Auto && WholeSeconds(s) ==> TextAsWritten(s) == PlainString(s.numerator) + "/1s" && Text(s) == PlainString(s.numerator) + "s"
  {
    hide PlainString;
    if s != Auto && WholeSeconds(s) {
      One();
      assert |TextAsWritten(s)| == |Text(s)| + 2;
    }
  }
}
