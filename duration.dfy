/**
 * The call-duration formatter shared, as two identical copies, by the patient
 * and the doctor call screens: whole seconds become `MM:SS`, minutes and
 * seconds each left-padded with '0' to at least two digits.
 *
 * Its partner is `ParseDuration`, a strict reader of that format; the lemmas
 * below prove that the two are inverse to each other on all inputs.
 */
module Duration {
  import opened Js

  /** `n.toString().padStart(2, '0')`. */
  function Pad2(n: nat): (r: string)
    ensures |r| >= 2
    ensures n < 10 ==> r[0] == '0'
    ensures n >= 10 ==> r == DecimalText(n)
  {
    PadStart(DecimalText(n), 2, '0')
  }

  /** `formatDuration(seconds)`: `Math.floor(seconds / 60)` minutes and
      `seconds % 60` seconds; on a non-negative count JavaScript's floor
      division and remainder agree with Dafny's. */
  function FormatDuration(seconds: nat): (t: string)
    ensures |t| >= 5 && t[|t| - 3] == ':'
  {
    Pad2(seconds / 60) + ":" + Pad2(seconds % 60)
  }

  /** The minutes field of a well-formed `MM:SS` text: at least two digits,
      with a leading zero only when it has exactly two. */
  predicate MinutesField(mm: string)
  {
    |mm| >= 2 && AllDigits(mm) && (|mm| > 2 ==> mm[0] != '0')
  }

  /** The seconds field of a well-formed `MM:SS` text: exactly two digits
      whose value is below 60. */
  predicate SecondsField(ss: string)
  {
    |ss| == 2 && AllDigits(ss) && DecimalValue(ss) < 60
  }

  /** Reads a `MM:SS` text back into whole seconds; `None` for anything that
      is not in the form the formatter produces. The app has no such reader:
      it is the formatter's reference partner. */
  function ParseDuration(t: string): (r: Option<nat>)
    ensures r.Some? ==> |t| >= 5 && t[|t| - 3] == ':' && AllDigits(t[..|t| - 3]) && AllDigits(t[|t| - 2..])
  {
    if |t| >= 5 && t[|t| - 3] == ':' then
      var mm, ss := t[..|t| - 3], t[|t| - 2..];
      if MinutesField(mm) && SecondsField(ss) then Some(DecimalValue(mm) * 60 + DecimalValue(ss))
      else None
    else None
  }
}

/** What the formatter promises, proved against its reader. */
module DurationFacts {
  import opened Js
  import opened Duration

  /** A leading '0' does not change the value of a numeral. */
  lemma {:induction false} LeadingZero(s: string)
    requires AllDigits(s)
    ensures AllDigits(['0'] + s) && DecimalValue(['0'] + s) == DecimalValue(s)
  {
    if s != [] {
      var z := ['0'] + s;
      assert z[..|z| - 1] == ['0'] + s[..|s| - 1];
      assert z[|z| - 1] == s[|s| - 1];
      LeadingZero(s[..|s| - 1]);
    }
  }

  /** Padding to two digits keeps the value and yields a numeral that is at
      least two digits long, exactly two when `n < 100`, and starts with '0'
      only when it is exactly two long. */
  lemma {:induction false} Pad2Shape(n: nat)
    ensures MinutesField(Pad2(n))
    ensures DecimalValue(Pad2(n)) == n
    ensures n < 100 <==> |Pad2(n)| == 2
  {
    var d := DecimalText(n);
    if |d| < 2 {
      assert Pad2(n) == ['0'] + d;
      LeadingZero(d);
    }
  }

  /** Padding is undone by reading the value back and padding again, for
      every field the parser accepts. */
  lemma {:induction false} Pad2OfValue(p: string)
    requires MinutesField(p)
    ensures Pad2(DecimalValue(p)) == p
  {
    if p[0] == '0' {
      assert p == ['0'] + [p[1]];
      LeadingZero([p[1]]);
      assert DecimalValue([p[1]]) == DigitValue(p[1]) by {
        assert [p[1]][..0] == [];
      }
      CanonicalValue([p[1]]);
    } else {
      CanonicalValue(p);
    }
  }

  /** `toString` after reading a canonical numeral gives the numeral back. */
  lemma {:induction false} CanonicalValue(p: string)
    requires Canonical(p)
    ensures DecimalText(DecimalValue(p)) == p
  {
    if |p| > 1 {
      var q := p[..|p| - 1];
      assert Canonical(q);
      CanonicalPositive(q);
      CanonicalValue(q);
      var n := DecimalValue(p);
      assert n / 10 == DecimalValue(q) && n % 10 == DigitValue(p[|p| - 1]);
      assert p == q + [p[|p| - 1]];
    }
  }

  lemma {:induction false} CanonicalPositive(p: string)
    requires Canonical(p) && p[0] != '0'
    ensures DecimalValue(p) >= 1
  {
    if |p| > 1 {
      CanonicalPositive(p[..|p| - 1]);
    } else {
      assert p[..0] == [];
    }
  }

  /** Reading a text assembled from two accepted fields. */
  lemma {:induction false} ParseFields(mm: string, ss: string, seconds: nat)
    requires MinutesField(mm) && SecondsField(ss)
    requires seconds == DecimalValue(mm) * 60 + DecimalValue(ss)
    ensures ParseDuration(mm + ":" + ss) == Some(seconds)
  {
    var t := mm + ":" + ss;
    assert t[|t| - 3] == ':';
    assert t[..|t| - 3] == mm;
    assert t[|t| - 2..] == ss;
  }

  /** The text the formatter builds from a minutes and a seconds count reads
      back as the total number of seconds. */
  lemma {:induction false} FieldsRoundTrip(m: nat, s: nat, seconds: nat)
    requires s < 60 && seconds == m * 60 + s
    ensures ParseDuration(Pad2(m) + ":" + Pad2(s)) == Some(seconds)
  {
    Pad2Shape(m);
    Pad2Shape(s);
    ParseFields(Pad2(m), Pad2(s), seconds);
  }

  /** Floor division by 60 and its remainder recompose the count. */
  lemma {:induction false} MinutesAndSeconds(seconds: nat)
    ensures seconds % 60 < 60 && seconds == (seconds / 60) * 60 + seconds % 60
  {
  }

  /** The displayed duration reads back as the duration: the formatter
      loses nothing, whatever the number of minutes. */
  lemma {:induction false} FormatParseRoundTrip(seconds: nat)
    ensures ParseDuration(FormatDuration(seconds)) == Some(seconds)
  {
    MinutesAndSeconds(seconds);
    FieldsRoundTrip(seconds / 60, seconds % 60, seconds);
  }

  /** An accepted text splits into its two accepted fields. */
  lemma {:induction false} AcceptedFields(t: string, seconds: nat)
    requires ParseDuration(t) == Some(seconds)
    ensures |t| >= 5
    ensures t == t[..|t| - 3] + ":" + t[|t| - 2..]
    ensures MinutesField(t[..|t| - 3]) && SecondsField(t[|t| - 2..])
    ensures seconds == DecimalValue(t[..|t| - 3]) * 60 + DecimalValue(t[|t| - 2..])
  {
  }

  /** Every text the parser accepts is exactly what the formatter prints for
      the value it reads, so `MM:SS` texts and durations are in one-to-one
      correspondence. */
  lemma {:induction false} ParseFormatRoundTrip(t: string, seconds: nat)
    requires ParseDuration(t) == Some(seconds)
    ensures FormatDuration(seconds) == t
  {
    AcceptedFields(t, seconds);
    var mm, ss := t[..|t| - 3], t[|t| - 2..];
    DivMod60(seconds, DecimalValue(mm), DecimalValue(ss));
    Pad2OfValue(mm);
    Pad2OfValue(ss);
  }

  lemma {:induction false} DivMod60(seconds: nat, m: nat, s: nat)
    requires s < 60 && seconds == m * 60 + s
    ensures seconds / 60 == m && seconds % 60 == s
  {
  }

  /** Two different durations are never displayed alike. */
  lemma {:induction false} FormatInjective(a: nat, b: nat)
    requires FormatDuration(a) == FormatDuration(b)
    ensures a == b
  {
    FormatParseRoundTrip(a);
    FormatParseRoundTrip(b);
  }

  /** The three parts of a text assembled from two fields. */
  lemma {:induction false} ClockParts(mm: string, ss: string)
    requires |ss| == 2
    ensures var t := mm + ":" + ss;
      |t| == |mm| + 3 && t[..|t| - 3] == mm && t[|t| - 3] == ':' && t[|t| - 2..] == ss
  {
  }

  lemma {:induction false} UnderHundredMinutes(seconds: nat)
    ensures seconds / 60 < 100 <==> seconds < 6000
  {
  }

  /** The shape of every display: a minutes field of at least two digits, a
      ':' and a seconds field of exactly two digits worth less than 60. */
  predicate ClockShape(t: string)
  {
    |t| >= 5 && t[|t| - 3] == ':' && MinutesField(t[..|t| - 3]) && SecondsField(t[|t| - 2..])
  }

  /** The shape of the text built from a minutes and a seconds count. */
  lemma {:induction false} ClockFields(m: nat, s: nat)
    requires s < 60
    ensures ClockShape(Pad2(m) + ":" + Pad2(s))
    ensures |Pad2(m) + ":" + Pad2(s)| == 5 <==> m < 100
  {
    Pad2Shape(m);
    Pad2Shape(s);
    ClockParts(Pad2(m), Pad2(s));
  }

  /** Every display has the clock shape, and it is the five-character
      `MM:SS` exactly when there are fewer than 100 minutes. The values of
      the fields are given by `FormatParseRoundTrip`. */
  lemma {:induction false} FormatShape(seconds: nat)
    ensures ClockShape(FormatDuration(seconds))
    ensures |FormatDuration(seconds)| == 5 <==> seconds < 6000
  {
    var m, s := seconds / 60, seconds % 60;
    MinutesAndSeconds(seconds);
    UnderHundredMinutes(seconds);
    ClockFields(m, s);
    assert FormatDuration(seconds) == Pad2(m) + ":" + Pad2(s);
  }

  /** Below 100 minutes the display is the fixed five-character `MM:SS`. */
  lemma {:induction false} FormatUnderHundredMinutes(seconds: nat)
    requires seconds < 6000
    ensures var t := FormatDuration(seconds);
      |t| == 5 && t[2] == ':' && AllDigits(t[..2]) && AllDigits(t[3..])
  {
    FormatShape(seconds);
    var t := FormatDuration(seconds);
    assert t[..|t| - 3] == t[..2] && t[|t| - 2..] == t[3..];
  }
}
