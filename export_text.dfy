/**
 * The text formats of the export report: amounts of money as US dollars,
 * hour totals, and the target part of an upcoming goal's line.
 */
module ExportText {
  import opened Strings

  /** Digits grouped by three with commas, from the right. */
  function Grouped(digits: string): (r: string)
    decreases |digits|
  {
    if |digits| <= 3 then digits else Grouped(digits[..|digits| - 3]) + "," + digits[|digits| - 3..]
  }

  /** The text without its commas. */
  function Ungrouped(s: string): (r: string)
    decreases |s|
  {
    if s == [] then [] else Ungrouped(s[..|s| - 1]) + (if s[|s| - 1] == ',' then [] else [s[|s| - 1]])
  }

  lemma {:induction false} UngroupedAppend(a: string, b: string)
    ensures Ungrouped(a + b) == Ungrouped(a) + Ungrouped(b)
    decreases |b|
  {
    if b != [] {
      assert (a + b)[..|a + b| - 1] == a + b[..|b| - 1];
      UngroupedAppend(a, b[..|b| - 1]);
    } else {
      assert a + b == a;
    }
  }

  lemma {:induction false} UngroupedPlain(s: string)
    requires ',' !in s
    ensures Ungrouped(s) == s
    decreases |s|
  {
    if s != [] {
      UngroupedPlain(s[..|s| - 1]);
      assert s[..|s| - 1] + [s[|s| - 1]] == s;
    }
  }

  /** A comma between two pieces disappears when the commas are taken out. */
  lemma UngroupedComma(a: string, b: string)
    requires ',' !in b
    ensures Ungrouped(a + "," + b) == Ungrouped(a) + b
  {
    assert Ungrouped(a + "," + b) == Ungrouped(a + ",") + Ungrouped(b) by {
      UngroupedAppend(a + ",", b);
    }
    assert Ungrouped(a + ",") == Ungrouped(a) by {
      UngroupedAppend(a, ",");
      assert ","[..0] == [];
    }
    assert Ungrouped(b) == b by {
      UngroupedPlain(b);
    }
  }

  /** Grouping only inserts commas: taking them out again gives back the digits. */
  lemma {:induction false} GroupedRoundTrip(digits: string)
    requires ',' !in digits
    ensures Ungrouped(Grouped(digits)) == digits
    decreases |digits|
  {
    if |digits| <= 3 {
      UngroupedPlain(digits);
    } else {
      var head, tail := digits[..|digits| - 3], digits[|digits| - 3..];
      assert digits == head + tail;
      assert ',' !in head && ',' !in tail;
      calc {
        Ungrouped(Grouped(digits));
        Ungrouped(Grouped(head) + "," + tail);
        { UngroupedComma(Grouped(head), tail); }
        Ungrouped(Grouped(head)) + tail;
        { GroupedRoundTrip(head); }
        head + tail;
      }
    }
  }

  /** `toLocaleString(undefined, { style: "currency", currency: "USD" })` in English: "$1,234.00", "-$5.00". */
  function Money(n: int): (r: string)
    ensures n >= 0 ==> r == "$" + Grouped(NatToString(n)) + ".00"
    ensures n < 0 ==> r == "-$" + Grouped(NatToString(-n)) + ".00"
  {
    (if n < 0 then "-$" else "$") + Grouped(NatToString(if n < 0 then -n else n)) + ".00"
  }

  /** `hoursFmt` on an integer total: `toFixed(1)` and "h". */
  function HoursText(n: int): (r: string)
  {
    IntToString(n) + ".0h"
  }

  /** The target part before trimming: `` ` • Target: ${value} ${unit}` ``. */
  function RawTarget(value: string, unit: string): (r: string)
    ensures |r| >= 11 && r[..10] == " • Target:" && r[10] == ' '
  {
    " • Target: " + value + " " + unit
  }

  /**
   * The target part as written: the whole text trimmed, which removes the
   * blank meant for the trailing unit and also the leading one.
   */
  function TargetAsWritten(value: string, unit: string): (r: string)
  {
    Trim(RawTarget(value, unit))
  }

  /** The target part with only its trailing blanks removed. */
  function Target(value: string, unit: string): (r: string)
  {
    TrimEnd(RawTarget(value, unit))
  }

  /** As written, the part never keeps its separator: it begins with "•" itself. */
  lemma TargetAsWrittenGlued(value: string, unit: string)
    ensures |TargetAsWritten(value, unit)| >= 9 && TargetAsWritten(value, unit)[0] == '•'
  {
    var s := RawTarget(value, unit);
    assert IsSpace(s[0]) && !IsSpace(s[1]) && !IsSpace(s[9]);
    assert Lead(s) == 1;
    assert Trail(s) < |s| - 9;
  }

  /** When the unit ends in a non-blank, the trim as written removes exactly the leading blank. */
  lemma TargetAsWrittenDrops(value: string, unit: string)
    requires unit != [] && !IsSpace(unit[|unit| - 1])
    ensures TargetAsWritten(value, unit) == RawTarget(value, unit)[1..]
  {
    var s := RawTarget(value, unit);
    assert IsSpace(s[0]) && !IsSpace(s[1]);
    assert Lead(s) == 1;
    assert s[|s| - 1] == unit[|unit| - 1];
    assert Trail(s) == 0;
  }

  /** The goal "Run" with target 5 km: as written its line reads "Run• Target: 5 km", the blank lost. */
  lemma TrimDropsSeparator()
    ensures "Run" + TargetAsWritten("5", "km") == "Run• Target: 5 km"
  {
    TargetAsWrittenDrops("5", "km");
    RawTargetOfRun();
  }

  lemma RawTargetOfRun()
    ensures RawTarget("5", "km")[1..] == "• Target: 5 km"
  {
    assert RawTarget("5", "km") == " • Target: 5 km";
  }

  /** Corrected, the part keeps the " • " separator that the category and the due date carry. */
  lemma TargetKeepsSeparator(value: string, unit: string)
    ensures StartsWith(Target(value, unit), " • Target:")
    ensures unit != [] && !IsSpace(unit[|unit| - 1]) ==> Target(value, unit) == RawTarget(value, unit)
  {
    var s := RawTarget(value, unit);
    assert !IsSpace(s[9]);
    var r := TrimEnd(s);
    assert |r| >= 10;
    assert r[..10] == s[..10];
    if unit != [] && !IsSpace(unit[|unit| - 1]) {
      assert s[|s| - 1] == unit[|unit| - 1];
      assert Trail(s) == 0;
    }
  }
}
