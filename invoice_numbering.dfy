/**
 * The sequential invoice-number counter (src/utils/invoiceNumberGenerator.ts). The two
 * browser-storage slots are the fields of `NumberCounter`; each slot holds the decimal text
 * of an integer written by this code, so a slot is modelled by the integer it parses back
 * to (`ParseIntOfInt`), and a present slot is never the empty (falsy) string.
 */
module InvoiceNumbering {
  import opened Wrappers
  import opened Strings

  /** `INV-YYYY-NNNN`: the sequence zero-padded to at least four characters, never cut. */
  function Format(year: int, sequence: int): string {
    "INV-" + IntToString(year) + "-" + PadStart(IntToString(sequence), 4, '0')
  }

  /** The sequence the next generate uses: 1 in a new year or with no stored sequence. */
  function NextSequence(storedYear: Option<int>, storedSequence: Option<int>, currentYear: int): (n: int)
    ensures storedYear != Some(currentYear) ==> n == 1
    ensures storedYear == Some(currentYear) && storedSequence.None? ==> n == 1
    ensures storedYear == Some(currentYear) && storedSequence.Some? ==> n == storedSequence.value + 1
  {
    if storedYear != Some(currentYear) then 1
    else if storedSequence.Some? then storedSequence.value + 1
    else 1
  }

  /** The padded part of a number is exactly the sequence's digits once it has four or more. */
  lemma FormatNoTruncation(year: int, sequence: int)
    requires sequence >= 1000
    ensures Format(year, sequence) == "INV-" + IntToString(year) + "-" + IntToString(sequence)
  {
    assert sequence / 10 >= 100 && sequence / 10 / 10 >= 10;
    var s := NatToString(sequence);
    assert s == NatToString(sequence / 10) + [DigitChar(sequence % 10)];
    assert |NatToString(sequence / 10)| == |NatToString(sequence / 10 / 10)| + 1;
    assert |NatToString(sequence / 10 / 10)| == |NatToString(sequence / 10 / 10 / 10)| + 1;
  }

  /** The digits after the last hyphen read back as the sequence: nothing is lost. */
  lemma FormatSequenceRecoverable(year: int, sequence: nat)
    ensures var f := Format(year, sequence);
            var prefix := "INV-" + IntToString(year) + "-";
            |prefix| <= |f| && f[..|prefix|] == prefix
            && AllDigits(f[|prefix|..]) && DigitsValue(f[|prefix|..]) == sequence
  {
    var prefix := "INV-" + IntToString(year) + "-";
    var f := Format(year, sequence);
    assert f[|prefix|..] == PadStart(NatToString(sequence), 4, '0');
    PadStartValue(sequence, 4);
  }

  /** Two non-negative sequences give the same number in a year only if they are equal. */
  lemma FormatInjective(year: int, a: nat, b: nat)
    requires Format(year, a) == Format(year, b)
    ensures a == b
  {
    FormatSequenceRecoverable(year, a);
    FormatSequenceRecoverable(year, b);
  }

  /** The sequences produced by `n` successive generates in one year, from a stored state. */
  function Run(storedYear: Option<int>, storedSequence: Option<int>, year: int, n: nat): (r: seq<int>)
    ensures |r| == n
    decreases n
  {
    if n == 0 then []
    else
      var first := NextSequence(storedYear, storedSequence, year);
      [first] + Run(Some(year), Some(first), year, n - 1)
  }

  /** Within one year the k-th generate yields the first sequence plus k. */
  lemma {:induction false} RunIncreasing(storedYear: Option<int>, storedSequence: Option<int>, year: int, n: nat)
    ensures forall k :: 0 <= k < n ==>
      Run(storedYear, storedSequence, year, n)[k] == NextSequence(storedYear, storedSequence, year) + k
    decreases n
  {
    if n > 0 {
      var first := NextSequence(storedYear, storedSequence, year);
      RunIncreasing(Some(year), Some(first), year, n - 1);
    }
  }

  /** Successive generates in one year yield strictly increasing, hence distinct, sequences. */
  lemma RunDistinct(storedYear: Option<int>, storedSequence: Option<int>, year: int, n: nat)
    ensures forall i, j :: 0 <= i < j < n ==>
      Run(storedYear, storedSequence, year, n)[i] < Run(storedYear, storedSequence, year, n)[j]
  {
    RunIncreasing(storedYear, storedSequence, year, n);
  }

  /** The numbers of such a run are pairwise distinct when it starts at a non-negative sequence. */
  lemma RunNumbersDistinct(storedYear: Option<int>, storedSequence: Option<int>, year: int, n: nat, i: nat, j: nat)
    requires NextSequence(storedYear, storedSequence, year) >= 0
    requires i < j < n
    ensures Format(year, Run(storedYear, storedSequence, year, n)[i])
            != Format(year, Run(storedYear, storedSequence, year, n)[j])
  {
    RunIncreasing(storedYear, storedSequence, year, n);
    var r := Run(storedYear, storedSequence, year, n);
    if Format(year, r[i]) == Format(year, r[j]) {
      FormatInjective(year, r[i], r[j]);
    }
  }

  class NumberCounter {
    /** The parsed `invoice_year` slot; `None` when the slot is empty. */
    var storedYear: Option<int>
    /** The parsed `invoice_number_sequence` slot; `None` when the slot is empty. */
    var storedSequence: Option<int>

    constructor()
      ensures storedYear.None? && storedSequence.None?
    {
      storedYear := None;
      storedSequence := None;
    }

    /** Takes the next number: restarts at 1 in a new year, and stores year and sequence. */
    method Generate(currentYear: int) returns (number: string)
      modifies this
      ensures storedYear == Some(currentYear)
      ensures storedSequence == Some(NextSequence(old(storedYear), old(storedSequence), currentYear))
      ensures number == Format(currentYear, storedSequence.value)
    {
      var sequence := 1;
      if storedYear != Some(currentYear) {
        sequence := 1;
        storedYear := Some(currentYear);
      } else {
        sequence := if storedSequence.Some? then storedSequence.value + 1 else 1;
      }
      storedSequence := Some(sequence);
      number := Format(currentYear, sequence);
    }

    /** The stored sequence, or 0 when none is stored. */
    method GetCurrentSequence() returns (n: int)
      ensures storedSequence.Some? ==> n == storedSequence.value
      ensures storedSequence.None? ==> n == 0
    {
      n := if storedSequence.Some? then storedSequence.value else 0;
    }

    /** What the next `Generate(currentYear)` would return, without storing anything. */
    method Preview(currentYear: int) returns (number: string)
      ensures number == Format(currentYear, NextSequence(storedYear, storedSequence, currentYear))
    {
      var nextSequence := 1;
      if storedYear == Some(currentYear) && storedSequence.Some? {
        nextSequence := storedSequence.value + 1;
      }
      number := Format(currentYear, nextSequence);
    }

    /** Empties both slots, so the next generate in any year yields sequence 1. */
    method Reset()
      modifies this
      ensures storedYear.None? && storedSequence.None?
      ensures forall y :: NextSequence(storedYear, storedSequence, y) == 1
    {
      storedSequence := None;
      storedYear := None;
    }

    /**
     * Stores `sequence - 1` for the given year (an absent or zero year means the current
     * one), so that the next generate in that year yields `sequence`.
     */
    method SetInvoiceSequence(sequence: int, year: Option<int>, currentYear: int)
      modifies this
      ensures storedSequence == Some(sequence - 1)
      ensures storedYear == Some(if year.Some? && year.value != 0 then year.value else currentYear)
      ensures NextSequence(storedYear, storedSequence, storedYear.value) == sequence
    {
      var targetYear := if year.Some? && year.value != 0 then year.value else currentYear;
      storedSequence := Some(sequence - 1);
      storedYear := Some(targetYear);
    }
  }
}
