/** The payment-terms table and the due dates derived from it (src/utils/paymentTerms.ts). */
module PaymentTermsUtil {
  import opened Wrappers
  import opened Strings
  import opened Seqs
  import opened Domain

  /** The six common payment terms, in the order the select lists them. */
  const Options: seq<PaymentTerms> := [
    PaymentTerms(0, "Due on Receipt"),
    PaymentTerms(15, "Net 15"),
    PaymentTerms(30, "Net 30"),
    PaymentTerms(45, "Net 45"),
    PaymentTerms(60, "Net 60"),
    PaymentTerms(90, "Net 90")
  ]

  /** The table has six entries whose days are 0, 15, 30, 45, 60, 90: strictly ascending. */
  lemma OptionsAscending()
    ensures |Options| == 6
    ensures forall i, j :: 0 <= i < j < |Options| ==> Options[i].days < Options[j].days
    ensures forall i :: 0 <= i < |Options| ==> Options[i].days == [0, 15, 30, 45, 60, 90][i]
  {
  }

  /** The issue date moved forward by exactly `terms.days` days. */
  function CalculateDueDate(issuedDate: int, terms: PaymentTerms): (due: int)
    ensures due - issuedDate == terms.days * DAY
  {
    issuedDate + terms.days * DAY
  }

  function HasDays(days: int): PaymentTerms -> bool { (t: PaymentTerms) => t.days == days }

  /** The first option with the given days (`find`). */
  function FindByDays(opts: seq<PaymentTerms>, days: int): (r: Option<PaymentTerms>)
    ensures r.None? <==> forall i :: 0 <= i < |opts| ==> opts[i].days != days
    ensures r.Some? ==> exists i :: 0 <= i < |opts| && opts[i] == r.value && r.value.days == days
                                    && forall j :: 0 <= j < i ==> opts[j].days != days
  {
    FindFirst(opts, HasDays(days))
  }

  /** The option with the given days, or `None` (undefined) when no option has them. */
  function GetPaymentTermsByDays(days: int): (r: Option<PaymentTerms>)
    ensures r.Some? <==> exists i :: 0 <= i < |Options| && Options[i].days == days
    ensures r.Some? ==> r.value in Options && r.value.days == days
  {
    FindByDays(Options, days)
  }

  /** Because the days are distinct, the option found is the only one with those days. */
  lemma GetPaymentTermsByDaysUnique(days: int, t: PaymentTerms)
    requires t in Options && t.days == days
    ensures GetPaymentTermsByDays(days) == Some(t)
  {
    OptionsAscending();
  }

  function FormatPaymentTerms(terms: PaymentTerms): (r: string)
    ensures r == terms.description
  {
    terms.description
  }

  /** Days and a description; without a non-empty description, "Net 1 day" or "Net <d> days". */
  function CreateCustomPaymentTerms(days: int, description: Option<string>): (r: PaymentTerms)
    ensures r.days == days
    ensures description.Some? && description.value != "" ==> r.description == description.value
    ensures (description.None? || description.value == "") ==>
      r.description == "Net " + IntToString(days) + (if days == 1 then " day" else " days")
  {
    PaymentTerms(days, OrString(description, "Net " + IntToString(days) + (if days == 1 then " day" else " days")))
  }

  lemma CustomDefaultOneDay()
    ensures CreateCustomPaymentTerms(1, None).description == "Net 1 day"
    ensures CreateCustomPaymentTerms(30, Some("")).description == "Net 30 days"
  {
  }
}
