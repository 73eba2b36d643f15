/**
 * The payments table (PaymentsList.tsx): each row's amount in the base
 * currency, the total over all rows, the note with the original amount, and
 * the status badge (missing means "pending").
 */
module PaymentsList {
  import opened Common
  import opened Seqs
  import opened Badges

  /** One row of the payments table, as far as the computations read it. */
  datatype Payment = Payment(id: string, amount: real, currency: Option<string>, status: Option<string>)

  /** `payment.currency || "INR"`: the currency the amount is converted from. */
  function Currency(p: Payment): (c: string)
    ensures c != ""
    ensures Truthy(p.currency) ==> c == p.currency.value
    ensures !Truthy(p.currency) ==> c == BaseCurrency
  {
    OrElse(p.currency, BaseCurrency)
  }

  /** `amountInINR` of a row: a missing currency is converted as INR. */
  function AmountInBase(p: Payment, convert: Converter): (amount: real)
    ensures !Truthy(p.currency) ==> amount == convert(p.amount, BaseCurrency)
    ensures Truthy(p.currency) ==> amount == convert(p.amount, p.currency.value)
  {
    convert(p.amount, Currency(p))
  }

  /** `totalInINR`: the fold of the row amounts; nothing loaded yet totals 0. */
  function TotalInBase(payments: Option<seq<Payment>>, convert: Converter): (total: real)
    ensures payments.None? || payments == Some([]) ==> total == 0.0
  {
    match payments
    case None => 0.0
    case Some(ps) => SumBy(ps, p => AmountInBase(p, convert))
  }

  /** The total of two lists put together is the sum of their totals. */
  lemma TotalAdditive(a: seq<Payment>, b: seq<Payment>, convert: Converter)
    ensures TotalInBase(Some(a + b), convert) == TotalInBase(Some(a), convert) + TotalInBase(Some(b), convert)
  {
    SumConcat(a, b, p => AmountInBase(p, convert));
  }

  /**
   * Adding a row adds exactly the amount that row shows; a row without a
   * currency adds its amount converted as INR.
   */
  lemma TotalAppend(ps: seq<Payment>, q: Payment, convert: Converter)
    ensures TotalInBase(Some(ps + [q]), convert) == TotalInBase(Some(ps), convert) + AmountInBase(q, convert)
    ensures !Truthy(q.currency) ==>
      TotalInBase(Some(ps + [q]), convert) == TotalInBase(Some(ps), convert) + convert(q.amount, BaseCurrency)
  {
    TotalAdditive(ps, [q], convert);
    assert [q][1..] == [];
    assert TotalInBase(Some([q]), convert) == AmountInBase(q, convert) + TotalInBase(Some([]), convert);
  }

  /** The "(amount currency)" note is shown unless the raw currency is exactly "INR". */
  predicate ShowsOriginalAmount(p: Payment) {
    p.currency != Some(BaseCurrency)
  }

  /**
   * A row without a currency is converted as INR and still shows the note,
   * which then repeats the amount with an empty currency.
   */
  lemma MissingCurrencyShowsNote(p: Payment, convert: Converter)
    requires !Truthy(p.currency)
    ensures ShowsOriginalAmount(p)
    ensures AmountInBase(p, convert) == convert(p.amount, BaseCurrency)
  {
  }

  /** The note as evidently intended: only when the row really is in another currency. */
  predicate ShowsOriginalAmountIntended(p: Payment) {
    Currency(p) != BaseCurrency
  }

  /** The intended note is shown exactly when the amount was converted from another currency. */
  lemma IntendedNoteIffConverted(p: Payment)
    ensures ShowsOriginalAmountIntended(p) <==> Truthy(p.currency) && p.currency.value != BaseCurrency
    ensures ShowsOriginalAmountIntended(p) ==> ShowsOriginalAmount(p)
  {
  }

  /** `getStatusBadge`'s table. */
  const StatusVariants: map<string, Variant> :=
    map["paid" := Default, "pending" := Secondary, "failed" := Destructive, "refunded" := Outline]

  /** `payment.status || "pending"` */
  function DisplayStatus(status: Option<string>): (s: string)
    ensures s != ""
    ensures Truthy(status) ==> s == status.value
    ensures !Truthy(status) ==> s == "pending"
  {
    OrElse(status, "pending")
  }

  /** The status badge of a payment row; a payment without a status shows "pending". */
  function StatusBadge(status: Option<string>): (b: Badge)
    ensures b.text == DisplayStatus(status)
    ensures !Truthy(status) ==> b == Badge(Secondary, "pending")
    ensures b.variant == Secondary <==> b.text == "pending"
    ensures b.variant == Destructive <==> b.text == "failed"
    ensures b.variant == Outline <==> b.text == "refunded"
    ensures b.variant == Default <==> b.text != "pending" && b.text != "failed" && b.text != "refunded"
  {
    var shown := DisplayStatus(status);
    Badge(VariantFor(StatusVariants, shown), shown)
  }
}
