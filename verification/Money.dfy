/** The one conversion between the ledger's micro-dollars and the payment engine's cents, and the
    ledger key of a payment. */
module Money {

  datatype Result<+T> = Ok(value: T) | Err(message: string)

  const MICROS_PER_CENT := 10_000

  /** Positive whole cents only; anything else throws. */
  function CentsFromMicros(micros: int): (r: Result<int>)
    ensures r.Ok? <==> exists c :: c > 0 && micros == MicrosFromCents(c)
    ensures r.Ok? ==> r.value > 0 && MicrosFromCents(r.value) == micros
  {
    if micros <= 0 then Err("amountMicros must be a positive integer")
    else if micros % MICROS_PER_CENT != 0 then Err("amountMicros must be a whole number of cents")
    else
      assert MicrosFromCents(micros / MICROS_PER_CENT) == micros;
      Ok(micros / MICROS_PER_CENT)
  }

  function MicrosFromCents(cents: int): int { cents * MICROS_PER_CENT }

  /** Charging an amount in cents and crediting those cents brings back the amount, exactly when
      it is a positive number of whole cents; and the other way round for every positive charge. */
  lemma CentsRoundTrip(micros: int, cents: int)
    ensures CentsFromMicros(micros).Ok? <==> micros > 0 && micros % MICROS_PER_CENT == 0
    ensures CentsFromMicros(micros).Ok? ==> MicrosFromCents(CentsFromMicros(micros).value) == micros
    ensures CentsFromMicros(MicrosFromCents(cents)) == (if cents > 0 then Ok(cents) else CentsFromMicros(0))
  {
    if cents > 0 { assert MicrosFromCents(cents) / MICROS_PER_CENT == cents; }
  }

  /** The ledger's idempotency key of a payment. */
  function CreditKeyForPayment(ref: string): string { "stripe:" + ref }

  /** Two payments never share a ledger key. */
  lemma CreditKeyInjective(p: string, q: string)
    requires CreditKeyForPayment(p) == CreditKeyForPayment(q)
    ensures p == q
  {
    assert CreditKeyForPayment(p)[7..] == p && CreditKeyForPayment(q)[7..] == q;
  }
}
