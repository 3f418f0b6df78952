/** Concrete messages: inputs on which the promises that do not hold without a condition fail. */
module SampleMessages {
  import opened Wrappers
  import opened GoText
  import opened GoTime
  import opened Documents

  /** Any text that is not blank will do for the fields of these messages. */
  const TEXT := "x"

  lemma TextPasses()
    ensures !IsBlank(TEXT)
  {
    OpensWithTextNotBlank(TEXT);
  }

  /** A complete request but for its two dates. */
  function RequestDated(issuedAt: Timestamp, dueAt: Timestamp): CreateInvoiceRequest {
    var money := Money(1, TEXT);
    CreateInvoiceRequest(
      TEXT, TEXT, TEXT, Some(issuedAt), Some(dueAt),
      Some(Payer(TEXT, TEXT, TEXT, TEXT)), Some(BookingMessage(TEXT, 1, 1, Some(money))),
      Some(money), Some(money), Some(money))
  }

  lemma DatedRequestIsComplete(issuedAt: Timestamp, dueAt: Timestamp)
    ensures Complete(RequestDated(issuedAt, dueAt)) <==> AsTime(Some(issuedAt)) < AsTime(Some(dueAt))
  {
    TextPasses();
  }

  /** Issued at 0001-01-01T00:00:00Z, due at the epoch. */
  const ZERO_DATED := RequestDated(Timestamp(-62135596800, 0), Timestamp(0, 0))

  /** Issued a nanosecond after the epoch, due a second after it. */
  const FINE_DATED := RequestDated(Timestamp(0, 1), Timestamp(1, 0))

  /** The service accepts this request, and the store refuses its invoice. */
  lemma ZeroDatedIsCompleteNotStorable()
    ensures Complete(ZERO_DATED) && !Storable(ZERO_DATED)
  {
    DatedRequestIsComplete(Timestamp(-62135596800, 0), Timestamp(0, 0));
  }

  /** The service accepts this request, the store keeps its invoice, but cuts one of its dates. */
  lemma FineDatedIsCut()
    ensures Complete(FINE_DATED) && Storable(FINE_DATED)
    ensures !WholeMillis(AsTime(FINE_DATED.issuedAt))
  {
    var issuedAt, dueAt := Timestamp(0, 1), Timestamp(1, 0);
    DatedRequestIsComplete(issuedAt, dueAt);
    WholeMillisOfTimestamp(issuedAt);
    assert FINE_DATED.issuedAt == Some(issuedAt);
  }

  /** A card number of three bytes. */
  const SHORT_CARD := Card(TEXT, "123", 1, 2030, TEXT, TEXT)

  const LONG_CARD := Card(TEXT, "1234", 1, 2030, TEXT, TEXT)

  /** Validation accepts both cards. */
  lemma CardsPassValidation(card: Card, number: string)
    requires card == SHORT_CARD || card == LONG_CARD
    ensures PayRequestChecks(PayWithCardRequest(Some(card), number)).Pass() <==> !IsBlank(number)
  {
    TextPasses();
    OpensWithTextNotBlank(card.number);
    PayRequestPassesIff(PayWithCardRequest(Some(card), number));
  }
}
