/** What the controllers send back, and the tests they share. */
module Http {
  import opened Wrappers
  import opened Text
  import opened Database

  /** `res.status(status).json({ success, message })`; `success` is `status < 400`. */
  datatype Response = Response(status: nat, message: string)

  /** The text the controllers look for to recognise a stock shortage. */
  const STOCK_SHORT := "Stock insuficiente"

  /** `error.message.includes('Stock insuficiente')`. */
  predicate IsStockShortage(e: Error) {
    Contains(Message(e), STOCK_SHORT)
  }

  /** A message that starts with the shortage text is recognised, whatever follows. */
  lemma ShortagePrefix(e: Error, rest: string)
    requires Message(e) == STOCK_SHORT + rest
    ensures IsStockShortage(e)
  {
    PrefixContains(STOCK_SHORT, rest);
  }

  /** A message without an upper-case S cannot contain the shortage text. */
  lemma NoShortageWithoutS(e: Error)
    requires 'S' !in Message(e)
    ensures !IsStockShortage(e)
  {
    MissingFirstCharNotContained(Message(e), STOCK_SHORT);
  }

  /** The ledger's exit error is recognised as a shortage. */
  lemma InsufficientStockIsShortage(p: ProductId, available: real, requested: real)
    ensures IsStockShortage(InsufficientStock(p, available, requested))
  {
    ShortagePrefix(InsufficientStock(p, available, requested), " para producto ID " + NatToString(p) + ". Disponible: …, Requerido: …");
  }

  /** The sales order's stock-check error is recognised as a shortage. */
  lemma LineStockShortIsShortage(p: ProductId, available: real)
    ensures IsStockShortage(LineStockShort(p, available))
  {
    ShortagePrefix(LineStockShort(p, available), " para el producto ID " + NatToString(p) + ". Stock disponible: …");
  }

  /** A missing product is not mistaken for a shortage. */
  lemma ProductNotFoundIsNoShortage()
    ensures !IsStockShortage(ProductNotFound)
  {
    NoShortageWithoutS(ProductNotFound);
  }

  /** A missing production order is not mistaken for a shortage. */
  lemma OrderNotFoundIsNoShortage()
    ensures !IsStockShortage(ProductionOrderNotFound)
  {
    NoShortageWithoutS(ProductionOrderNotFound);
  }

  /** `error.message || fallback`: the error's own message when it has one, and never empty when the fallback is not. */
  function MessageOr(e: Error, fallback: string): (m: string)
    ensures Message(e) != "" ==> m == Message(e)
    ensures m == Message(e) || m == fallback
    ensures fallback != "" ==> m != ""
  {
    if Message(e) != "" then Message(e) else fallback
  }

  /** `!status || !validStatuses.includes(status)` fails. */
  predicate Whitelisted(status: Option<string>, valid: seq<string>) {
    status.Some? && status.value != "" && status.value in valid
  }

  /** `!x || x <= 0` fails: the quantity is present, non-zero and positive. */
  predicate PositiveQuantity(q: Option<real>) {
    q.Some? && q.value != 0.0 && q.value > 0.0
  }
}
