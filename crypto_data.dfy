/**
 * The instrument record streamed from the backend (backend model class CryptoData):
 * identity, display names, four decimal quantities and the moment of the quote.
 * No arithmetic is done on the decimals or the instant in the modelled code, so they
 * are kept as plain values; the only question ever asked of a decimal is whether it
 * is zero (the JavaScript falsiness test on a parsed price).
 */
module CryptoData {
  import opened Wrappers

  /** A BigDecimal: unscaled * 10^(-scale). */
  datatype Decimal = Decimal(unscaled: int, scale: nat) {
    /** Zero at any scale; a JSON number 0 (or 0.00) is falsy once parsed. */
    predicate IsZero() { unscaled == 0 }
  }

  /** An Instant, as seconds and nanoseconds since the epoch. */
  datatype Instant = Instant(epochSecond: int, nano: nat)

  /**
   * One snapshot of an instrument. `price` may be absent (a null BigDecimal);
   * the other quantities are carried through unchanged and never inspected.
   */
  datatype Crypto = Crypto(
    id: string,
    symbol: string,
    name: string,
    price: Option<Decimal>,
    changePercent24h: Decimal,
    marketCapUsd: Decimal,
    volumeUsd24Hr: Decimal,
    timestamp: Instant)
}
