/** The UPDATE statements on the auction row, column by column. */
module Statements {
  import opened Schema
  import opened Transactions

  /** The columns an UPDATE of the auction row sets. */
  datatype Columns =
    | BidColumns(price: int, extension: Option<Extension>)
    | CloseColumns(now: Millis, winner: Option<UserId>, price: int)
    | PatchColumns(p: Patch)
    | ReopenColumns(endTime: Millis, price: int)
    | PayloadColumns(payload: Option<Json>)

  datatype Extension = Extension(endTime: Millis, lastExtendedAt: Millis, extendCount: int)

  function SetColumns(row: Auction, c: Columns): Auction {
    match c
    case BidColumns(price, None) => row.(currentPrice := price)
    case BidColumns(price, Some(x)) =>
      row.(currentPrice := price, endTime := x.endTime, lastExtendedAt := Some(x.lastExtendedAt),
           extendCount := x.extendCount)
    case CloseColumns(now, winner, price) => ClosedRow(row, winner, price, now)
    case PatchColumns(p) => Patched(row, p)
    case ReopenColumns(endTime, price) =>
      row.(status := OPEN, winnerUserId := None, closedAt := None, endTime := endTime, currentPrice := price,
           postCloseFinalizePayload := None)
    case PayloadColumns(payload) => row.(postCloseFinalizePayload := payload)
  }

  /** `buildBidUpdateData`, from the row the transaction read. */
  function BidColumnsOf(row: Auction, now: Millis, price: int): Columns {
    BidColumns(price,
               if row.endTime - now <= THRESHOLD_MS && row.extendCount < SOFT_CLOSE_MAX_EXTEND_COUNT
               then Some(Extension(row.endTime + EXTENSION_MS, now, row.extendCount + 1)) else None)
  }

  /** Setting these columns is the bid's update of the row it was computed from. */
  lemma BidColumnsUpdate(row: Auction, now: Millis, price: int)
    ensures SetColumns(row, BidColumnsOf(row, now, price)) == BidUpdate(row, now, price)
  {
  }
}
