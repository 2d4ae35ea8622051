/** The finalize payload: a close result printed to JSON when finalize fails, parsed again by the retry job. */
module Payload {
  import opened Schema

  const FINALIZE_PAYLOAD_VERSION := 1

  function LosingBidJson(l: LosingBid): Json {
    Obj(map["userId" := Str(l.userId), "bidPrice" := Num(l.bidPrice), "id" := Str(l.id)])
  }

  function ToDbPayload(result: CloseResult): Json {
    Obj(map[
      "v" := Num(FINALIZE_PAYLOAD_VERSION),
      "winnerUserId" := if result.winnerUserId.Some? then Str(result.winnerUserId.value) else Null,
      "finalPrice" := Num(result.finalPrice),
      "losingBids" := Arr(seq(|result.losingBids|, i requires 0 <= i < |result.losingBids| =>
        LosingBidJson(result.losingBids[i])))])
  }

  /** A JSON value that is an object whose three fields have the types the parser asks of a losing bid. */
  predicate IsLosingBid(item: Json) {
    && item.Obj?
    && "userId" in item.fields && item.fields["userId"].Str?
    && "bidPrice" in item.fields && item.fields["bidPrice"].Num?
    && "id" in item.fields && item.fields["id"].Str?
  }

  function LosingBidOf(item: Json): LosingBid
    requires IsLosingBid(item)
  {
    LosingBid(item.fields["userId"].id, item.fields["bidPrice"].n, item.fields["id"].id)
  }

  /** The values the parser accepts, read off its tests. */
  predicate WellFormed(raw: Json) {
    && raw.Obj?
    && "v" in raw.fields && raw.fields["v"] == Num(FINALIZE_PAYLOAD_VERSION)
    && "finalPrice" in raw.fields && raw.fields["finalPrice"].Num?
    && "losingBids" in raw.fields && raw.fields["losingBids"].Arr?
    && forall i :: 0 <= i < |raw.fields["losingBids"].items| ==> IsLosingBid(raw.fields["losingBids"].items[i])
  }

  function Parsed(auctionId: AuctionId, raw: Json): CloseResult
    requires WellFormed(raw)
  {
    var items := raw.fields["losingBids"].items;
    CloseResult(
      auctionId,
      if "winnerUserId" in raw.fields && raw.fields["winnerUserId"].Str?
      then Some(raw.fields["winnerUserId"].id) else None,
      raw.fields["finalPrice"].n,
      seq(|items|, i requires 0 <= i < |items| => LosingBidOf(items[i])))
  }

  function ParseSpec(auctionId: AuctionId, raw: Json): Option<CloseResult> {
    if WellFormed(raw) then Some(Parsed(auctionId, raw)) else None
  }

  /** The parser with its early returns and the loop that pushes one losing bid at a time. */
  method ParseCloseResultFromPayload(auctionId: AuctionId, raw: Json) returns (r: Option<CloseResult>)
    ensures r == ParseSpec(auctionId, raw)
  {
    if !raw.Obj? { return None; }
    if "v" !in raw.fields || raw.fields["v"] != Num(FINALIZE_PAYLOAD_VERSION) { return None; }
    var winnerUserId: Option<UserId> := None;
    if "winnerUserId" in raw.fields && raw.fields["winnerUserId"].Str? {
      winnerUserId := Some(raw.fields["winnerUserId"].id);
    }
    if "finalPrice" !in raw.fields || !raw.fields["finalPrice"].Num? { return None; }
    if "losingBids" !in raw.fields || !raw.fields["losingBids"].Arr? { return None; }
    var items := raw.fields["losingBids"].items;
    var losingBids: seq<LosingBid> := [];
    for i := 0 to |items|
      invariant |losingBids| == i
      invariant forall k :: 0 <= k < i ==> IsLosingBid(items[k]) && losingBids[k] == LosingBidOf(items[k])
    {
      if !IsLosingBid(items[i]) { return None; }
      losingBids := losingBids + [LosingBidOf(items[i])];
    }
    r := Some(CloseResult(auctionId, winnerUserId, raw.fields["finalPrice"].n, losingBids));
    assert losingBids == Parsed(auctionId, raw).losingBids;
  }

  /** Whatever the service persists parses back to the result it came from. */
  lemma RoundTrip(result: CloseResult)
    ensures ParseSpec(result.auctionId, ToDbPayload(result)) == Some(result)
  {
    var raw := ToDbPayload(result);
    assert WellFormed(raw);
    assert Parsed(result.auctionId, raw).losingBids == result.losingBids;
  }

  /** The print, field by field: version 1, the winner or null, the price, and the losing bids in their order. */
  lemma PrintIs(result: CloseResult)
    ensures var json := ToDbPayload(result);
      && json.Obj? && json.fields.Keys == {"v", "winnerUserId", "finalPrice", "losingBids"}
      && json.fields["v"] == Num(1) && json.fields["finalPrice"] == Num(result.finalPrice)
      && json.fields["winnerUserId"] == (if result.winnerUserId.None? then Null else Str(result.winnerUserId.value))
      && json.fields["losingBids"].Arr? && |json.fields["losingBids"].items| == |result.losingBids|
      && forall k :: 0 <= k < |result.losingBids| ==>
           var l := result.losingBids[k];
           json.fields["losingBids"].items[k] ==
             Obj(map["userId" := Str(l.userId), "bidPrice" := Num(l.bidPrice), "id" := Str(l.id)])
  {
  }

  /** Printing is injective on the results of one auction, so a payload stands for exactly one close. */
  lemma PrintInjective(r1: CloseResult, r2: CloseResult)
    requires r1.auctionId == r2.auctionId && ToDbPayload(r1) == ToDbPayload(r2)
    ensures r1 == r2
  {
    RoundTrip(r1);
    RoundTrip(r2);
  }

  /** The parser also accepts values nobody printed (extra fields, a winner that is no string reads as no
      winner), but what it returns is always a fixed point of print and parse. */
  lemma ParseIsNormalising(auctionId: AuctionId, raw: Json)
    requires ParseSpec(auctionId, raw).Some?
    ensures ParseSpec(auctionId, ToDbPayload(ParseSpec(auctionId, raw).value)) == ParseSpec(auctionId, raw)
  {
    RoundTrip(Parsed(auctionId, raw));
  }
}
