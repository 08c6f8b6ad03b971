/**
 * The tradability queries over a trading-status response, shared by
 * src/market_data_service/get_trading_statuses.rs, src/quotes/get_trading_statuses.rs
 * and src/quotes/get_instruments_statuses.rs (the three carry the same code):
 * first-match lookup by instrument uid, the "available for trading"
 * predicate, and the order-preserving list of available uids.
 */
module TradingStatuses {
  import opened Models

  datatype TradingStatus =
    | Unspecified | NotAvailableForTrading | OpeningPeriod | ClosingPeriod | BreakInTrading
    | NormalTrading | ClosingAuction | DarkPoolAuction | DiscreteAuction | OpeningAuctionPeriod
    | TradingAtClosingAuctionPrice | SessionAssigned | SessionClose | SessionOpen
    | DealerNormalTrading | DealerBreakInTrading | DealerNotAvailableForTrading

  datatype TradingStatusResponse = TradingStatusResponse(
    figi: string,
    tradingStatus: Option<TradingStatus>,
    limitOrderAvailableFlag: bool,
    marketOrderAvailableFlag: bool,
    apiTradeAvailableFlag: bool,
    instrumentUid: string,
    bestpriceOrderAvailableFlag: bool,
    onlyBestPrice: bool)

  /** An entry allows trading: the API flag is set and the status is normal trading. */
  predicate Tradable(st: TradingStatusResponse)
  {
    st.apiTradeAvailableFlag && st.tradingStatus == Some(NormalTrading)
  }

  /** No entry before position `j` has uid `uid`. */
  predicate NoEarlierMatch(statuses: seq<TradingStatusResponse>, uid: string, j: int)
    requires 0 <= j <= |statuses|
  {
    forall k :: 0 <= k < j ==> statuses[k].instrumentUid != uid
  }

  /** `get_instrument_status`: the first entry with the uid, if any. */
  function GetInstrumentStatus(statuses: seq<TradingStatusResponse>, uid: string): (r: Option<TradingStatusResponse>)
    ensures r.None? <==> NoEarlierMatch(statuses, uid, |statuses|)
    ensures r.Some? ==> exists j :: 0 <= j < |statuses| && statuses[j] == r.value
                                   && r.value.instrumentUid == uid && NoEarlierMatch(statuses, uid, j)
  {
    if statuses == [] then None
    else if statuses[0].instrumentUid == uid then
      assert NoEarlierMatch(statuses, uid, 0);
      Some(statuses[0])
    else
      var r := GetInstrumentStatus(statuses[1..], uid);
      assert forall k :: 1 <= k < |statuses| ==> statuses[k] == statuses[1..][k - 1];
      if r.Some? then
        var j :| 0 <= j < |statuses[1..]| && statuses[1..][j] == r.value
                 && r.value.instrumentUid == uid && NoEarlierMatch(statuses[1..], uid, j);
        assert statuses[j + 1] == r.value && NoEarlierMatch(statuses, uid, j + 1);
        r
      else
        r
  }

  /** `is_instrument_available`: the first entry with the uid exists and is tradable. */
  function IsInstrumentAvailable(statuses: seq<TradingStatusResponse>, uid: string): (b: bool)
    ensures b <==> exists j :: 0 <= j < |statuses| && statuses[j].instrumentUid == uid
                              && NoEarlierMatch(statuses, uid, j) && Tradable(statuses[j])
  {
    match GetInstrumentStatus(statuses, uid)
    case Some(st) =>
      FirstMatchUnique(statuses, uid);
      Tradable(st)
    case None => false
  }

  /** There is at most one first match. */
  lemma FirstMatchUnique(statuses: seq<TradingStatusResponse>, uid: string)
    ensures forall i, j ::
              0 <= i < |statuses| && 0 <= j < |statuses|
              && statuses[i].instrumentUid == uid && NoEarlierMatch(statuses, uid, i)
              && statuses[j].instrumentUid == uid && NoEarlierMatch(statuses, uid, j)
              ==> i == j
  {
  }

  /** `get_available_instruments`: the uids of the tradable entries, in response order. */
  function GetAvailableInstruments(statuses: seq<TradingStatusResponse>): (r: seq<string>)
    ensures |r| <= |statuses|
    ensures forall u :: u in r <==> exists j :: 0 <= j < |statuses| && statuses[j].instrumentUid == u
                                              && Tradable(statuses[j])
  {
    if statuses == [] then []
    else
      var rest := GetAvailableInstruments(statuses[1..]);
      assert forall k :: 1 <= k < |statuses| ==> statuses[k] == statuses[1..][k - 1];
      if Tradable(statuses[0]) then [statuses[0].instrumentUid] + rest else rest
  }

  /** The filter keeps the response order: it distributes over concatenation. */
  lemma {:induction false} GetAvailableInstrumentsAppend(a: seq<TradingStatusResponse>, b: seq<TradingStatusResponse>)
    ensures GetAvailableInstruments(a + b) == GetAvailableInstruments(a) + GetAvailableInstruments(b)
  {
    if a == [] {
      assert a + b == b;
    } else {
      assert (a + b)[1..] == a[1..] + b;
      GetAvailableInstrumentsAppend(a[1..], b);
    }
  }

  predicate DistinctUids(statuses: seq<TradingStatusResponse>)
  {
    forall i, j :: 0 <= i < j < |statuses| ==> statuses[i].instrumentUid != statuses[j].instrumentUid
  }

  /** With one entry per uid, the list and the per-uid predicate agree. */
  lemma AvailableListMatchesPredicate(statuses: seq<TradingStatusResponse>, uid: string)
    requires DistinctUids(statuses)
    ensures uid in GetAvailableInstruments(statuses) <==> IsInstrumentAvailable(statuses, uid)
  {
    if uid in GetAvailableInstruments(statuses) {
      var j :| 0 <= j < |statuses| && statuses[j].instrumentUid == uid && Tradable(statuses[j]);
      assert NoEarlierMatch(statuses, uid, j);
    }
  }

  /** Availability can only hold when a status entry exists for the uid. */
  lemma AvailableImpliesStatusPresent(statuses: seq<TradingStatusResponse>, uid: string)
    ensures IsInstrumentAvailable(statuses, uid) ==> GetInstrumentStatus(statuses, uid).Some?
    ensures IsInstrumentAvailable(statuses, uid) <==>
      GetInstrumentStatus(statuses, uid).Some? && Tradable(GetInstrumentStatus(statuses, uid).value)
  {
  }

  /**
   * Only the first entry with a uid decides: entries after it, tradable or
   * not, never change the answer.
   */
  lemma {:induction false} FirstMatchDecides(pre: seq<TradingStatusResponse>, e: TradingStatusResponse,
                                              post: seq<TradingStatusResponse>)
    requires NoEarlierMatch(pre, e.instrumentUid, |pre|)
    ensures GetInstrumentStatus(pre + [e] + post, e.instrumentUid) == Some(e)
    ensures IsInstrumentAvailable(pre + [e] + post, e.instrumentUid) == Tradable(e)
  {
    var s := pre + [e] + post;
    if pre == [] {
      assert s[0] == e;
    } else {
      assert s[0] == pre[0];
      assert s[1..] == pre[1..] + [e] + post;
      FirstMatchDecides(pre[1..], e, post);
    }
  }

  /** With no entry for the uid, there is no status and the instrument is not available. */
  lemma AbsentUidUnavailable(statuses: seq<TradingStatusResponse>, uid: string)
    requires forall k :: 0 <= k < |statuses| ==> statuses[k].instrumentUid != uid
    ensures GetInstrumentStatus(statuses, uid) == None
    ensures !IsInstrumentAvailable(statuses, uid)
  {
  }
}
