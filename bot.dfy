/**
 * `Bot::filter_instruments` of src/bot.rs. It is the same nested-loop filter
 * and stable sort by ticker as `GetAssetsResponse::filter_instruments`, and is
 * modelled by calling that one; its contract spells out what the caller gets.
 */
module Bot {
  import opened Models
  import opened Assets

  /**
   * The result is always Ok, and holds exactly the instruments matching both
   * codes: each once per occurrence, ordered by ticker, ties in
   * asset-then-instrument order.
   */
  method FilterInstruments(assets: seq<Asset>, classCode: string, instrumentType: string)
    returns (r: Result<seq<Instrument>>)
    ensures r.Ok?
    ensures forall k :: 0 <= k < |r.value| ==> Matches(r.value[k], classCode, instrumentType)
    ensures multiset(r.value) == multiset(Matching(assets, classCode, instrumentType))
    ensures Sorted(r.value)
    ensures forall t :: WithTicker(r.value, t) == WithTicker(Matching(assets, classCode, instrumentType), t)
  {
    r := Assets.FilterInstruments(assets, classCode, instrumentType);
    FilteredProperties(assets, classCode, instrumentType);
  }
}
