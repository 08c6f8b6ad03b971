/**
 * The instrument universe of src/instruments/get_assets.rs: the asset and
 * instrument records, `filter_instruments` (nested selection by class code
 * and instrument type, then a stable in-place sort by ticker) and
 * `into_uids`.
 *
 * The sort is specified by `SortByTicker`, a stable insertion sort on
 * sequences; the properties the source relies on (a permutation of the
 * matching instruments, ordered by ticker, equal tickers in traversal order)
 * are proved about it.
 */
module Assets {
  import opened Models

  datatype AssetType = Unspecified | Currency | Commodity | Index | Security

  datatype Link = Link(linkType: string, instrumentUid: string)

  datatype Instrument = Instrument(
    uid: string,
    figi: string,
    instrumentType: string,
    ticker: string,
    classCode: string,
    links: seq<Link>,
    positionUid: string)

  datatype Asset = Asset(uid: string, assetType: AssetType, name: string, instruments: seq<Instrument>)

  predicate Matches(inst: Instrument, classCode: string, instrumentType: string)
  {
    inst.classCode == classCode && inst.instrumentType == instrumentType
  }

  // ---------------------------------------------------------------------------
  // Selection

  /** The matching instruments of one asset, in order. */
  function Select(insts: seq<Instrument>, classCode: string, instrumentType: string): (r: seq<Instrument>)
    ensures forall k :: 0 <= k < |r| ==> Matches(r[k], classCode, instrumentType)
  {
    if insts == [] then []
    else
      var rest := Select(insts[..|insts| - 1], classCode, instrumentType);
      var last := insts[|insts| - 1];
      if Matches(last, classCode, instrumentType) then rest + [last] else rest
  }

  /** The matching instruments of all assets, asset by asset, each in its own order. */
  function Matching(assets: seq<Asset>, classCode: string, instrumentType: string): (r: seq<Instrument>)
    ensures forall k :: 0 <= k < |r| ==> Matches(r[k], classCode, instrumentType)
  {
    if assets == [] then []
    else Matching(assets[..|assets| - 1], classCode, instrumentType)
         + Select(assets[|assets| - 1].instruments, classCode, instrumentType)
  }

  /** Every matching instrument of every asset is selected. */
  lemma {:induction false} SelectComplete(insts: seq<Instrument>, classCode: string, instrumentType: string)
    ensures forall k ::
              0 <= k < |insts| && Matches(insts[k], classCode, instrumentType)
              ==> insts[k] in Select(insts, classCode, instrumentType)
  {
    if insts != [] {
      var init := insts[..|insts| - 1];
      SelectComplete(init, classCode, instrumentType);
      forall k | 0 <= k < |insts| - 1 ensures insts[k] == init[k] { }
    }
  }

  lemma {:induction false} MatchingComplete(assets: seq<Asset>, classCode: string, instrumentType: string)
    ensures forall a, inst ::
              a in assets && inst in a.instruments && Matches(inst, classCode, instrumentType)
              ==> inst in Matching(assets, classCode, instrumentType)
  {
    if assets != [] {
      var init := assets[..|assets| - 1];
      MatchingComplete(init, classCode, instrumentType);
      SelectComplete(assets[|assets| - 1].instruments, classCode, instrumentType);
      assert forall a :: a in assets ==> a in init || a == assets[|assets| - 1];
    }
  }

  // ---------------------------------------------------------------------------
  // Ticker order

  /** `String::cmp`: lexicographic order of the characters (UTF-8 byte order is code point order). */
  predicate TickerLess(a: string, b: string)
  {
    if a == [] then b != []
    else if b == [] then false
    else if a[0] != b[0] then a[0] < b[0]
    else TickerLess(a[1..], b[1..])
  }

  lemma {:induction false} TickerLessIrreflexive(a: string)
    ensures !TickerLess(a, a)
  {
    if a != [] {
      TickerLessIrreflexive(a[1..]);
    }
  }

  lemma {:induction false} TickerLessTransitive(a: string, b: string, c: string)
    requires TickerLess(a, b) && TickerLess(b, c)
    ensures TickerLess(a, c)
  {
    if a != [] && b != [] && c != [] && a[0] == b[0] && b[0] == c[0] {
      TickerLessTransitive(a[1..], b[1..], c[1..]);
    }
  }

  lemma {:induction false} TickerLessTotal(a: string, b: string)
    ensures a == b || TickerLess(a, b) || TickerLess(b, a)
  {
    if a != [] && b != [] && a[0] == b[0] {
      TickerLessTotal(a[1..], b[1..]);
      if a[1..] == b[1..] {
        assert a == [a[0]] + a[1..] && b == [b[0]] + b[1..];
      }
    }
  }

  /** No later instrument has a ticker strictly before an earlier one. */
  predicate Sorted(s: seq<Instrument>)
  {
    forall i, j :: 0 <= i < j < |s| ==> !TickerLess(s[j].ticker, s[i].ticker)
  }

  // ---------------------------------------------------------------------------
  // The stable sort

  /** Insert `x` after every element whose ticker is not greater than its own. */
  function Insert(s: seq<Instrument>, x: Instrument): (r: seq<Instrument>)
    ensures |r| == |s| + 1
  {
    if s == [] then [x]
    else if TickerLess(x.ticker, s[|s| - 1].ticker) then Insert(s[..|s| - 1], x) + [s[|s| - 1]]
    else s + [x]
  }

  /** `sort_by(|a, b| a.ticker.cmp(&b.ticker))` as a value: a stable sort by ticker. */
  function SortByTicker(s: seq<Instrument>): (r: seq<Instrument>)
    ensures |r| == |s|
  {
    if s == [] then [] else Insert(SortByTicker(s[..|s| - 1]), s[|s| - 1])
  }

  lemma {:induction false} InsertPermutes(s: seq<Instrument>, x: Instrument)
    ensures multiset(Insert(s, x)) == multiset(s) + multiset{x}
  {
    if s != [] {
      var init, last := s[..|s| - 1], s[|s| - 1];
      assert s == init + [last];
      if TickerLess(x.ticker, last.ticker) {
        InsertPermutes(init, x);
      }
    }
  }

  lemma {:induction false} InsertSorted(s: seq<Instrument>, x: Instrument)
    requires Sorted(s)
    ensures Sorted(Insert(s, x))
    ensures forall k :: 0 <= k < |Insert(s, x)| ==> Insert(s, x)[k] in s || Insert(s, x)[k] == x
  {
    if s != [] {
      var init, last := s[..|s| - 1], s[|s| - 1];
      if TickerLess(x.ticker, last.ticker) {
        InsertSorted(init, x);
        var r := Insert(init, x);
        forall i, j | 0 <= i < j < |r| + 1
          ensures !TickerLess((r + [last])[j].ticker, (r + [last])[i].ticker)
        {
          if j == |r| {
            if r[i] == x {
              TickerLessAsymmetric(x.ticker, last.ticker);
            } else {
              assert r[i] in init;
              var k :| 0 <= k < |init| && init[k] == r[i];
              assert s[k] == r[i];
            }
          }
        }
      } else {
        forall i, j | 0 <= i < j < |s| + 1
          ensures !TickerLess((s + [x])[j].ticker, (s + [x])[i].ticker)
        {
          if j == |s| && i < |s| - 1 {
            if TickerLess(x.ticker, s[i].ticker) {
              TickerLessTotal(s[i].ticker, last.ticker);
              if s[i].ticker == last.ticker {
              } else if TickerLess(s[i].ticker, last.ticker) {
                TickerLessTransitive(x.ticker, s[i].ticker, last.ticker);
              }
            }
          }
        }
      }
    }
  }

  lemma TickerLessAsymmetric(a: string, b: string)
    requires TickerLess(a, b)
    ensures !TickerLess(b, a)
  {
    if TickerLess(b, a) {
      TickerLessTransitive(a, b, a);
      TickerLessIrreflexive(a);
    }
  }

  /** The sort is a permutation of its input. */
  lemma {:induction false} SortPermutes(s: seq<Instrument>)
    ensures multiset(SortByTicker(s)) == multiset(s)
  {
    if s != [] {
      var init := s[..|s| - 1];
      SortPermutes(init);
      InsertPermutes(SortByTicker(init), s[|s| - 1]);
      assert s == init + [s[|s| - 1]];
    }
  }

  /** The sort orders by ticker. */
  lemma {:induction false} SortSorts(s: seq<Instrument>)
    ensures Sorted(SortByTicker(s))
  {
    if s != [] {
      SortSorts(s[..|s| - 1]);
      InsertSorted(SortByTicker(s[..|s| - 1]), s[|s| - 1]);
    }
  }

  /** The instruments of `s` whose ticker is `t`, in order. */
  function WithTicker(s: seq<Instrument>, t: string): (r: seq<Instrument>)
    ensures forall k :: 0 <= k < |r| ==> r[k].ticker == t
  {
    if s == [] then []
    else WithTicker(s[..|s| - 1], t) + (if s[|s| - 1].ticker == t then [s[|s| - 1]] else [])
  }

  lemma {:induction false} InsertKeepsTies(s: seq<Instrument>, x: Instrument, t: string)
    ensures WithTicker(Insert(s, x), t) == WithTicker(s + [x], t)
  {
    assert (s + [x])[..|s|] == s;
    if s != [] {
      var init, last := s[..|s| - 1], s[|s| - 1];
      if TickerLess(x.ticker, last.ticker) {
        InsertKeepsTies(init, x, t);
        var r := Insert(init, x);
        assert (r + [last])[..|r|] == r;
        assert (init + [x])[..|init|] == init;
        assert (s + [x])[..|s|] == s && s[..|s| - 1] == init;
        if x.ticker == t && last.ticker == t {
          TickerLessIrreflexive(t);
        }
      }
    }
  }

  /** The sort is stable: for every ticker, the instruments with that ticker keep their order. */
  lemma {:induction false} SortStable(s: seq<Instrument>, t: string)
    ensures WithTicker(SortByTicker(s), t) == WithTicker(s, t)
  {
    if s != [] {
      var init := s[..|s| - 1];
      SortStable(init, t);
      var sorted := SortByTicker(init);
      InsertKeepsTies(sorted, s[|s| - 1], t);
      assert (sorted + [s[|s| - 1]])[..|sorted|] == sorted;
    }
  }

  // ---------------------------------------------------------------------------
  // The imperative operations

  /**
   * Inserting a key puts it after the last ticker it is not less than: where
   * every later ticker is greater and the one before (if any) is not.
   */
  lemma {:induction false} InsertSplits(s: seq<Instrument>, key: Instrument, j: int)
    requires 0 <= j <= |s|
    requires j == 0 || !TickerLess(key.ticker, s[j - 1].ticker)
    requires forall k :: j <= k < |s| ==> TickerLess(key.ticker, s[k].ticker)
    ensures Insert(s, key) == s[..j] + [key] + s[j..]
  {
    if j < |s| {
      var p := s[..|s| - 1];
      InsertSplits(p, key, j);
      assert p[..j] == s[..j];
      assert p[j..] + [s[|s| - 1]] == s[j..];
    } else {
      assert s[..j] == s;
    }
  }

  /** Moves `a[i]` left past the greater tickers before it, as `Insert` does. */
  method InsertAt(a: array<Instrument>, i: int)
    requires 0 <= i < a.Length
    modifies a
    ensures a[..i + 1] == Insert(old(a[..i]), old(a[i]))
    ensures a[i + 1..] == old(a[i + 1..])
  {
    ghost var sorted := a[..i];
    var key := a[i];
    var j := i;
    while j > 0 && TickerLess(key.ticker, a[j - 1].ticker)
      invariant 0 <= j <= i
      invariant forall k {:trigger a[k]} :: 0 <= k < j ==> a[k] == sorted[k]
      invariant forall k {:trigger a[k]} :: j < k <= i ==> a[k] == sorted[k - 1]
      invariant a[i + 1..] == old(a[i + 1..])
      invariant forall k :: j <= k < i ==> TickerLess(key.ticker, sorted[k].ticker)
      decreases j
    {
      a[j] := a[j - 1];
      j := j - 1;
    }
    InsertSplits(sorted, key, j);
    a[j] := key;
    ShiftedPrefix(a[..], sorted, key, j);
    assert a[i + 1..] == old(a[i + 1..]);
  }

  /** An array holding `sorted` with `key` at `j` and the tail moved one place right. */
  lemma ShiftedPrefix(s: seq<Instrument>, sorted: seq<Instrument>, key: Instrument, j: int)
    requires 0 <= j <= |sorted| < |s| && s[j] == key
    requires forall k :: 0 <= k < j ==> s[k] == sorted[k]
    requires forall k :: j < k <= |sorted| ==> s[k] == sorted[k - 1]
    ensures s[..|sorted| + 1] == sorted[..j] + [key] + sorted[j..]
  {
  }

  /** Sorts an array of instruments in place, stably by ticker. */
  method SortInPlace(a: array<Instrument>)
    modifies a
    ensures a[..] == SortByTicker(old(a[..]))
  {
    ghost var input := a[..];
    for i := 0 to a.Length
      invariant a[..i] == SortByTicker(input[..i])
      invariant a[i..] == input[i..]
    {
      InsertAt(a, i);
      assert input[..i + 1][..i] == input[..i];
    }
    assert input[..a.Length] == input;
  }

  /**
   * What `filter_instruments` promises about its result: only matching
   * instruments, all of them (as a multiset), ordered by ticker, and equal
   * tickers in asset-then-instrument order.
   */
  lemma FilteredProperties(assets: seq<Asset>, classCode: string, instrumentType: string)
    ensures var m := Matching(assets, classCode, instrumentType);
      var r := SortByTicker(m);
      && (forall k :: 0 <= k < |r| ==> Matches(r[k], classCode, instrumentType))
      && multiset(r) == multiset(m)
      && Sorted(r)
      && (forall t :: WithTicker(r, t) == WithTicker(m, t))
  {
    var m := Matching(assets, classCode, instrumentType);
    var r := SortByTicker(m);
    SortPermutes(m);
    SortSorts(m);
    forall k | 0 <= k < |r| ensures Matches(r[k], classCode, instrumentType) {
      assert r[k] in multiset(m);
    }
    forall t ensures WithTicker(r, t) == WithTicker(m, t) {
      SortStable(m, t);
    }
  }

  lemma SelectSnoc(insts: seq<Instrument>, j: int, classCode: string, instrumentType: string)
    requires 0 <= j < |insts|
    ensures Select(insts[..j + 1], classCode, instrumentType) ==
      Select(insts[..j], classCode, instrumentType)
      + (if Matches(insts[j], classCode, instrumentType) then [insts[j]] else [])
  {
    assert insts[..j + 1][..j] == insts[..j];
  }

  lemma MatchingSnoc(assets: seq<Asset>, i: int, classCode: string, instrumentType: string)
    requires 0 <= i < |assets|
    ensures Matching(assets[..i + 1], classCode, instrumentType) ==
      Matching(assets[..i], classCode, instrumentType) + Select(assets[i].instruments, classCode, instrumentType)
  {
    assert assets[..i + 1][..i] == assets[..i];
  }

  /** The nested loops of `filter_instruments`: the matching instruments in traversal order. */
  method CollectMatching(assets: seq<Asset>, classCode: string, instrumentType: string)
    returns (filtered: seq<Instrument>)
    ensures filtered == Matching(assets, classCode, instrumentType)
  {
    filtered := [];
    for i := 0 to |assets|
      invariant filtered == Matching(assets[..i], classCode, instrumentType)
    {
      var instruments := assets[i].instruments;
      ghost var before := filtered;
      for j := 0 to |instruments|
        invariant filtered == before + Select(instruments[..j], classCode, instrumentType)
      {
        SelectSnoc(instruments, j, classCode, instrumentType);
        if Matches(instruments[j], classCode, instrumentType) {
          filtered := filtered + [instruments[j]];
        }
      }
      assert instruments[..|instruments|] == instruments;
      MatchingSnoc(assets, i, classCode, instrumentType);
    }
    assert assets[..|assets|] == assets;
  }

  /**
   * `filter_instruments`: collect the instruments matching both codes, asset
   * by asset, then sort them by ticker in place. It never fails.
   */
  method FilterInstruments(assets: seq<Asset>, classCode: string, instrumentType: string)
    returns (r: Result<seq<Instrument>>)
    ensures r == Ok(SortByTicker(Matching(assets, classCode, instrumentType)))
  {
    var filtered := CollectMatching(assets, classCode, instrumentType);
    var arr := new Instrument[|filtered|](k requires 0 <= k < |filtered| => filtered[k]);
    assert arr[..] == filtered;
    SortInPlace(arr);
    r := Ok(arr[..]);
  }

  /** `into_uids`: the uid of each instrument, position by position. */
  function IntoUids(insts: seq<Instrument>): (r: seq<string>)
    ensures |r| == |insts|
    ensures forall i :: 0 <= i < |insts| ==> r[i] == insts[i].uid
  {
    if insts == [] then [] else IntoUids(insts[..|insts| - 1]) + [insts[|insts| - 1].uid]
  }
}
