/**
 * The momentum panel: from the latest coin list, the coins whose 24-hour
 * change exceeds 5% either way, largest moves first, at most five, each
 * labelled as strong (rising) or weak (falling) momentum.
 */
module MomentumSignals {
  import opened Numbers

  datatype Option<T> = None | Some(value: T)

  /**
   * A coin as the price API delivers it, with its two top-level 24-hour
   * change fields, `price_change_percentage_24h` and `percent_change_24h`;
   * either may be missing. A coin that keeps its change only under a nested
   * quote has neither field, resolves to 0 and never becomes a signal.
   */
  datatype Coin = Coin(
    symbol: Option<string>,
    name: string,
    priceChangePercentage24h: Option<real>,
    percentChange24h: Option<real>)

  /** At most this many signals are shown. */
  const MaxSignals: nat := 5

  /** Only a 24-hour move larger than this (in percent, either way) is a signal. */
  const Threshold: real := 5.0

  /** A change field that `||` would keep: present and non-zero. */
  predicate Truthy(field: Option<real>) {
    field.Some? && field.value != 0.0
  }

  /**
   * The chain `price_change_percentage_24h || percent_change_24h || 0`:
   * the first field that is present and non-zero, else 0.
   */
  function ResolvedChange(c: Coin): (r: real)
    ensures Truthy(c.priceChangePercentage24h) ==> r == c.priceChangePercentage24h.value
    ensures !Truthy(c.priceChangePercentage24h) && Truthy(c.percentChange24h) ==> r == c.percentChange24h.value
    ensures r == 0.0 <==> !Truthy(c.priceChangePercentage24h) && !Truthy(c.percentChange24h)
  {
    if Truthy(c.priceChangePercentage24h) then c.priceChangePercentage24h.value
    else if Truthy(c.percentChange24h) then c.percentChange24h.value
    else 0.0
  }

  /** The size of a coin's move, the sort key of the panel. */
  function Magnitude(c: Coin): real {
    Abs(ResolvedChange(c))
  }

  /** The filter's test: the move is significant. */
  predicate Qualifies(c: Coin) {
    Magnitude(c) > Threshold
  }

  /** Largest moves first. */
  ghost predicate SortedByMagnitude(s: seq<Coin>) {
    forall i, j | 0 <= i < j < |s| :: Magnitude(s[i]) >= Magnitude(s[j])
  }

  /** The coins of `s` whose move has size `m`, in their order in `s`. */
  function WithMagnitude(s: seq<Coin>, m: real): (r: seq<Coin>)
    ensures forall c | c in r :: c in s && Magnitude(c) == m
  {
    if s == [] then []
    else if Magnitude(s[0]) == m then [s[0]] + WithMagnitude(s[1..], m)
    else WithMagnitude(s[1..], m)
  }

  /**
   * The filter step: the qualifying coins in their original order. Each
   * qualifying coin is kept as often as it occurs, every other one dropped.
   */
  function Significant(coins: seq<Coin>): (r: seq<Coin>)
    ensures forall c | c in r :: Qualifies(c)
    ensures forall c :: multiset(r)[c] == if Qualifies(c) then multiset(coins)[c] else 0
  {
    if coins == [] then []
    else
      assert coins == [coins[0]] + coins[1..];
      if Qualifies(coins[0]) then [coins[0]] + Significant(coins[1..])
      else Significant(coins[1..])
  }

  /**
   * One step of the sort: `x` goes after every coin with a strictly larger
   * move and before the first one whose move is not larger, so ties keep
   * their input order.
   */
  function Insert(x: Coin, t: seq<Coin>): (r: seq<Coin>)
    ensures |r| == |t| + 1
    ensures multiset(r) == multiset(t) + multiset{x}
  {
    if t == [] || Magnitude(t[0]) <= Magnitude(x) then [x] + t
    else
      assert t == [t[0]] + t[1..];
      [t[0]] + Insert(x, t[1..])
  }

  /** Every coin of a sorted list is at most as large a move as its head. */
  lemma HeadIsLargest(t: seq<Coin>, y: Coin)
    requires SortedByMagnitude(t) && y in t
    ensures Magnitude(y) <= Magnitude(t[0])
  {
  }

  /** Inserting into a sorted list keeps it sorted. */
  lemma {:induction false} InsertKeepsOrder(x: Coin, t: seq<Coin>)
    requires SortedByMagnitude(t)
    ensures SortedByMagnitude(Insert(x, t))
  {
    if t == [] || Magnitude(t[0]) <= Magnitude(x) {
      var r := [x] + t;
      forall i, j | 0 <= i < j < |r| ensures Magnitude(r[i]) >= Magnitude(r[j]) {
        if i == 0 {
          HeadIsLargest(t, r[j]);
        } else {
          assert r[i] == t[i - 1] && r[j] == t[j - 1];
        }
      }
    } else {
      var tail := t[1..];
      assert SortedByMagnitude(tail) by {
        forall i, j | 0 <= i < j < |tail| ensures Magnitude(tail[i]) >= Magnitude(tail[j]) {
          assert tail[i] == t[i + 1] && tail[j] == t[j + 1];
        }
      }
      var rest := Insert(x, tail);
      InsertKeepsOrder(x, tail);
      var r := [t[0]] + rest;
      forall i, j | 0 <= i < j < |r| ensures Magnitude(r[i]) >= Magnitude(r[j]) {
        if i == 0 {
          var y := r[j];
          assert y in multiset(rest);
          if y != x {
            assert y in multiset(tail);
            assert y in t;
            HeadIsLargest(t, y);
          }
        } else {
          assert r[i] == rest[i - 1] && r[j] == rest[j - 1];
        }
      }
    }
  }

  /**
   * The sort step, by descending size of move. The comparator sort of the
   * dashboard is stable, and so is this insertion sort.
   */
  function SortByMagnitude(s: seq<Coin>): (r: seq<Coin>)
    ensures |r| == |s|
    ensures multiset(r) == multiset(s)
    ensures SortedByMagnitude(r)
  {
    if s == [] then []
    else
      assert s == [s[0]] + s[1..];
      InsertKeepsOrder(s[0], SortByMagnitude(s[1..]));
      Insert(s[0], SortByMagnitude(s[1..]))
  }

  /** Every element the filter keeps comes from the input, without duplication. */
  lemma SignificantIsSubMultiset(coins: seq<Coin>)
    ensures multiset(Significant(coins)) <= multiset(coins)
  {
  }

  /** A prefix of a sorted list is a sorted sub-multiset of it. */
  lemma PrefixFacts(s: seq<Coin>, k: nat)
    requires k <= |s|
    ensures multiset(s[..k]) <= multiset(s)
    ensures forall c | c in s[..k] :: c in s
    ensures SortedByMagnitude(s) ==> SortedByMagnitude(s[..k])
  {
    assert s == s[..k] + s[k..];
  }

  /**
   * The coins the panel shows, in display order: the first five of the
   * qualifying coins sorted by size of move.
   */
  function Selection(coins: seq<Coin>): (sel: seq<Coin>)
    ensures |sel| == Min(MaxSignals, |Significant(coins)|)
    ensures forall c | c in sel :: Qualifies(c)
    ensures multiset(sel) <= multiset(coins)
    ensures SortedByMagnitude(sel)
  {
    var sorted := SortByMagnitude(Significant(coins));
    var k := Min(MaxSignals, |sorted|);
    PrefixFacts(sorted, k);
    SignificantIsSubMultiset(coins);
    sorted[..k]
  }

  /** A coin with no usable change field resolves to 0 and is never shown. */
  lemma UnresolvedCoinNeverSelected(c: Coin, coins: seq<Coin>)
    requires !Truthy(c.priceChangePercentage24h) && !Truthy(c.percentChange24h)
    ensures ResolvedChange(c) == 0.0
    ensures c !in Selection(coins)
  {
    assert !Qualifies(c);
  }

  /**
   * The selection is a true top five: a qualifying coin that was left out
   * (fewer of its copies are shown than the list holds) never moved more
   * than any coin that is shown.
   */
  lemma SelectionIsTopFive(coins: seq<Coin>)
    ensures forall c, s | Qualifies(c) && multiset(Selection(coins))[c] < multiset(coins)[c] && s in Selection(coins) ::
              Magnitude(c) <= Magnitude(s)
  {
    var f := Significant(coins);
    var sorted := SortByMagnitude(f);
    var k := Min(MaxSignals, |sorted|);
    var sel, rest := sorted[..k], sorted[k..];
    SortedSplit(sorted, k);
    assert sorted == sel + rest;
    assert multiset(sorted) == multiset(sel) + multiset(rest);
    forall c | Qualifies(c) && multiset(sel)[c] < multiset(coins)[c]
      ensures c in rest
    {
      assert multiset(sorted)[c] == multiset(coins)[c];
      assert multiset(rest)[c] > 0;
    }
  }

  /** In a sorted list no coin after position `k` moved more than any coin before it. */
  lemma SortedSplit(s: seq<Coin>, k: nat)
    requires k <= |s| && SortedByMagnitude(s)
    ensures forall c, d | c in s[k..] && d in s[..k] :: Magnitude(c) <= Magnitude(d)
  {
    forall c, d | c in s[k..] && d in s[..k] ensures Magnitude(c) <= Magnitude(d) {
      var j :| 0 <= j < |s| - k && s[k..][j] == c;
      var i :| 0 <= i < k && s[..k][i] == d;
      assert s[i] == d && s[k + j] == c;
    }
  }

  /**
   * Fewer than five rows are shown only when every qualifying coin is
   * shown, as often as the list holds it.
   */
  lemma {:induction false} ShortSelectionIsComplete(coins: seq<Coin>)
    ensures |Selection(coins)| < MaxSignals ==>
              forall c | Qualifies(c) :: multiset(Selection(coins))[c] == multiset(coins)[c]
  {
    var f := Significant(coins);
    var sorted := SortByMagnitude(f);
    if |Selection(coins)| < MaxSignals {
      assert Selection(coins) == sorted;
    }
  }

  /**
   * Ties keep the order of the coin list: among coins with the same size of
   * move, the ones shown are the first of them in the list, in list order.
   */
  lemma {:induction false} SelectionKeepsTieOrder(coins: seq<Coin>, m: real)
    ensures WithMagnitude(Selection(coins), m) <= WithMagnitude(coins, m)
  {
    var f := Significant(coins);
    var sorted := SortByMagnitude(f);
    var k := Min(MaxSignals, |sorted|);
    PrefixKeepsTies(sorted, k, m);
    SortIsStable(f, m);
    SignificantKeepsTies(coins, m);
    if m <= Threshold {
      assert WithMagnitude(Selection(coins), m) == [];
    }
  }

  /** The ties of a prefix are a prefix of the ties. */
  lemma {:induction false} PrefixKeepsTies(s: seq<Coin>, k: nat, m: real)
    requires k <= |s|
    ensures WithMagnitude(s[..k], m) <= WithMagnitude(s, m)
  {
    if k > 0 {
      assert s[..k][1..] == s[1..][..k - 1];
      PrefixKeepsTies(s[1..], k - 1, m);
    }
  }

  /** Insertion puts `x` before every coin with the same size of move. */
  lemma {:induction false} InsertKeepsTies(x: Coin, t: seq<Coin>, m: real)
    ensures WithMagnitude(Insert(x, t), m) ==
              if Magnitude(x) == m then [x] + WithMagnitude(t, m) else WithMagnitude(t, m)
  {
    if t == [] || Magnitude(t[0]) <= Magnitude(x) {
      assert ([x] + t)[1..] == t;
    } else {
      InsertKeepsTies(x, t[1..], m);
      assert ([t[0]] + Insert(x, t[1..]))[1..] == Insert(x, t[1..]);
    }
  }

  /** The sort is stable: coins with the same size of move keep their relative order. */
  lemma {:induction false} SortIsStable(s: seq<Coin>, m: real)
    ensures WithMagnitude(SortByMagnitude(s), m) == WithMagnitude(s, m)
  {
    if s != [] {
      SortIsStable(s[1..], m);
      InsertKeepsTies(s[0], SortByMagnitude(s[1..]), m);
    }
  }

  /** The filter keeps the order of the coins it keeps. */
  lemma {:induction false} SignificantKeepsTies(coins: seq<Coin>, m: real)
    ensures WithMagnitude(Significant(coins), m) == if m > Threshold then WithMagnitude(coins, m) else []
  {
    if coins != [] {
      SignificantKeepsTies(coins[1..], m);
      if Qualifies(coins[0]) {
        assert ([coins[0]] + Significant(coins[1..]))[1..] == Significant(coins[1..]);
      }
    }
  }

  datatype SignalKind = SignalBuy | SignalSell

  datatype MomentumText = StrongMomentum | WeakMomentum

  /** One row of the panel. */
  datatype Signal = Signal(coin: Coin, change: real, kind: SignalKind, text: MomentumText)

  /** The label of a shown coin: buy / strong momentum when rising, sell / weak momentum otherwise. */
  function Label(c: Coin): (s: Signal)
    ensures s.coin == c && s.change == ResolvedChange(c)
    ensures s.kind == SignalBuy <==> ResolvedChange(c) > 0.0
    ensures s.text == StrongMomentum <==> s.kind == SignalBuy
  {
    var change := ResolvedChange(c);
    if change > 0.0 then Signal(c, change, SignalBuy, StrongMomentum)
    else Signal(c, change, SignalSell, WeakMomentum)
  }

  /** The `map` over the selection: one labelled row per shown coin, in order. */
  function LabelAll(sel: seq<Coin>): (r: seq<Signal>)
    ensures |r| == |sel|
    ensures forall i | 0 <= i < |r| :: r[i] == Label(sel[i])
  {
    if sel == [] then [] else [Label(sel[0])] + LabelAll(sel[1..])
  }

  /**
   * What a refresh does to the panel: an empty coin list leaves it as it
   * was, a list without a significant move shows the "no strong momentum"
   * placeholder, otherwise the labelled selection is shown.
   */
  datatype Panel = Unchanged | NoSignals | Signals(signals: seq<Signal>)

  function GenerateMomentumSignals(coins: seq<Coin>): (p: Panel)
    ensures p == Unchanged <==> coins == []
    ensures p == NoSignals <==> coins != [] && forall c | c in coins :: !Qualifies(c)
    ensures p.Signals? ==> 0 < |p.signals| <= MaxSignals && |p.signals| == |Selection(coins)|
    ensures p.Signals? ==> forall i | 0 <= i < |p.signals| :: p.signals[i] == Label(Selection(coins)[i])
  {
    if coins == [] then Unchanged
    else
      var sel := Selection(coins);
      EmptySelection(coins);
      if sel == [] then NoSignals
      else Signals(LabelAll(sel))
  }

  /**
   * Every row shown is a move of more than 5% either way, labelled buy /
   * strong momentum exactly when the move is upwards.
   */
  lemma ShownSignalsAreSignificant(coins: seq<Coin>)
    ensures var p := GenerateMomentumSignals(coins);
      p.Signals? ==> forall i | 0 <= i < |p.signals| ::
        && Abs(p.signals[i].change) > Threshold
        && (p.signals[i].kind == SignalBuy <==> p.signals[i].change > 0.0)
        && (p.signals[i].text == StrongMomentum <==> p.signals[i].change > 0.0)
  {
    var p := GenerateMomentumSignals(coins);
    if p.Signals? {
      var sel := Selection(coins);
      forall i | 0 <= i < |p.signals|
        ensures Abs(p.signals[i].change) > Threshold
      {
        assert sel[i] in sel;
        assert p.signals[i] == Label(sel[i]);
      }
    }
  }

  /** Nothing is selected exactly when no coin of the list moved significantly. */
  lemma EmptySelection(coins: seq<Coin>)
    ensures Selection(coins) == [] <==> forall c | c in coins :: !Qualifies(c)
  {
    var f := Significant(coins);
    if f == [] {
      forall c | c in coins ensures !Qualifies(c) {
        assert multiset(f)[c] == 0;
      }
    } else {
      assert f[0] in multiset(coins) by {
        assert multiset(f)[f[0]] > 0;
      }
    }
  }
}
