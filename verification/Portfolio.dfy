/**
Open positions and realized profit, replayed from the trade ledger with the moving-average cost
method: each buy adds to an instrument's running quantity and cost, each sell removes cost in
proportion to the quantity sold.
*/
module Portfolio {
  import opened Options
  import opened Sums

  type Id = int

  datatype Side = Buy | Sell

  /** A ledger row. The quantity is absent when its text does not parse; totals are signed cash. */
  datatype Trade = Trade(instrument: Id, side: Side, quantity: Option<real>, total: int)

  datatype Position = Position(qty: real, cost: real)

  datatype Holding = Holding(instrument: Id, quantity: real, totalCost: int, avgCost: int)

  const Flat := Position(0.0, 0.0)

  /** Nearest cent, halves away from zero. */
  function RoundCents(r: real): int {
    if r >= 0.0 then (r + 0.5).Floor else -((-r + 0.5).Floor)
  }

  lemma RoundCentsIsNearest(r: real)
    ensures -0.5 <= RoundCents(r) as real - r <= 0.5
    ensures RoundCents(r) as real - r == 0.5 ==> r > 0.0
    ensures RoundCents(r) as real - r == -0.5 ==> r < 0.0
  {
  }

  // ---- replay ----

  /** The cost a sell takes out of a position. */
  function CostRemoved(p: Position, q: real): real
    requires p.qty > 0.0
  {
    p.cost / p.qty * q
  }

  function Apply(p: Position, t: Trade): Position {
    var q := t.quantity.GetOr(0.0);
    match t.side
    case Buy => Position(p.qty + q, p.cost - t.total as real)
    case Sell => Position(p.qty - q, if p.qty > 0.0 then p.cost - CostRemoved(p, q) else p.cost)
  }

  /** Realized profit booked by a trade: sale proceeds less the cost removed, rounded. */
  function Gain(p: Position, t: Trade): int {
    match t.side
    case Buy => 0
    case Sell => if p.qty > 0.0 then t.total - RoundCents(CostRemoved(p, t.quantity.GetOr(0.0))) else t.total
  }

  function PositionOf(trades: seq<Trade>, id: Id): Position {
    if trades == [] then Flat
    else
      var prior := PositionOf(trades[..|trades| - 1], id);
      var last := trades[|trades| - 1];
      if last.instrument == id then Apply(prior, last) else prior
  }

  function Realized(trades: seq<Trade>): int {
    if trades == [] then 0
    else
      var last := trades[|trades| - 1];
      Realized(trades[..|trades| - 1]) + Gain(PositionOf(trades[..|trades| - 1], last.instrument), last)
  }

  /** Instruments in the order the ledger first names them. */
  function Instruments(trades: seq<Trade>): seq<Id> {
    if trades == [] then []
    else
      var rest := Instruments(trades[..|trades| - 1]);
      if trades[|trades| - 1].instrument in rest then rest else rest + [trades[|trades| - 1].instrument]
  }

  function HoldingOf(p: Position, id: Id): Holding
    requires p.qty > 0.0
  {
    var cost := RoundCents(p.cost);
    Holding(id, p.qty, cost, RoundCents(cost as real / p.qty))
  }

  /** The positions still open, in first-seen order. */
  function OpenHoldings(trades: seq<Trade>, ids: seq<Id>): seq<Holding> {
    if ids == [] then []
    else
      var last := ids[|ids| - 1];
      var p := PositionOf(trades, last);
      OpenHoldings(trades, ids[..|ids| - 1]) + if p.qty > 0.0 then [HoldingOf(p, last)] else []
  }

  /** The cost is the nearest cent to what is still invested, the average the nearest cent to that cost per unit. */
  predicate ShowsPosition(h: Holding, p: Position) {
    && h.quantity == p.qty > 0.0
    && -0.5 <= h.totalCost as real - p.cost <= 0.5
    && -0.5 <= h.avgCost as real - h.totalCost as real / h.quantity <= 0.5
  }

  lemma HoldingShowsPosition(p: Position, id: Id)
    requires p.qty > 0.0
    ensures ShowsPosition(HoldingOf(p, id), p) && HoldingOf(p, id).instrument == id
  {
    RoundCentsIsNearest(p.cost);
    RoundCentsIsNearest(RoundCents(p.cost) as real / p.qty);
  }

  predicate Lists(holdings: seq<Holding>, id: Id) {
    exists k :: 0 <= k < |holdings| && holdings[k].instrument == id
  }

  /** What is listed shows what is left of its instrument: the quantity, the cost and the average cost. */
  lemma {:induction false} HoldingsShowPositions(trades: seq<Trade>, ids: seq<Id>)
    ensures var holdings := OpenHoldings(trades, ids);
            forall k :: 0 <= k < |holdings| ==> ShowsPosition(holdings[k], PositionOf(trades, holdings[k].instrument))
  {
    if ids != [] {
      var rest, last := ids[..|ids| - 1], ids[|ids| - 1];
      var p := PositionOf(trades, last);
      HoldingsShowPositions(trades, rest);
      if p.qty > 0.0 {
        HoldingShowsPosition(p, last);
        assert OpenHoldings(trades, ids) == OpenHoldings(trades, rest) + [HoldingOf(p, last)];
      } else {
        assert OpenHoldings(trades, ids) == OpenHoldings(trades, rest);
      }
    }
  }

  /** And exactly the instruments of which something is left are listed. */
  lemma {:induction false} OpenPositionsAreListed(trades: seq<Trade>, ids: seq<Id>, id: Id)
    ensures Lists(OpenHoldings(trades, ids), id) <==> id in ids && PositionOf(trades, id).qty > 0.0
  {
    if ids != [] {
      var rest, last := ids[..|ids| - 1], ids[|ids| - 1];
      var before, p := OpenHoldings(trades, rest), PositionOf(trades, last);
      OpenPositionsAreListed(trades, rest, id);
      assert ids == rest + [last];
      if p.qty > 0.0 {
        ListedNext(before, HoldingOf(p, last), id);
      } else {
        assert OpenHoldings(trades, ids) == before;
      }
    }
  }

  lemma ListedNext(holdings: seq<Holding>, h: Holding, id: Id)
    ensures Lists(holdings + [h], id) <==> Lists(holdings, id) || h.instrument == id
  {
    if k :| 0 <= k < |holdings| && holdings[k].instrument == id {
      assert (holdings + [h])[k].instrument == id;
    }
    assert (holdings + [h])[|holdings|] == h;
  }

  /** Each once. */
  lemma {:induction false} ListedOnce(trades: seq<Trade>, ids: seq<Id>)
    requires Distinct(ids)
    ensures var holdings := OpenHoldings(trades, ids);
            forall j, k :: 0 <= j < k < |holdings| ==> holdings[j].instrument != holdings[k].instrument
  {
    if ids != [] {
      var rest, last := ids[..|ids| - 1], ids[|ids| - 1];
      ListedOnce(trades, rest);
      OpenPositionsAreListed(trades, rest, last);
      assert last !in rest;
      assert forall k :: 0 <= k < |OpenHoldings(trades, rest)| ==> OpenHoldings(trades, rest)[k].instrument != last;
    }
  }

  predicate AllParse(trades: seq<Trade>) {
    forall i :: 0 <= i < |trades| ==> trades[i].quantity.Some?
  }

  lemma {:induction false} InstrumentsAreExact(trades: seq<Trade>)
    ensures forall i, j :: 0 <= i < j < |Instruments(trades)| ==> Instruments(trades)[i] != Instruments(trades)[j]
    ensures forall id :: id in Instruments(trades) <==> exists k :: 0 <= k < |trades| && trades[k].instrument == id
    ensures forall id :: id !in Instruments(trades) ==> PositionOf(trades, id) == Flat
  {
    if trades != [] {
      InstrumentsAreExact(trades[..|trades| - 1]);
    }
  }

  predicate FirstNamed(trades: seq<Trade>, k: int, id: Id) {
    0 <= k < |trades| && trades[k].instrument == id && forall m :: 0 <= m < k ==> trades[m].instrument != id
  }

  /** An instrument listed before another was named before it. */
  lemma {:induction false} InstrumentsAsFirstNamed(trades: seq<Trade>, i: nat, j: nat) returns (k: int, l: int)
    requires i < j < |Instruments(trades)|
    ensures k < l && FirstNamed(trades, k, Instruments(trades)[i]) && FirstNamed(trades, l, Instruments(trades)[j])
  {
    var rest := trades[..|trades| - 1];
    InstrumentsAreExact(rest);
    if j < |Instruments(rest)| {
      k, l := InstrumentsAsFirstNamed(rest, i, j);
    } else {
      k := FirstNaming(rest, Instruments(rest)[i]);
      l := |rest|;
    }
  }

  lemma {:induction false} FirstNaming(trades: seq<Trade>, id: Id) returns (k: int)
    requires id in Instruments(trades)
    ensures FirstNamed(trades, k, id)
  {
    var rest := trades[..|trades| - 1];
    InstrumentsAreExact(rest);
    if id in Instruments(rest) {
      k := FirstNaming(rest, id);
    } else {
      k := |rest|;
    }
  }

  /**
  The replay loop: one pass over the ledger, updating positions in place. It stops at the first
  quantity that does not parse; otherwise it returns the open positions and the realized total.
  */
  method HoldingsFromLedger(trades: seq<Trade>) returns (r: Option<(seq<Holding>, int)>)
    ensures r.Some? <==> AllParse(trades)
    ensures r.Some? ==> r.value == (OpenHoldings(trades, Instruments(trades)), Realized(trades))
  {
    var order: seq<Id> := [];
    var positions: map<Id, Position> := map[];
    var realized := 0;
    for n := 0 to |trades|
      invariant AllParse(trades[..n])
      invariant order == Instruments(trades[..n])
      invariant forall id :: id in positions <==> id in order
      invariant forall id :: id in positions ==> positions[id] == PositionOf(trades[..n], id)
      invariant realized == Realized(trades[..n])
    {
      var t := trades[n];
      assert trades[..n + 1][..n] == trades[..n];
      InstrumentsAreExact(trades[..n]);
      if t.instrument !in positions {
        positions := positions[t.instrument := Flat];
        order := order + [t.instrument];
      }
      if t.quantity.None? {
        return None;
      }
      var p := positions[t.instrument];
      realized := realized + Gain(p, t);
      positions := positions[t.instrument := Apply(p, t)];
    }
    assert trades[..|trades|] == trades;
    var holdings: seq<Holding> := [];
    for k := 0 to |order|
      invariant holdings == OpenHoldings(trades, order[..k])
    {
      assert order[..k + 1][..k] == order[..k];
      var id := order[k];
      assert id in order;
      var p := positions[id];
      if p.qty > 0.0 {
        holdings := holdings + [HoldingOf(p, id)];
      }
    }
    assert order[..|order|] == order;
    return Some((holdings, realized));
  }

  // ---- ledgers that never sell what is not held ----

  predicate NeverOversold(trades: seq<Trade>) {
    trades != [] ==>
      var last := trades[|trades| - 1];
      && NeverOversold(trades[..|trades| - 1])
      && last.quantity.Some? && last.quantity.value > 0.0
      && (last.side == Sell ==> last.quantity.value <= PositionOf(trades[..|trades| - 1], last.instrument).qty)
  }

  lemma WholeCostRemoved(p: Position)
    requires p.qty > 0.0
    ensures CostRemoved(p, p.qty) == p.cost
  {
  }

  /** A position sold down to nothing has no cost left in it, so dropping it loses nothing. */
  lemma {:induction false} ClosedMeansCostless(trades: seq<Trade>, id: Id)
    requires NeverOversold(trades)
    ensures PositionOf(trades, id).qty >= 0.0
    ensures PositionOf(trades, id).qty == 0.0 ==> PositionOf(trades, id).cost == 0.0
  {
    if trades != [] {
      ClosedMeansCostless(trades[..|trades| - 1], id);
      var prior := PositionOf(trades[..|trades| - 1], id);
      if prior.qty > 0.0 {
        WholeCostRemoved(prior);
      }
    }
  }

  // ---- conservation ----

  /** What was bought of an instrument less what was sold of it. */
  function UnitsLeft(trades: seq<Trade>, id: Id): real {
    if trades == [] then 0.0
    else
      var last := trades[|trades| - 1];
      var units := if last.instrument == id then last.quantity.GetOr(0.0) else 0.0;
      UnitsLeft(trades[..|trades| - 1], id) + if last.side == Buy then units else -units
  }

  /** Over any ledger the quantity of a position is what was bought less what was sold, below nothing when oversold. */
  lemma {:induction false} UnitsAreConserved(trades: seq<Trade>, id: Id)
    ensures PositionOf(trades, id).qty == UnitsLeft(trades, id)
  {
    if trades != [] {
      UnitsAreConserved(trades[..|trades| - 1], id);
    }
  }

  function CostOver(trades: seq<Trade>, ids: seq<Id>): real {
    if ids == [] then 0.0 else CostOver(trades, ids[..|ids| - 1]) + PositionOf(trades, ids[|ids| - 1]).cost
  }

  function Cash(): Trade -> int {
    (t: Trade) => t.total
  }

  function IsSell(): Trade -> int {
    (t: Trade) => if t.side == Sell then 1 else 0
  }

  lemma {:induction false} CostMovesAt(trades: seq<Trade>, ids: seq<Id>)
    requires trades != []
    requires forall i, j :: 0 <= i < j < |ids| ==> ids[i] != ids[j]
    ensures var last, rest := trades[|trades| - 1], trades[..|trades| - 1];
            CostOver(trades, ids) == CostOver(rest, ids)
              + if last.instrument in ids then PositionOf(trades, last.instrument).cost - PositionOf(rest, last.instrument).cost else 0.0
  {
    if ids != [] {
      CostMovesAt(trades, ids[..|ids| - 1]);
      assert ids == ids[..|ids| - 1] + [ids[|ids| - 1]];
    }
  }

  /**
  Over any ledger at all, sells of what was not held included, and before rounding the open
  positions: each sell has put at most half a cent between books and cash.
  */
  lemma {:induction false} ReplayConserves(trades: seq<Trade>)
    ensures var gap := (Realized(trades) - Sum(trades, Cash())) as real - CostOver(trades, Instruments(trades));
            2.0 * gap <= Sum(trades, IsSell()) as real && -2.0 * gap <= Sum(trades, IsSell()) as real
  {
    if trades != [] {
      var rest, last := trades[..|trades| - 1], trades[|trades| - 1];
      var ids := Instruments(rest);
      ReplayConserves(rest);
      InstrumentsAreExact(rest);
      InstrumentsAreExact(trades);
      var p := PositionOf(rest, last.instrument);
      CostMovesAt(trades, Instruments(trades));
      assert CostOver(rest, Instruments(trades)) == CostOver(rest, ids) by {
        if last.instrument !in ids {
          assert Instruments(trades)[..|ids|] == ids;
        }
      }
      if last.side == Sell && p.qty > 0.0 {
        RoundCentsIsNearest(CostRemoved(p, last.quantity.GetOr(0.0)));
      }
    }
  }

  function TotalCost(): Holding -> int {
    (h: Holding) => h.totalCost
  }

  /** Rounding each open position to the cent moves the total by at most half a cent apiece. */
  lemma {:induction false} RoundingTheHoldings(trades: seq<Trade>, ids: seq<Id>)
    requires NeverOversold(trades)
    ensures var open := OpenHoldings(trades, ids);
            var gap := CostOver(trades, ids) - Sum(open, TotalCost()) as real;
            2.0 * gap <= |open| as real && -2.0 * gap <= |open| as real
  {
    if ids != [] {
      var rest, last := ids[..|ids| - 1], ids[|ids| - 1];
      RoundingTheHoldings(trades, rest);
      ClosedMeansCostless(trades, last);
      var p := PositionOf(trades, last);
      if p.qty > 0.0 {
        RoundCentsIsNearest(p.cost);
        SumSnoc(OpenHoldings(trades, rest), HoldingOf(p, last), TotalCost());
      } else {
        assert OpenHoldings(trades, rest) + [] == OpenHoldings(trades, rest);
      }
    }
  }

  /**
  Money is conserved: realized profit, less the cost of what is still held, is the net cash of
  all trades, to within half a cent for every sell and every open holding.
  */
  lemma MoneyIsConserved(trades: seq<Trade>)
    requires NeverOversold(trades)
    ensures var open := OpenHoldings(trades, Instruments(trades));
            var gap := Realized(trades) - Sum(open, TotalCost()) - Sum(trades, Cash());
            var bound := Sum(trades, IsSell()) + |open|;
            -bound <= 2 * gap <= bound
  {
    ReplayConserves(trades);
    RoundingTheHoldings(trades, Instruments(trades));
  }

  // ---- the average stays inside what was paid ----

  predicate IsBuyOf(trades: seq<Trade>, i: int, id: Id) {
    0 <= i < |trades| && trades[i].instrument == id && trades[i].side == Buy
    && trades[i].quantity.Some? && trades[i].quantity.value > 0.0
  }

  /** Cash paid per unit bought, fees included. */
  function UnitCost(t: Trade): real
    requires t.quantity.Some? && t.quantity.value > 0.0
  {
    -(t.total as real) / t.quantity.value
  }

  lemma SellKeepsAverage(p: Position, q: real)
    requires p.qty > 0.0 && 0.0 < q < p.qty
    ensures var after := Position(p.qty - q, p.cost - CostRemoved(p, q));
            after.cost / after.qty == p.cost / p.qty
  {
    var avg := p.cost / p.qty;
    assert p.cost == avg * p.qty;
    assert p.cost - avg * q == avg * (p.qty - q);
    assert (avg * (p.qty - q)) / (p.qty - q) == avg;
  }

  lemma QuotientBounds(x: real, n: real, bound: real)
    requires n > 0.0
    ensures x <= bound * n <==> x / n <= bound
    ensures x >= bound * n <==> x / n >= bound
  {
    var q := x / n;
    assert x == q * n;
    if q <= bound {
      assert q * n <= bound * n;
    }
    if q >= bound {
      assert q * n >= bound * n;
    }
  }

  /** Buying at a unit cost moves the average toward it and no further. */
  lemma BuyMixesAverage(p: Position, total: real, q: real, bound: real)
    requires p.qty > 0.0 && q > 0.0
    ensures p.cost / p.qty <= bound && total / q <= bound ==> (p.cost + total) / (p.qty + q) <= bound
    ensures p.cost / p.qty >= bound && total / q >= bound ==> (p.cost + total) / (p.qty + q) >= bound
  {
    QuotientBounds(p.cost, p.qty, bound);
    QuotientBounds(total, q, bound);
    QuotientBounds(p.cost + total, p.qty + q, bound);
    assert bound * p.qty + bound * q == bound * (p.qty + q);
  }

  ghost predicate WithinBuys(trades: seq<Trade>, id: Id, avg: real) {
    && (exists i :: IsBuyOf(trades, i, id) && UnitCost(trades[i]) <= avg)
    && (exists j :: IsBuyOf(trades, j, id) && avg <= UnitCost(trades[j]))
  }

  lemma BuysPersist(trades: seq<Trade>, id: Id, avg: real)
    requires trades != [] && WithinBuys(trades[..|trades| - 1], id, avg)
    ensures WithinBuys(trades, id, avg)
  {
    var rest := trades[..|trades| - 1];
    var i :| IsBuyOf(rest, i, id) && UnitCost(rest[i]) <= avg;
    var j :| IsBuyOf(rest, j, id) && avg <= UnitCost(rest[j]);
    assert IsBuyOf(trades, i, id) && IsBuyOf(trades, j, id);
  }

  /**
  The average cost of an open position always lies between the cheapest and the dearest unit
  cost that instrument was ever bought at.
  */
  lemma {:induction false} AverageStaysWithinBuys(trades: seq<Trade>, id: Id)
    requires NeverOversold(trades) && PositionOf(trades, id).qty > 0.0
    ensures WithinBuys(trades, id, PositionOf(trades, id).cost / PositionOf(trades, id).qty)
  {
    var rest, last := trades[..|trades| - 1], trades[|trades| - 1];
    var p := PositionOf(rest, id);
    ClosedMeansCostless(rest, id);
    if last.instrument != id {
      AverageStaysWithinBuys(rest, id);
      BuysPersist(trades, id, p.cost / p.qty);
    } else if last.side == Sell {
      AverageStaysWithinBuys(rest, id);
      BuysPersist(trades, id, p.cost / p.qty);
      SellKeepsAverage(p, last.quantity.value);
    } else {
      if p.qty > 0.0 {
        AverageStaysWithinBuys(rest, id);
      }
      BuyStaysWithin(trades, id);
    }
  }

  lemma BuyStaysWithin(trades: seq<Trade>, id: Id)
    requires trades != [] && NeverOversold(trades)
    requires var last := trades[|trades| - 1]; last.instrument == id && last.side == Buy
    requires var p := PositionOf(trades[..|trades| - 1], id);
             && p.qty >= 0.0
             && (p.qty == 0.0 ==> p.cost == 0.0)
             && (p.qty > 0.0 ==> WithinBuys(trades[..|trades| - 1], id, p.cost / p.qty))
    ensures WithinBuys(trades, id, PositionOf(trades, id).cost / PositionOf(trades, id).qty)
  {
    var rest, last := trades[..|trades| - 1], trades[|trades| - 1];
    var p := PositionOf(rest, id);
    var q, total := last.quantity.value, -(last.total as real);
    assert IsBuyOf(trades, |trades| - 1, id);
    assert PositionOf(trades, id) == Position(p.qty + q, p.cost + total);
    if p.qty > 0.0 {
      BuysPersist(trades, id, p.cost / p.qty);
      MixStaysWithin(trades, id, p, total, q);
    } else {
      WithinBetween(trades, id, total / q, |trades| - 1, |trades| - 1, |trades| - 1);
    }
  }

  /** Into an open position: the new average lies between the old one and the price just paid. */
  lemma MixStaysWithin(trades: seq<Trade>, id: Id, p: Position, total: real, q: real)
    requires trades != [] && IsBuyOf(trades, |trades| - 1, id)
    requires p.qty > 0.0 && q > 0.0 && UnitCost(trades[|trades| - 1]) == total / q
    requires WithinBuys(trades, id, p.cost / p.qty)
    ensures WithinBuys(trades, id, (p.cost + total) / (p.qty + q))
  {
    MeanIsBetween(p, total, q);
    var avg := p.cost / p.qty;
    var i :| IsBuyOf(trades, i, id) && UnitCost(trades[i]) <= avg;
    var j :| IsBuyOf(trades, j, id) && avg <= UnitCost(trades[j]);
    WithinBetween(trades, id, (p.cost + total) / (p.qty + q), i, j, |trades| - 1);
  }

  /** A weighted mean lies between the two it is made of. */
  lemma MeanIsBetween(p: Position, total: real, q: real)
    requires p.qty > 0.0 && q > 0.0
    ensures var avg, unit, mean := p.cost / p.qty, total / q, (p.cost + total) / (p.qty + q);
            avg <= mean <= unit || unit <= mean <= avg
  {
    BuyMixesAverage(p, total, q, p.cost / p.qty);
    BuyMixesAverage(p, total, q, total / q);
  }

  lemma WithinBetween(trades: seq<Trade>, id: Id, avg: real, i: int, j: int, k: int)
    requires IsBuyOf(trades, i, id) && IsBuyOf(trades, j, id) && IsBuyOf(trades, k, id)
    requires UnitCost(trades[i]) <= avg || UnitCost(trades[k]) <= avg
    requires avg <= UnitCost(trades[j]) || avg <= UnitCost(trades[k])
    ensures WithinBuys(trades, id, avg)
  {
  }

  // ---- instruments do not interfere ----

  /** One instrument's own rows, in order. */
  function Own(trades: seq<Trade>, id: Id): seq<Trade> {
    if trades == [] then []
    else Own(trades[..|trades| - 1], id) + if trades[|trades| - 1].instrument == id then [trades[|trades| - 1]] else []
  }

  function RealizedOn(trades: seq<Trade>): Id -> int {
    id => Realized(Own(trades, id))
  }

  lemma {:induction false} OwnDecides(trades: seq<Trade>, id: Id)
    ensures PositionOf(Own(trades, id), id) == PositionOf(trades, id)
    ensures forall i :: 0 <= i < |Own(trades, id)| ==> Own(trades, id)[i].instrument == id
  {
    if trades != [] {
      var rest, last := trades[..|trades| - 1], trades[|trades| - 1];
      OwnDecides(rest, id);
      if last.instrument == id {
        assert Own(trades, id)[..|Own(trades, id)| - 1] == Own(rest, id);
      } else {
        assert Own(trades, id) == Own(rest, id);
      }
    }
  }

  function JustAt(at: Id, v: int): Id -> int {
    id => if id == at then v else 0
  }

  lemma {:induction false} SumJustAt(ids: seq<Id>, at: Id, v: int)
    requires forall i, j :: 0 <= i < j < |ids| ==> ids[i] != ids[j]
    ensures Sum(ids, JustAt(at, v)) == if at in ids then v else 0
  {
    if ids != [] {
      SumJustAt(ids[..|ids| - 1], at, v);
      assert ids == ids[..|ids| - 1] + [ids[|ids| - 1]];
    }
  }

  /** Realized profit is the sum of what each instrument's own rows realize. */
  lemma {:induction false} RealizedByInstrument(trades: seq<Trade>)
    ensures Realized(trades) == Sum(Instruments(trades), RealizedOn(trades))
  {
    if trades != [] {
      var rest, last := trades[..|trades| - 1], trades[|trades| - 1];
      var ids, at := Instruments(rest), last.instrument;
      var gain := Gain(PositionOf(rest, at), last);
      RealizedByInstrument(rest);
      InstrumentsAreExact(rest);
      forall id
        ensures RealizedOn(trades)(id) == RealizedOn(rest)(id) + 1 * JustAt(at, gain)(id)
      {
        OwnStep(trades, id);
      }
      SumCombine(ids, RealizedOn(trades), RealizedOn(rest), JustAt(at, gain), 1);
      SumJustAt(ids, at, gain);
      if at !in ids {
        SumSnoc(ids, at, RealizedOn(trades));
        OwnIsEmpty(rest, at);
      }
    }
  }

  lemma OwnStep(trades: seq<Trade>, id: Id)
    requires trades != []
    ensures var rest, last := trades[..|trades| - 1], trades[|trades| - 1];
            Realized(Own(trades, id)) == Realized(Own(rest, id)) + if last.instrument == id then Gain(PositionOf(rest, id), last) else 0
  {
    var rest, last := trades[..|trades| - 1], trades[|trades| - 1];
    OwnDecides(rest, id);
    if last.instrument == id {
      assert Own(trades, id)[..|Own(trades, id)| - 1] == Own(rest, id);
    } else {
      assert Own(trades, id) == Own(rest, id);
    }
  }

  lemma {:induction false} OwnIsEmpty(trades: seq<Trade>, id: Id)
    requires forall k :: 0 <= k < |trades| ==> trades[k].instrument != id
    ensures Own(trades, id) == []
  {
    if trades != [] {
      OwnIsEmpty(trades[..|trades| - 1], id);
    }
  }

  /**
  However two ledgers interleave their instruments, if each instrument's own rows come in the
  same order, every position and the realized total are the same.
  */
  lemma InterleavingDoesNotMatter(trades: seq<Trade>, others: seq<Trade>)
    requires forall id :: Own(trades, id) == Own(others, id)
    ensures forall id :: PositionOf(trades, id) == PositionOf(others, id)
    ensures Realized(trades) == Realized(others)
  {
    forall id
      ensures PositionOf(trades, id) == PositionOf(others, id)
    {
      OwnDecides(trades, id);
      OwnDecides(others, id);
    }
    RealizedByInstrument(trades);
    RealizedByInstrument(others);
    SameInstruments(trades, others);
    SumOfSameIds(Instruments(trades), Instruments(others), RealizedOn(others));
    SameRealizedOn(trades, others, Instruments(trades));
  }

  lemma SameRealizedOn(trades: seq<Trade>, others: seq<Trade>, ids: seq<Id>)
    requires forall id :: Own(trades, id) == Own(others, id)
    ensures Sum(ids, RealizedOn(trades)) == Sum(ids, RealizedOn(others))
  {
    forall i | 0 <= i < |ids|
      ensures RealizedOn(trades)(ids[i]) == RealizedOn(others)(ids[i])
    {
      assert Own(trades, ids[i]) == Own(others, ids[i]);
    }
    SumSame(ids, RealizedOn(trades), RealizedOn(others));
  }

  /** The same instruments are traded, each listed once. */
  lemma SameInstruments(trades: seq<Trade>, others: seq<Trade>)
    requires forall id :: Own(trades, id) == Own(others, id)
    ensures Distinct(Instruments(trades)) && Distinct(Instruments(others))
    ensures AllIn(Instruments(trades), Instruments(others)) && AllIn(Instruments(others), Instruments(trades))
  {
    InstrumentsAreExact(trades);
    InstrumentsAreExact(others);
    TradedInBoth(trades, others);
    TradedInBoth(others, trades);
  }

  lemma TradedInBoth(trades: seq<Trade>, others: seq<Trade>)
    requires forall id :: Own(trades, id) == Own(others, id)
    ensures AllIn(Instruments(trades), Instruments(others))
  {
    var ids := Instruments(trades);
    forall i | 0 <= i < |ids|
      ensures ids[i] in Instruments(others)
    {
      OwnTells(trades, ids[i]);
      OwnTells(others, ids[i]);
    }
  }

  lemma {:induction false} OwnTells(trades: seq<Trade>, id: Id)
    ensures Own(trades, id) == [] <==> id !in Instruments(trades)
  {
    InstrumentsAreExact(trades);
    if id !in Instruments(trades) {
      OwnIsEmpty(trades, id);
    } else {
      var k :| 0 <= k < |trades| && trades[k].instrument == id;
      OwnHas(trades, k);
    }
  }

  lemma {:induction false} OwnHas(trades: seq<Trade>, k: nat)
    requires k < |trades|
    ensures Own(trades, trades[k].instrument) != []
  {
    if k < |trades| - 1 {
      OwnHas(trades[..|trades| - 1], k);
    }
  }

  predicate Distinct(ids: seq<Id>) {
    forall i, j :: 0 <= i < j < |ids| ==> ids[i] != ids[j]
  }

  function Dropping(ids: seq<Id>, k: nat): seq<Id>
    requires k < |ids|
  {
    ids[..k] + ids[k + 1..]
  }

  lemma SplitAt(ids: seq<Id>, k: nat)
    requires k < |ids|
    ensures ids == ids[..k] + [ids[k]] + ids[k + 1..]
  {
  }

  lemma DroppingKeepsSum(ids: seq<Id>, k: nat, f: Id -> int)
    requires k < |ids|
    ensures Sum(ids, f) == Sum(Dropping(ids, k), f) + f(ids[k])
  {
    SplitAt(ids, k);
    SumAround(ids[..k], ids[k], ids[k + 1..], f);
  }

  lemma DroppingKeepsOthers(ids: seq<Id>, k: nat)
    requires k < |ids| && Distinct(ids)
    ensures Distinct(Dropping(ids, k))
    ensures forall i :: 0 <= i < |ids| && i != k ==> ids[i] in Dropping(ids, k)
    ensures forall i :: 0 <= i < |ids| - 1 ==> Dropping(ids, k)[i] in ids && Dropping(ids, k)[i] != ids[k]
  {
    var rest := Dropping(ids, k);
    forall i | 0 <= i < |ids| && i != k
      ensures ids[i] in rest
    {
      assert ids[i] == rest[if i < k then i else i - 1];
    }
  }

  ghost predicate AllIn(a: seq<Id>, b: seq<Id>) {
    forall i :: 0 <= i < |a| ==> a[i] in b
  }

  lemma DroppingBoth(a: seq<Id>, b: seq<Id>, i: nat, k: nat)
    requires Distinct(a) && Distinct(b) && AllIn(a, b) && i < |a| && k < |b| && a[i] == b[k]
    ensures AllIn(Dropping(a, i), Dropping(b, k))
  {
    DroppingKeepsOthers(a, i);
    DroppingKeepsOthers(b, k);
    forall j | 0 <= j < |a| - 1
      ensures Dropping(a, i)[j] in Dropping(b, k)
    {
      var x := Dropping(a, i)[j];
      var m :| 0 <= m < |a| && a[m] == x;
      var n :| 0 <= n < |b| && b[n] == x;
    }
  }

  lemma {:induction false} SumOfSameIds(a: seq<Id>, b: seq<Id>, f: Id -> int)
    requires Distinct(a) && Distinct(b) && AllIn(a, b) && AllIn(b, a)
    ensures Sum(a, f) == Sum(b, f)
    decreases |a|
  {
    if a != [] {
      var n := |a| - 1;
      var k :| 0 <= k < |b| && b[k] == a[n];
      DroppingKeepsSum(a, n, f);
      DroppingKeepsSum(b, k, f);
      DroppingKeepsOthers(a, n);
      DroppingKeepsOthers(b, k);
      DroppingBoth(a, b, n, k);
      DroppingBoth(b, a, k, n);
      SumOfSameIds(Dropping(a, n), Dropping(b, k), f);
    }
  }
}
