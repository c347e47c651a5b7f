/** Splitting one order into two, as the whole book sees it. */
module SplitOrders {
  import opened Orders
  import opened BookSpec
  import opened BookInvariants
  import opened Transparency
  import opened Ledger
  import opened Splitting
  import opened BaselineRuns

  /** With no stop waiting, a match is one sweep of the opposite side and its trades. */
  lemma {:induction false} MatchIsSweep(b: Book, o: OrderState)
    requires Consistent(b) && b.pending == [] && Fresh(o) && !o.kind.StopLoss? && Unused(b, [], o.id)
    ensures var opp := o.side.Opposite(); var s, r := SweepLevels(o, b.On(opp)), Match(b, o);
      && Consistent(r) && r.On(opp) == s.levels && r.pending == [] && r.active.Keys <= b.active.Keys + {o.id}
      && r.trades == b.trades + TradesOf(b.nextTradeId, o, s.fills)
      && (forall f | f in s.fills :: f.id != o.id)
  {
    hide SweepLevels, TradesOf, SideOk;
    var opp := o.side.Opposite();
    var s := SweepLevels(o, b.On(opp));
    SweepLevelsOk(o, opp, b.On(opp), b.active);
    RecordAllTrades(b.With(opp, s.levels), o, s.fills);
    NoStopsRecorded(b.With(opp, s.levels), o, s.fills);
    RecordAllOk(b.With(opp, s.levels), [], o, s.fills);
    SidesApart(b, []);
    MatchOk(b, o);
  }

  /** What the match gives to an order that was resting. */
  lemma {:induction false} MatchTakes(b: Book, o: OrderState, id: nat)
    requires Consistent(b) && b.pending == [] && Fresh(o) && !o.kind.StopLoss? && Unused(b, [], o.id) && id != o.id
    ensures b.trades <= Match(b, o).trades
    ensures TradedBy(Match(b, o).trades[|b.trades|..], id) == Taken(SweepLevels(o, b.On(o.side.Opposite())).fills, id)
  {
    hide Match, SweepLevels, TradesOf;
    MatchIsSweep(b, o);
    var fills := SweepLevels(o, b.On(o.side.Opposite())).fills;
    TradesOfLedger(b.nextTradeId, o, fills, id);
    assert Match(b, o).trades[|b.trades|..] == TradesOf(b.nextTradeId, o, fills);
  }

  /**
    Two orders in a row or one of their total quantity, same side and same limit, no stop waiting: the opposite side
    ends up the same, and in a clean book every order that was resting has traded the same in all.
   */
  lemma SplitMatch(bk: Book, a: OrderState, b: OrderState, c: OrderState)
    requires Consistent(bk) && bk.pending == [] && Fresh(a) && Fresh(b) && Fresh(c)
    requires 0 < a.leaves && 0 < b.leaves && a.leaves + b.leaves == c.leaves
    requires a.side == b.side == c.side && BoundOf(a) == BoundOf(b) == BoundOf(c)
    requires !a.kind.StopLoss? && !b.kind.StopLoss? && !c.kind.StopLoss?
    requires Unused(bk, [], a.id) && Unused(bk, [], b.id) && Unused(bk, [], c.id) && a.id != b.id
    ensures var one, two, opp := Match(bk, c), Match(Match(bk, a), b), a.side.Opposite();
      && two.On(opp) == one.On(opp)
      && bk.trades <= one.trades && bk.trades <= two.trades
      && (CleanBook(bk) ==> forall id | id in LevelIds(bk.On(opp)) ::
            TradedBy(two.trades[|bk.trades|..], id) == TradedBy(one.trades[|bk.trades|..], id))
  {
    hide Match, SweepLevels, TradesOf, SideOk, TradedBy, CleanLevels;
    var m, opp := Match(bk, a), a.side.Opposite();
    MatchIsSweep(bk, a);
    MatchIsSweep(m, b);
    MatchIsSweep(bk, c);
    SplitAggressor(a, b, c, bk.On(opp), bk.active);
    var one, two, n := Match(bk, c), Match(m, b), |bk.trades|;
    if CleanBook(bk) {
      SidesApart(bk, []);
      forall id | id in LevelIds(bk.On(opp))
        ensures TradedBy(two.trades[n..], id) == TradedBy(one.trades[n..], id)
      {
        MatchTakes(bk, a, id);
        MatchTakes(m, b, id);
        MatchTakes(bk, c, id);
        assert two.trades[n..] == m.trades[n..] + two.trades[|m.trades|..];
        TradedConcat(m.trades[n..], two.trades[|m.trades|..], id);
      }
    }
  }
}
