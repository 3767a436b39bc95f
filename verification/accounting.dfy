/**
 * The whole way of the money: what settling takes from a user's quota is what the token rollups show for
 * that user, once every committed row was handed over and no batch was lost.
 */
module Accounting {
  import opened Rollups
  import opened Pipelines
  import opened Conservation
  import S = Settlement

  function OfUser(user: nat): Key -> bool {
    (k: Key) => k.TokenKey? && k.userId == user
  }

  /** The logs the aggregator got are those of the rows, up to a filled-in creation time. */
  ghost predicate HandedOver(rows: seq<S.UsageRow>, logs: seq<Log>) {
    |logs| == |rows| && forall i | 0 <= i < |rows| :: logs[i] == rows[i].log.(createdAt := logs[i].createdAt)
  }

  lemma {:induction false} UserCostIsSum(rows: seq<S.UsageRow>, logs: seq<Log>, user: nat)
    requires HandedOver(rows, logs)
    ensures SumUsage(Filter(logs, KeySatisfies(TokenDaily, OfUser(user)))).totalCost == S.TotalCost(rows, user)
    decreases |rows|
  {
    if rows != [] {
      var n := |rows| - 1;
      UserCostIsSum(rows[..n], logs[..n], user);
      FilteredSumMore(logs, TokenDaily, OfUser(user));
    }
  }

  lemma {:induction false} TotalCostAppend(a: seq<S.UsageRow>, b: seq<S.UsageRow>, user: nat)
    ensures S.TotalCost(a + b, user) == S.TotalCost(a, user) + S.TotalCost(b, user)
    decreases |b|
  {
    if b == [] {
      assert a + b == a;
    } else {
      assert (a + b)[..|a + b| - 1] == a + b[..|b| - 1];
      TotalCostAppend(a, b[..|b| - 1], user);
    }
  }

  lemma {:induction false} TotalCostPermuted(a: seq<S.UsageRow>, b: seq<S.UsageRow>, user: nat)
    requires multiset(a) == multiset(b)
    ensures S.TotalCost(a, user) == S.TotalCost(b, user)
    decreases |a|
  {
    if a == [] {
      assert |multiset(b)| == 0;
    } else {
      var n := |a| - 1;
      var before, after := TakeOut(a, b);
      TotalCostPermuted(a[..n], before + after, user);
      TotalCostAppend(before, after, user);
      TotalCostAppend(before, [a[n]] + after, user);
      TotalCostAppend([a[n]], after, user);
      assert S.TotalCost([a[n]], user) == S.TotalCost(a, user) - S.TotalCost(a[..n], user) by {
        assert [a[n]][..0] == [];
      }
    }
  }

  /**
   * Settlers and aggregator flushes may interleave in any way: when all rows are handed over, `used_quota`
   * has grown by exactly the total cost of that user's token rollup rows.
   */
  lemma {:induction false} UsedQuotaMatchesRollups(
    l: S.Ledger, settled: seq<S.Event>, aggregated: seq<SystemEvent>, user: nat)
    requires user != 0 && user in l.users
    requires S.Run(l, settled).awaiting == []
    requires forall r | r in S.Run(l, settled).committed :: r.log.totalCost >= 0
    requires HandedOver(S.Run(l, settled).submitted, AllSubmitted(aggregated))
    requires forall e | e in aggregated && e.SubmitAll? :: e.now > 0
    requires forall id: TableId :: TableAfter(id, aggregated).lost == []
    ensures user in S.Run(l, settled).ledger.users
    ensures S.Run(l, settled).ledger.users[user].used - l.users[user].used
      == Total(Where(Strip(View(TableAfter(TokenDaily, aggregated))), OfUser(user))).totalCost
  {
    hide S.Run, TableAfter, View, Fold, Strip, Filter, SumUsage, Total, S.Spent, S.TotalCost, AllSubmitted;
    var s, logs := S.Run(l, settled), AllSubmitted(aggregated);
    S.QuotaConserved(l, settled, user);
    S.SpentIsTotalCost(s.committed, user);
    S.RunKeepsInv(l, settled);
    TotalCostPermuted(s.submitted, s.committed, user);
    SystemConserves(aggregated);
    TotalIsSum(TokenDaily, logs, OfUser(user));
    UserCostIsSum(s.submitted, logs, user);
  }
}
