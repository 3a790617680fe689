/**
 The point service: one balance per user and one append-only log of
 CHARGE/USE entries, mutated only through Charge and Use.  The balance table
 is `balances` (a user never written reads as 0) and the history table is
 `history`, whose entries are numbered 1, 2, 3, ... in append order.
 */
module Services {
  import opened Domain

  class PointService {
    var balances: map<int, int>
    var history: seq<PointHistory>

    /**
     The ledger invariant: ids follow append order, every amount is positive,
     and for every user the log replays to the stored balance without ever
     leaving [0, MaxBalance] on the way.
     */
    ghost predicate Valid()
      reads this
    {
      Consistent(balances, history)
    }

    /** The ledger invariant over the two tables' values. */
    static ghost predicate Consistent(balances: map<int, int>, history: seq<PointHistory>)
    {
      && (forall i :: 0 <= i < |history| ==> history[i].id == i + 1)
      && PositiveAmounts(history)
      && (forall u :: UserConsistent(balances, history, u))
    }

    /** One user's stored balance agrees with, and is bounded by, that user's log. */
    static ghost predicate UserConsistent(balances: map<int, int>, history: seq<PointHistory>, u: int)
    {
      var mine := HistoryOf(history, u);
      && PositiveAmounts(mine)
      && Admissible(mine)
      && BalanceOf(balances, u) == Replay(mine)
    }

    /** Both tables start empty: every user reads 0 and the log has no entry. */
    constructor ()
      ensures Valid()
      ensures balances == map[] && history == []
    {
      balances := map[];
      history := [];
      new;
      forall u ensures UserConsistent(balances, history, u) {
        assert HistoryOf(history, u) == [];
        assert HistoryOf(history, u)[..0] == [];
      }
    }

    /** Appending the next entry of user `e.userId`, whose balance becomes `newBalance`, keeps the invariant. */
    static lemma Step(b0: map<int, int>, h0: seq<PointHistory>, e: PointHistory, newBalance: int,
                      b1: map<int, int>, h1: seq<PointHistory>)
      requires Consistent(b0, h0)
      requires e.id == |h0| + 1 && e.amount > 0
      requires newBalance == BalanceOf(b0, e.userId) + Delta(e)
      requires 0 <= newBalance <= MaxBalance
      requires b1 == b0[e.userId := newBalance] && h1 == h0 + [e]
      ensures Consistent(b1, h1)
    {
      forall u ensures UserConsistent(b1, h1, u) {
        assert UserConsistent(b0, h0, u);
        var mine := HistoryOf(h0, u);
        HistoryOfAppend(h0, e, u);
        if u == e.userId {
          AdmissibleExtend(mine, e);
          ReplayAppend(mine, e);
        } else {
          assert HistoryOf(h1, u) == mine + [] == mine;
        }
      }
    }

    /** The `charge` operation: adds `amount` unless the result would pass MaxBalance. */
    method Charge(id: int, amount: int, now: int) returns (r: Result<UserPoint>)
      requires Valid()
      requires amount > 0
      modifies this
      ensures Valid()
      ensures var before := BalanceOf(old(balances), id);
        if before + amount > MaxBalance then
          && r == Err(BalanceLimitExceeded)
          && balances == old(balances)
          && history == old(history)
        else
          && r == Ok(UserPoint(id, before + amount))
          && balances == old(balances)[id := before + amount]
          && history == old(history) + [PointHistory(|old(history)| + 1, id, amount, TransactionType.Charge, now)]
      ensures forall u :: u != id ==> BalanceOf(balances, u) == BalanceOf(old(balances), u)
      ensures forall u :: u != id ==> HistoryOf(history, u) == HistoryOf(old(history), u)
    {
      var before := BalanceOf(balances, id);
      var newBalance := before + amount;
      if newBalance > MaxBalance {
        return Err(BalanceLimitExceeded);
      }
      assert UserConsistent(balances, history, id);
      ReplayInRange(HistoryOf(history, id));
      var e := PointHistory(|history| + 1, id, amount, TransactionType.Charge, now);
      Step(balances, history, e, newBalance, balances[id := newBalance], history + [e]);
      ghost var h0 := history;
      balances := balances[id := newBalance];
      history := history + [e];
      forall u | u != id ensures HistoryOf(history, u) == HistoryOf(h0, u) {
        HistoryOfAppend(h0, e, u);
      }
      r := Ok(UserPoint(id, newBalance));
    }

    /** The `point` operation: the user's current balance, read without side effect. */
    method Point(id: int) returns (up: UserPoint)
      requires Valid()
      ensures up.id == id && up.point == BalanceOf(balances, id)
      ensures up.point == Replay(HistoryOf(history, id))
      ensures 0 <= up.point <= MaxBalance
    {
      assert UserConsistent(balances, history, id);
      ReplayInRange(HistoryOf(history, id));
      up := UserPoint(id, BalanceOf(balances, id));
    }

    /**
     The `use` operation: spends `amount`.  The minimum-amount rule is checked
     first, so it decides the outcome whatever the balance; overdraft is refused.
     */
    method Use(id: int, amount: int, now: int) returns (r: Result<UserPoint>)
      requires Valid()
      modifies this
      ensures Valid()
      ensures var before := BalanceOf(old(balances), id);
        if amount < MinUseAmount then
          && r == Err(BelowMinimumUseAmount)
          && balances == old(balances)
          && history == old(history)
        else if before < amount then
          && r == Err(InsufficientBalance)
          && balances == old(balances)
          && history == old(history)
        else
          && r == Ok(UserPoint(id, before - amount))
          && balances == old(balances)[id := before - amount]
          && history == old(history) + [PointHistory(|old(history)| + 1, id, amount, TransactionType.Use, now)]
      ensures forall u :: u != id ==> BalanceOf(balances, u) == BalanceOf(old(balances), u)
      ensures forall u :: u != id ==> HistoryOf(history, u) == HistoryOf(old(history), u)
    {
      var before := BalanceOf(balances, id);
      if amount < MinUseAmount {
        return Err(BelowMinimumUseAmount);
      }
      if before < amount {
        return Err(InsufficientBalance);
      }
      assert UserConsistent(balances, history, id);
      ReplayInRange(HistoryOf(history, id));
      var e := PointHistory(|history| + 1, id, amount, TransactionType.Use, now);
      assert Delta(e) == -amount;
      Step(balances, history, e, before - amount, balances[id := before - amount], history + [e]);
      ghost var h0 := history;
      balances := balances[id := before - amount];
      history := history + [e];
      forall u | u != id ensures HistoryOf(history, u) == HistoryOf(h0, u) {
        HistoryOfAppend(h0, e, u);
      }
      r := Ok(UserPoint(id, before - amount));
    }

    /** The `history` operation: this user's entries only, oldest first, read without side effect. */
    method History(id: int) returns (hs: seq<PointHistory>)
      requires Valid()
      ensures hs == HistoryOf(history, id)
      ensures forall e :: e in hs <==> e in history && e.userId == id
      ensures IdsIncreasing(hs)
      ensures PositiveAmounts(hs) && Replay(hs) == BalanceOf(balances, id)
    {
      assert UserConsistent(balances, history, id);
      HistoryOfOrdered(history, id);
      hs := HistoryOf(history, id);
    }
  }

  /** Charging from an unseen user; the cap is strict and reaching it exactly is allowed. */
  method ChargeScenario()
  {
    var s := new PointService();
    var r := s.Charge(1, 1000, 100);
    assert r == Ok(UserPoint(1, 1000));
    r := s.Charge(2, 4_990_000, 200);
    r := s.Charge(2, 20_000, 300);
    assert r == Err(BalanceLimitExceeded);
    r := s.Charge(2, 10_000, 400);
    assert r == Ok(UserPoint(2, MaxBalance));
  }

  /** The minimum-amount rule wins over overdraft; spending the whole balance leaves 0. */
  method UseScenario()
  {
    var s := new PointService();
    var r := s.Charge(1, 10_000, 100);
    r := s.Use(1, 500, 200);
    assert r == Err(BelowMinimumUseAmount);
    r := s.Use(1, 20_000, 300);
    assert r == Err(InsufficientBalance);
    r := s.Use(1, 1000, 400);
    assert r == Ok(UserPoint(1, 9000));
    r := s.Use(1, 9000, 500);
    assert r == Ok(UserPoint(1, 0));
  }

  /** One user's log replays to that user's balance and holds nothing of other users. */
  method HistoryScenario()
  {
    var s := new PointService();
    var r := s.Charge(1, 10_000, 100);
    r := s.Use(1, 5000, 200);
    var hs := s.History(1);
    assert Replay(hs) == 5000;
    var other := s.History(2);
    assert other == [];
  }
}
