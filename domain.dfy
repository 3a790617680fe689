/**
 The values of the point domain: a user's point balance, one entry of the
 charge/use log, the failures a mutation can end in, and the functions that
 relate the log to the balances (signed replay, per-user view, admissibility).
 */
module Domain {

  /** Largest balance a user may hold; reaching it exactly is allowed. */
  const MaxBalance: int := 5_000_000

  /** Smallest amount a single use may spend. */
  const MinUseAmount: int := 1_000

  datatype TransactionType = Charge | Use

  /** One log entry; `amount` is the magnitude of the operation, never signed. */
  datatype PointHistory = PointHistory(id: int, userId: int, amount: int, kind: TransactionType, updateMillis: int)

  /** The account state a lookup or a successful mutation hands back. */
  datatype UserPoint = UserPoint(id: int, point: int)

  /** One tag per IllegalArgumentException the service throws. */
  datatype PointError = BalanceLimitExceeded | BelowMinimumUseAmount | InsufficientBalance

  datatype Result<T> = Ok(value: T) | Err(error: PointError)

  /** The balance table's read: a user never written reads as 0. */
  function BalanceOf(balances: map<int, int>, userId: int): (b: int)
  {
    if userId in balances then balances[userId] else 0
  }

  /** The signed effect of one entry on its user's balance. */
  function Delta(e: PointHistory): (d: int)
    requires e.amount > 0
    ensures e.kind == Charge <==> d > 0
    ensures d == e.amount || d == -e.amount
  {
    match e.kind
    case Charge => e.amount
    case Use => -e.amount
  }

  /** Every entry of the log carries a positive amount. */
  ghost predicate PositiveAmounts(entries: seq<PointHistory>)
  {
    forall i :: 0 <= i < |entries| ==> entries[i].amount > 0
  }

  /** Replaying entries from a zero balance: +amount per CHARGE, -amount per USE. */
  function Replay(entries: seq<PointHistory>): (r: int)
    requires PositiveAmounts(entries)
  {
    if entries == [] then 0 else Delta(entries[0]) + Replay(entries[1..])
  }

  /** The entries of one user, in the order they were appended. */
  function HistoryOf(entries: seq<PointHistory>, userId: int): (r: seq<PointHistory>)
    ensures |r| <= |entries|
    ensures forall e :: e in r <==> e in entries && e.userId == userId
  {
    if entries == [] then []
    else (if entries[0].userId == userId then [entries[0]] else []) + HistoryOf(entries[1..], userId)
  }

  /** Log ids increase strictly with position. */
  ghost predicate IdsIncreasing(entries: seq<PointHistory>)
  {
    forall i, j :: 0 <= i < j < |entries| ==> entries[i].id < entries[j].id
  }

  /** Every prefix of the entries replays to a balance within [0, MaxBalance]. */
  ghost predicate Admissible(entries: seq<PointHistory>)
    requires PositiveAmounts(entries)
  {
    forall k :: 0 <= k <= |entries| ==> 0 <= Replay(entries[..k]) <= MaxBalance
  }

  /** Appending one entry adds its signed amount to the replayed balance. */
  lemma {:induction false} ReplayAppend(entries: seq<PointHistory>, e: PointHistory)
    requires PositiveAmounts(entries) && e.amount > 0
    ensures PositiveAmounts(entries + [e])
    ensures Replay(entries + [e]) == Replay(entries) + Delta(e)
  {
    if entries == [] {
      assert [e][1..] == [];
    } else {
      assert (entries + [e])[1..] == entries[1..] + [e];
      ReplayAppend(entries[1..], e);
    }
  }

  /** Appending one entry extends the view of its own user and of nobody else. */
  lemma {:induction false} HistoryOfAppend(entries: seq<PointHistory>, e: PointHistory, userId: int)
    ensures HistoryOf(entries + [e], userId)
         == HistoryOf(entries, userId) + (if e.userId == userId then [e] else [])
  {
    if entries == [] {
      assert [e][1..] == [];
    } else {
      var head := if entries[0].userId == userId then [entries[0]] else [];
      var tail := if e.userId == userId then [e] else [];
      calc {
        HistoryOf(entries + [e], userId);
        { assert (entries + [e])[0] == entries[0] && (entries + [e])[1..] == entries[1..] + [e]; }
        head + HistoryOf(entries[1..] + [e], userId);
        { HistoryOfAppend(entries[1..], e, userId); }
        head + (HistoryOf(entries[1..], userId) + tail);
        (head + HistoryOf(entries[1..], userId)) + tail;
        HistoryOf(entries, userId) + tail;
      }
    }
  }

  /** A per-user view of a log with increasing ids keeps the entries in log order. */
  lemma {:induction false} HistoryOfOrdered(entries: seq<PointHistory>, userId: int)
    requires IdsIncreasing(entries)
    ensures IdsIncreasing(HistoryOf(entries, userId))
  {
    if entries != [] {
      var rest := entries[1..];
      assert IdsIncreasing(rest) by {
        forall i, j | 0 <= i < j < |rest| ensures rest[i].id < rest[j].id {
          assert rest[i] == entries[i + 1] && rest[j] == entries[j + 1];
        }
      }
      HistoryOfOrdered(rest, userId);
      forall e | e in rest ensures entries[0].id < e.id {
        var j :| 0 <= j < |rest| && rest[j] == e;
        assert e == entries[j + 1];
      }
    }
  }

  /** The final replayed balance of an admissible log lies within [0, MaxBalance]. */
  lemma ReplayInRange(entries: seq<PointHistory>)
    requires PositiveAmounts(entries) && Admissible(entries)
    ensures 0 <= Replay(entries) <= MaxBalance
  {
    assert entries[..|entries|] == entries;
  }

  /** An admissible log stays admissible when the next balance is within bounds. */
  lemma AdmissibleExtend(entries: seq<PointHistory>, e: PointHistory)
    requires PositiveAmounts(entries) && e.amount > 0 && Admissible(entries)
    requires 0 <= Replay(entries) + Delta(e) <= MaxBalance
    ensures PositiveAmounts(entries + [e])
    ensures Admissible(entries + [e])
  {
    ReplayAppend(entries, e);
    var s := entries + [e];
    forall k | 0 <= k <= |s| ensures 0 <= Replay(s[..k]) <= MaxBalance {
      if k <= |entries| {
        assert s[..k] == entries[..k];
      } else {
        assert s[..k] == s;
      }
    }
  }
}
