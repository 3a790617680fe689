# Point ledger service — a verified Dafny model

This project models the point service of the hhplus TDD repository
(`io.hhplus.tdd.point.PointService`). The service keeps one point balance per
user in a balance table and an append-only log of CHARGE/USE entries in a
history table. It offers four operations:

- `charge` adds points unless the new balance would pass 5,000,000.
- `use` spends points. It rejects amounts below 1,000 first, then any amount larger than the balance.
- `point` reads a balance. A user never written reads as 0.
- `history` reads one user's log entries, oldest first.

Files:

- `domain.dfy` (module `Domain`) holds the values: `UserPoint`, `PointHistory`, `TransactionType` and the failure tags `PointError`. It also holds the functions that tie the log to the balances, with their lemmas:
  - `Replay` sums a user's entries as signed deltas.
  - `HistoryOf` is one user's view of the log.
  - `Admissible` says every prefix of a log replays into [0, 5,000,000].
- `point_service.dfy` (module `Services`) holds the class `PointService`. Its two fields are the two tables: `balances: map<int, int>` and `history: seq<PointHistory>`. `Charge` and `Use` change them in place.
  - `Valid()` is the ledger invariant, which every method keeps. Log ids follow append order and every amount is positive. Each user's log replays to that user's stored balance and stays within [0, 5,000,000] at every step.
  - Three small client methods (`ChargeScenario`, `UseScenario`, `HistoryScenario`) show what a caller can conclude from the contracts alone. Their cases are the unit tests' cases and the cap, minimum and overdraft edge cases.

The thrown `IllegalArgumentException`s become `Err` values with one tag per
failure: `BalanceLimitExceeded`, `BelowMinimumUseAmount` and
`InsufficientBalance`. A failed call leaves both tables unchanged. The wall
clock becomes a `now` parameter.

The model follows the code in these details:

- `use` reads the balance before the minimum-amount check. The model reads it there too. The read has no side effect, so the order cannot be observed.
- The code defines no `InvalidAmount` or `StorageUnavailable` failure, so the model has none.
- The code has no per-user serialisation, so the model has none.

## Model

| member | source | states |
|---|---|---|
| `Services.PointService.constructor` | src/main/java/io/hhplus/tdd/point/PointService.java:17-20 | The service starts over empty tables: no user has a balance and the log is empty. The ledger invariant holds. |
| `Services.PointService.Charge` | src/main/java/io/hhplus/tdd/point/PointService.java:28-47 | Fails with `BalanceLimitExceeded` exactly when old balance + amount > 5,000,000. On failure neither table changes. Otherwise the user's balance becomes old + amount and that account is returned. Exactly one CHARGE entry is appended, carrying the charged amount (not the new balance), the next id and `now`. Other users' balances and logs are unchanged. The ledger invariant is kept. |
| `Services.PointService.Point` | src/main/java/io/hhplus/tdd/point/PointService.java:54-58 | Returns the user's stored balance (0 for an unseen user) and changes nothing. That balance equals the replay of the user's log and lies in [0, 5,000,000]. |
| `Services.PointService.Use` | src/main/java/io/hhplus/tdd/point/PointService.java:66-89 | Fails with `BelowMinimumUseAmount` when amount < 1,000, whatever the balance. Otherwise it fails with `InsufficientBalance` when balance < amount. Both failures leave the tables unchanged. Otherwise the balance becomes old − amount, so spending the whole balance leaves 0, and that account is returned. Exactly one USE entry is appended, carrying the amount. Other users are unchanged and the ledger invariant is kept. |
| `Services.PointService.History` | src/main/java/io/hhplus/tdd/point/PointService.java:96-100 | Returns exactly the log entries whose user is `id`, and changes nothing. Their ids strictly increase, so they are in insertion order. Replaying them gives the user's current balance. |
| `Services.PointService.Step` | src/main/java/io/hhplus/tdd/point/PointService.java:83-84 | One balance overwrite for a user, paired with one appended entry whose signed amount is the balance change, keeps the whole ledger invariant, provided the new balance is in [0, 5,000,000]. |
| `Domain.Delta` | src/main/java/io/hhplus/tdd/point/PointService.java:41-42 | An entry's signed effect is ±amount. It is positive exactly for CHARGE entries. |
| `Domain.HistoryOf` | src/main/java/io/hhplus/tdd/point/PointService.java:99 | One user's view of the log holds exactly the log's entries for that user, and no more entries than the log. |
| `Domain.ReplayAppend` | src/main/java/io/hhplus/tdd/point/PointService.java:41-42 | Appending an entry changes a log's replayed balance by exactly that entry's signed amount. |
| `Domain.HistoryOfAppend` | src/main/java/io/hhplus/tdd/point/PointService.java:84-99 | The append of a history entry (as at lines 42 and 84), seen through the per-user read at line 99, extends the view of the entry's own user by that entry. Every other user's view is unchanged. |
| `Domain.HistoryOfOrdered` | src/main/java/io/hhplus/tdd/point/PointService.java:96-99 | If the log's ids increase with position, so do the ids of every per-user view. The view keeps log order. |
| `Domain.ReplayInRange` | src/main/java/io/hhplus/tdd/point/PointService.java:77-83 | The final replayed balance of an admissible log lies in [0, 5,000,000]. |
| `Domain.AdmissibleExtend` | src/main/java/io/hhplus/tdd/point/PointService.java:35-41 | An admissible log stays admissible after one more entry, provided the resulting balance is in [0, 5,000,000], as the cap and overdraft checks ensure. |

## Left out

- Services.PointService.Charge: requires `amount > 0`. The code does not reject zero or negative charge amounts. A negative charge would lower the balance and could drive it below 0. The model states positivity as the caller's obligation instead of claiming the code checks it. `Use` needs no such precondition, because it already rejects every amount below 1,000.
- Java `long` overflow of `balance + amount` is not modelled. Balances and amounts are mathematical integers. In the code, a charge amount near 2^63 would wrap `balance + amount` to a negative value that passes the cap check. The model instead rejects such a charge with `BalanceLimitExceeded`.
- `UserPoint.updateMillis` is not modelled. The internals of `UserPointTable` that stamp it are not part of this model. `UserPoint` carries only the id and the balance.
- The internals of `UserPointTable` and `PointHistoryTable` are not part of this model. They are modelled as a map (a missing user reads 0, a write overwrites) and a sequence (insert appends). Log ids are taken to be 1, 2, 3, ... in append order. `Charge` and `Use` promise the id |history| + 1. The ordering results (`HistoryOfOrdered`, `History`) use only that ids increase with position.
- Services.PointService.constructor: the injected tables are taken to be empty. The Java constructor keeps whatever tables it is given. The ledger invariant (each user's log replays to the stored balance) depends on the empty start. A store that holds a balance with no matching history is outside the model; the unit-test mock at src/test/java/io/hhplus/tdd/point/PointServiceTest.java:87 is such a store.
- `System.currentTimeMillis()` is a parameter `now`. The model uses it as the entry's timestamp.
- The text of the exception messages, which includes the limit or the current balance, is not modelled. Only the failure kind is.
- Logging (slf4j) and the Spring `@Service` wiring are plumbing with no effect on the tables.
- Concurrency is not modelled. The code does an unguarded read-then-write, with no locking and no per-user serialisation. Each operation is modelled as atomic, so lost updates under interleaving are outside this model.
