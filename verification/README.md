# Bot purchase on the market page, modelled in Dafny

The market page of this mining-bot app sells bots from the `mining_bots`
catalog. Its `buyBot(bot)` routine is a small compensating transaction over
two tables: the buyer's `profiles` row, which holds the balance, and the
`mining_orders` table. The routine runs these steps in order:

1. Check that a user is logged in.
2. Read the user's balance.
3. Refuse the purchase when the balance is below the price.
4. Write `balance - price`.
5. Insert an `active` order whose `end_date` is `duration_days` days after
   the clock, with a `settings` snapshot of the bot's terms.
6. If the insert fails, write the old balance back.

This project models that routine as a pure function, `Market.BuyBot`. It maps
a storage state `Db(profiles, orders)`, a bot and an environment `Env` to the
exit taken and the resulting state. The exit is one per alert the page shows.
`Env` supplies every answer from outside the routine:

- the logged-in user, if any;
- whether the profile select, the debit, the insert and the restore each
  take effect;
- the two clock reads, one by `new Date()` for `start_date` and one by
  `Date.now()` for `end_date`.

Modules:

- `Options`: `null`/`undefined` as `None`, and `??` as `GetOr`.
- `Store`: the records (`Bot`, `Settings`, `Order`, `Db`) and the storage
  primitives (select by id, update by id, insert). It also defines the ledger
  `Accounted(db, u)`: the balance of user `u` plus the snapshot prices of
  `u`'s orders.
- `Orders`: the inserted row, the `Date` range, and the duration arithmetic.
- `Market`: `BuyBot` and its per-path guarantees.
- `Runs`: purchases applied one after another, for example repeated clicks
  (the button is re-enabled after every failure that returns false; after a
  thrown error it stays disabled).
- `Scenarios`: small concrete purchases.

What the model shows about the code as written:

- The early exits change nothing: not logged in, profile error or no row,
  insufficient balance, failed debit.
- The debit writes exactly `balance - price`. That write happens only when
  `balance >= price`, so the written balance is never negative, whatever the
  price.
- A success adds exactly one order, owned by the buyer, `active`, with zero
  earnings and the bot's terms. The buyer's balance falls by the price.
- A failed insert followed by a restore that takes effect leaves the state
  exactly as it was.
- There are two ways to strand a charge: debited, with no order. The model
  shows both.
  1. The routine never inspects the restore's result. A restore that does not
     take effect leaves the buyer charged with no order.
  2. `toISOString` throws a RangeError when a date falls outside the valid
     JavaScript `Date` range (more than 8.64e15 ms from the epoch). For
     example, a `duration_days` over 100,000,000 does this. The throw comes
     after the debit and before the insert, so no restore runs.
- Every path that strands no charge keeps every user's ledger unchanged, and
  so does every run built from such paths. A stranded path lowers the buyer's
  ledger by exactly the price.

The routine has no idempotency key, no conditional (compare-and-swap) debit,
no lock and no retry. Its debit is a plain read-then-write, and the model
keeps it that way.

Integer arithmetic agrees with the JavaScript number arithmetic of the dates
for integer inputs:

- Every product and sum that stays inside the valid `Date` range is below
  2^53, so it is exact.
- Every value outside that range becomes an Invalid Date, whatever the
  rounding.

## Model

| member | source | states |
|---|---|---|
| Market.BuyBot | pages/market.js:70-140 | The early exits change nothing. Each exit is taken if and only if its cause holds: being logged out; a profile error or a missing row; `balance < price`; a failed debit after the balance check; an out-of-range date after the debit; a failed insert after valid dates. A debit is attempted only when the balance covers the price. An order is added only on success, and it is exactly the built order. No other profile's balance changes, and no profile appears or disappears. |
| Market.ThrowsIff | pages/market.js:99-117 | The routine throws if and only if it gets past a debit that took effect and one of the order's dates is out of range. |
| Market.DebitFailureEffect | pages/market.js:104-108 | When the balance covers the price but the debit fails, the routine returns false and the state is unchanged. |
| Market.SuccessIff | pages/market.js:71-139 | The routine returns true if and only if the user is logged in, the profile loads, the balance covers the price, the debit succeeds, both dates are valid, and the insert succeeds. |
| Market.SuccessEffect | pages/market.js:96-139 | On success the balance is the old balance minus the price. Exactly one order is appended after the existing ones. It carries the buyer's id and the bot's id, status `active`, earnings 0, the bot's terms as settings, `start_date` = start clock and `end_date` = end clock + `duration_days` × 86,400,000. |
| Market.DebitNeverNegative | pages/market.js:91-102 | Whatever the price, wherever the debited value is the buyer's final balance (success, a throw, or a failed insert whose restore did not take effect), it is exactly `balance - price` and is non-negative. After an effective restore it is the old balance. |
| Market.PreservesNonNegativeBalances | pages/market.js:91-132 | If every balance is non-negative before the purchase, every balance is non-negative after it, on every path. |
| Market.InsertFailureEffect | pages/market.js:128-136 | When the debit took effect, the dates are valid and the insert fails, the routine returns false. A restore that takes effect gives back exactly the pre-purchase state. A restore that does not take effect leaves the buyer debited by the price, with no order. |
| Market.ThrowLeavesDebit | pages/market.js:99-117 | When the debit took effect and an order date is out of range, the routine throws. The buyer stays charged, no order is added, and nothing restores the balance. |
| Market.AccountedPreserved | pages/market.js:96-136 | On every path that strands no charge, each user's balance plus order prices is unchanged. On a stranded path the buyer's ledger falls by exactly the price. No other user's ledger ever changes. |
| Market.NoFreeOrder | pages/market.js:113-139 | The order list grows if and only if the purchase succeeded. |
| Store.ReadAfterWrite | pages/market.js:79-102 | Reading a balance after the update by id gives the written value when the row exists, and nothing when it does not. Every other user's read is unchanged. |
| Store.SetBalance | pages/market.js:99-102 | The balance update changes only the matching row. With no matching row it changes nothing. Orders and the set of profiles are untouched. |
| Store.SetBalanceAccounted | pages/market.js:99-102 | Writing a balance shifts the written user's ledger by the difference and leaves every other ledger alone. |
| Store.InsertOrderAccounted | pages/market.js:113-126 | Inserting an order raises its owner's ledger by the order's snapshot price and leaves every other ledger alone. |
| Orders.BuildOrder | pages/market.js:113-126 | The row is built if and only if both dates are within ±8.64e15 ms. Its span `end_date - start_date` is the snapshot duration × 86,400,000 plus the time between the two clock reads. |
| Orders.SameClockSpan | pages/market.js:116-117 | With one clock value for both dates, `end_date - start_date` is the snapshot duration in days × 86,400,000, and the whole-day span equals the snapshot duration. |
| Orders.TwoClockSpan | pages/market.js:116-117 | With the start clock read no later than the end clock, the order outlasts its snapshot duration by exactly the time between the two reads. |
| Orders.OverlongDurationHasNoOrder | pages/market.js:117 | A duration over 100,000,000 days with a clock at or after the epoch gives an out-of-range `end_date`, so no order is built. |
| Runs.RunOrderCount | pages/market.js:113-139 | Over repeated purchases, the order list grows by exactly the number of successes. The existing orders stay as a prefix, and the set of profiles is unchanged. |
| Runs.RunConservesAccounted | pages/market.js:96-136 | Over repeated purchases that strand no charge, every user's balance plus order prices is unchanged. |
| Runs.RunKeepsBalancesNonNegative | pages/market.js:91-102 | Over repeated purchases, non-negative balances stay non-negative. |
| Scenarios.AffordablePurchase | pages/market.js:91-139 | Balance 100, price 40: success, balance 60, one active order with snapshot price 40. |
| Scenarios.UnaffordablePurchase | pages/market.js:91-94 | Balance 30, price 40: refused, state unchanged. |
| Scenarios.RepeatedPurchase | pages/market.js:91-139 | Two purchases at price 60 against balance 60, one after the other: the first succeeds and leaves 0, the second is refused, and there is one order. |
| Scenarios.FailedInsertRestores | pages/market.js:128-136 | A failed insert with a restore that takes effect leaves balance 100 and no order. |
| Scenarios.FailedInsertAndRestoreStrands | pages/market.js:128-136 | Balance 100, price 40, the insert and the restore both fail: the routine returns false, the balance is 60 and there is no order. |
| Scenarios.OverlongDurationStrands | pages/market.js:99-117 | Balance 100, price 40, a duration of 100,000,001 days: the routine throws, the balance is 60 and there is no order. |

## Left out

- The Supabase client, auth and storage calls (pages/market.js:16, 71, 79-83, 99-102, 113, 132) are foreign calls. Each is a success/failure input in `Env`, where success means the write took effect. Two mismatches between the reported error and the effect are not modelled: a write whose error is reported but that took effect anyway, and a write that reports no error but changes nothing. The second happens when the update by id matches no row, for example because row-level security filters it out. The code would then insert the order with no debit, a free order; `Market.NoFreeOrder` and `Market.AccountedPreserved` do not cover that case.
- The order id and any other database-generated column are not modelled.
- The page rendering, bot list loading, `alert`, `console` output and the button enable/disable handling (pages/market.js:4-66) are UI. Each alert appears only as the `Exit` it belongs to.
- Concurrent or interleaved purchases (double clicks while a purchase is in flight, several sessions) are not modelled. The routine takes no lock and has no conditional write, so it gives no guarantee for them. `Runs` covers only purchases that run one after another.
- JavaScript number semantics of `balance` and `price` are left out: they are integers here, such as cents. So are a `null` balance or price, fractional days, and non-numeric fields.
- The ISO 8601 text of the dates is left out: dates are integer milliseconds.
- The profile, home, and deposit pages (pages/me.js, pages/home.js, pages/purchase.js) are display and read-only projections, so they are not part of this model.
