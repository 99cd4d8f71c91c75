/** Concrete purchases that pin the routine's behaviour down on small inputs. */
module Scenarios {
  import opened Options
  import opened Store
  import opened Orders
  import opened Market
  import opened Runs

  /** Every external call succeeds for user "u1" at clock `now`. */
  function AllOk(now: int): Env {
    Env(Some("u1"), true, true, now, now, true, true)
  }

  function Miner(price: int): Bot {
    Bot(7, "Miner", price, 30, None, Some(120))
  }

  /** Balance 100, price 40: the purchase succeeds, the balance becomes 60 and
      one active order with snapshot price 40 is created. */
  lemma AffordablePurchase()
    ensures var r := BuyBot(Db(map["u1" := 100], []), Miner(40), AllOk(1_000));
      && r.exit == Bought
      && r.db.profiles["u1"] == 60
      && |r.db.orders| == 1
      && r.db.orders[0].status == Active
      && r.db.orders[0].settings == Settings(0, 40, 30, Some(120))
      && r.db.orders[0].endDate == 1_000 + 30 * MsPerDay
  {
  }

  /** Balance 30, price 40: the purchase fails, the balance stays 30 and no
      order is created. */
  lemma UnaffordablePurchase()
    ensures var db := Db(map["u1" := 30], []);
      var r := BuyBot(db, Miner(40), AllOk(1_000));
      r.exit == InsufficientBalance && r.db == db
  {
  }

  /** Two purchases of a 60-price bot against a balance of 60, one after the
      other: the first succeeds and leaves 0, the second is refused. */
  lemma RepeatedPurchase()
    ensures var r := Run(Db(map["u1" := 60], []),
                         [Attempt(Miner(60), AllOk(1_000)), Attempt(Miner(60), AllOk(2_000))]);
      && r.0 == [Bought, InsufficientBalance]
      && r.1.profiles["u1"] == 0
      && |r.1.orders| == 1
  {
  }

  /** An insert failure after a successful debit, with the restore taking
      effect, leaves the balance at its pre-purchase value and adds no order. */
  lemma FailedInsertRestores()
    ensures var db := Db(map["u1" := 100], []);
      var env := AllOk(1_000).(insertOk := false);
      var r := BuyBot(db, Miner(40), env);
      r.exit == InsertFailed && r.db == db
  {
  }

  /** An insert failure after a successful debit, with a restore that does not
      take effect: the routine returns false, the balance stays at 60 and no
      order exists. */
  lemma FailedInsertAndRestoreStrands()
    ensures var db := Db(map["u1" := 100], []);
      var env := AllOk(1_000).(insertOk := false, restoreOk := false);
      var r := BuyBot(db, Miner(40), env);
      && r.exit == InsertFailed && CompletionOf(r.exit) == Returned(false)
      && r.db.profiles["u1"] == 60 && r.db.orders == []
  {
  }

  /** A bot lasting 100,000,001 days: the end date is past the last valid
      `Date`, so the routine throws after the debit, leaving the balance at 60
      and no order. */
  lemma OverlongDurationStrands()
    ensures var db := Db(map["u1" := 100], []);
      var bot := Miner(40).(durationDays := 100_000_001);
      var r := BuyBot(db, bot, AllOk(1_000));
      && r.exit == DateOutOfRange && CompletionOf(r.exit) == Threw
      && r.db.profiles["u1"] == 60 && r.db.orders == []
  {
  }
}
