/** Repeated purchases by whoever is logged in, one after another, each
    running against the storage state the previous one left. The routine takes
    no lock and keeps no idempotency key, so this sequential composition is the
    only setting in which its guarantees compose. */
module Runs {
  import opened Store
  import opened Market

  datatype Attempt = Attempt(bot: Bot, env: Env)

  /** The exits of `attempts`, in order, and the state they leave. */
  function Run(db: Db, attempts: seq<Attempt>): (r: (seq<Exit>, Db))
    ensures |r.0| == |attempts|
    decreases |attempts|
  {
    if attempts == [] then ([], db)
    else
      var step := BuyBot(db, attempts[0].bot, attempts[0].env);
      var rest := Run(step.db, attempts[1..]);
      ([step.exit] + rest.0, rest.1)
  }

  /** No attempt of the run leaves a charge without an order. */
  predicate NoneStranded(db: Db, attempts: seq<Attempt>)
    decreases |attempts|
  {
    attempts == [] ||
    (var step := BuyBot(db, attempts[0].bot, attempts[0].env);
     !Stranded(step, attempts[0].env) && NoneStranded(step.db, attempts[1..]))
  }

  /** The number of successful purchases among `exits`. */
  function Successes(exits: seq<Exit>): nat {
    if exits == [] then 0 else (if exits[0] == Bought then 1 else 0) + Successes(exits[1..])
  }

  /** A run adds exactly one order per successful purchase, after the orders
      that were already there, and never adds or removes a profile. */
  lemma {:induction false} RunOrderCount(db: Db, attempts: seq<Attempt>)
    ensures var r := Run(db, attempts);
      |r.1.orders| == |db.orders| + Successes(r.0) && r.1.orders[..|db.orders|] == db.orders
    ensures Run(db, attempts).1.profiles.Keys == db.profiles.Keys
    decreases |attempts|
  {
    if attempts != [] {
      var step := BuyBot(db, attempts[0].bot, attempts[0].env);
      RunOrderCount(step.db, attempts[1..]);
      var r := Run(db, attempts);
      var rest := Run(step.db, attempts[1..]);
      assert r.0 == [step.exit] + rest.0;
      assert r.0[1..] == rest.0;
      assert step.db.orders[..|db.orders|] == db.orders by {
        if step.exit == Bought {
          SuccessEffect(db, attempts[0].bot, attempts[0].env);
        }
      }
      assert |step.db.orders| == |db.orders| + (if step.exit == Bought then 1 else 0) by {
        if step.exit == Bought {
          SuccessEffect(db, attempts[0].bot, attempts[0].env);
        }
      }
      assert rest.1.orders[..|db.orders|] == step.db.orders[..|db.orders|];
    }
  }

  /** A run in which no charge is stranded keeps every user's ledger: the
      balance plus the snapshot prices of the user's orders. So a user's
      balance falls by exactly the prices of the orders the run created. */
  lemma {:induction false} RunConservesAccounted(db: Db, attempts: seq<Attempt>)
    requires NoneStranded(db, attempts)
    ensures forall u :: Accounted(Run(db, attempts).1, u) == Accounted(db, u)
    decreases |attempts|
  {
    if attempts != [] {
      var step := BuyBot(db, attempts[0].bot, attempts[0].env);
      AccountedPreserved(db, attempts[0].bot, attempts[0].env);
      RunConservesAccounted(step.db, attempts[1..]);
    }
  }

  /** Balances that start non-negative stay non-negative through any run. */
  lemma {:induction false} RunKeepsBalancesNonNegative(db: Db, attempts: seq<Attempt>)
    requires NonNegativeBalances(db)
    ensures NonNegativeBalances(Run(db, attempts).1)
    decreases |attempts|
  {
    if attempts != [] {
      var step := BuyBot(db, attempts[0].bot, attempts[0].env);
      PreservesNonNegativeBalances(db, attempts[0].bot, attempts[0].env);
      RunKeepsBalancesNonNegative(step.db, attempts[1..]);
    }
  }
}
