/** The bot-purchase routine of the market page: log-in check, balance read,
    affordability check, debit, order insert and the compensating restore when
    the insert fails. Every storage call is an input that says whether it
    succeeded; the routine is a pure function from the storage state to the
    exit it takes and the storage state it leaves. */
module Market {
  import opened Options
  import opened Store
  import opened Orders

  /** What the environment answers to each external call of one purchase. */
  datatype Env = Env(
    user: Option<UserId>,  // the logged-in user, if any
    fetchOk: bool,         // the profile select returns no error
    debitOk: bool,         // the balance update takes effect
    startClock: int,       // clock read for `start_date`
    endClock: int,         // clock read for `end_date`
    insertOk: bool,        // the order insert takes effect
    restoreOk: bool)       // the restore update takes effect (its result is never inspected)

  /** The way the routine leaves, one per alert it shows. */
  datatype Exit =
    | NotLoggedIn          // "Please login first", returns false
    | ProfileUnavailable   // "Failed to load profile", returns false
    | InsufficientBalance  // "Insufficient balance", returns false
    | DebitFailed          // "Failed to deduct balance", returns false
    | DateOutOfRange       // `toISOString` throws a RangeError
    | InsertFailed         // "Failed to create mining order", returns false
    | Bought               // "You successfully bought ...", returns true

  /** How the asynchronous routine completes: its boolean, or a thrown error. */
  datatype Completion = Returned(success: bool) | Threw

  function CompletionOf(e: Exit): (c: Completion)
    ensures c == Returned(true) <==> e == Bought
    ensures c == Threw <==> e == DateOutOfRange
  {
    match e
    case Bought => Returned(true)
    case DateOutOfRange => Threw
    case _ => Returned(false)
  }

  datatype Outcome = Outcome(exit: Exit, db: Db)

  /** The routine gets as far as the debit: a user is logged in, the profile
      loads and its balance covers the price. */
  predicate ReachesDebit(db: Db, bot: Bot, env: Env) {
    env.user.Some? && env.fetchOk && env.user.value in db.profiles
    && db.profiles[env.user.value] >= bot.price
  }

  /** The order record for this purchase, when its dates are in range. */
  function OrderFor(bot: Bot, env: Env): Option<Order>
    requires env.user.Some?
  {
    BuildOrder(env.user.value, bot, env.startClock, env.endClock)
  }

  /** The routine leaves the user charged with no order for the charge: the
      order record threw after the debit, or the insert failed and the restore
      did not take effect. */
  predicate Stranded(r: Outcome, env: Env) {
    r.exit == DateOutOfRange || (r.exit == InsertFailed && !env.restoreOk)
  }

  /** `buyBot(bot)` run against storage state `db`. */
  function BuyBot(db: Db, bot: Bot, env: Env): (r: Outcome)
    // early exits change nothing
    ensures r.exit in {NotLoggedIn, ProfileUnavailable, InsufficientBalance, DebitFailed} ==> r.db == db
    ensures env.user.None? <==> r.exit == NotLoggedIn
    ensures env.user.Some? ==>
      (r.exit == ProfileUnavailable <==> !env.fetchOk || env.user.value !in db.profiles)
    ensures r.exit == InsufficientBalance <==>
      env.user.Some? && env.fetchOk && env.user.value in db.profiles
      && db.profiles[env.user.value] < bot.price
    // the debit is attempted only when the balance covers the price
    ensures r.exit in {DebitFailed, DateOutOfRange, InsertFailed, Bought} ==> ReachesDebit(db, bot, env)
    // each later exit is taken exactly when its call fails
    ensures (r.exit == DebitFailed) <==> (ReachesDebit(db, bot, env) && !env.debitOk)
    ensures (r.exit == DateOutOfRange) <==>
      (ReachesDebit(db, bot, env) && env.debitOk && OrderFor(bot, env).None?)
    ensures (r.exit == InsertFailed) <==>
      (ReachesDebit(db, bot, env) && env.debitOk && OrderFor(bot, env).Some? && !env.insertOk)
    // an order is added only on success, and then exactly one
    ensures r.exit != Bought ==> r.db.orders == db.orders
    ensures r.exit == Bought ==>
      && env.user.Some? && BuildOrder(env.user.value, bot, env.startClock, env.endClock).Some?
      && r.db.orders == db.orders + [BuildOrder(env.user.value, bot, env.startClock, env.endClock).value]
    // nobody else's balance changes, and no profile appears or disappears
    ensures r.db.profiles.Keys == db.profiles.Keys
    ensures env.user.Some? ==>
      forall u :: u in db.profiles && u != env.user.value ==> r.db.profiles[u] == db.profiles[u]
  {
    match env.user
    case None => Outcome(NotLoggedIn, db)
    case Some(uid) =>
      var profile := if env.fetchOk then FetchBalance(db, uid) else None;
      if profile.None? then Outcome(ProfileUnavailable, db)
      else
        var balance := profile.value;
        if balance < bot.price then Outcome(InsufficientBalance, db)
        else
          var newBalance := balance - bot.price;
          if !env.debitOk then Outcome(DebitFailed, db)
          else
            var debited := SetBalance(db, uid, newBalance);
            match BuildOrder(uid, bot, env.startClock, env.endClock)
            case None => Outcome(DateOutOfRange, debited)
            case Some(order) =>
              if !env.insertOk then
                var restored := if env.restoreOk then SetBalance(debited, uid, balance) else debited;
                Outcome(InsertFailed, restored)
              else
                Outcome(Bought, InsertOrder(debited, order))
  }

  /** The routine returns true exactly when the user is logged in, the profile
      loads, the balance covers the price, the debit succeeds, both dates are
      valid and the insert succeeds. */
  lemma SuccessIff(db: Db, bot: Bot, env: Env)
    ensures CompletionOf(BuyBot(db, bot, env).exit) == Returned(true) <==>
      && env.user.Some? && env.fetchOk && env.user.value in db.profiles
      && db.profiles[env.user.value] >= bot.price
      && env.debitOk
      && BuildOrder(env.user.value, bot, env.startClock, env.endClock).Some?
      && env.insertOk
  {
  }

  /** The routine throws exactly when it gets past the debit and one of the
      order's dates is out of range; otherwise it returns a boolean. */
  lemma ThrowsIff(db: Db, bot: Bot, env: Env)
    ensures CompletionOf(BuyBot(db, bot, env).exit) == Threw <==>
      ReachesDebit(db, bot, env) && env.debitOk && OrderFor(bot, env).None?
  {
  }

  /** A failed debit returns false and changes nothing. */
  lemma DebitFailureEffect(db: Db, bot: Bot, env: Env)
    requires ReachesDebit(db, bot, env) && !env.debitOk
    ensures CompletionOf(BuyBot(db, bot, env).exit) == Returned(false)
    ensures BuyBot(db, bot, env).db == db
  {
  }

  /** On success the buyer's balance drops by exactly the price and the one new
      order is the buyer's active order for this bot, with zero earnings and
      the bot's terms as its snapshot. */
  lemma SuccessEffect(db: Db, bot: Bot, env: Env)
    requires BuyBot(db, bot, env).exit == Bought
    ensures var r := BuyBot(db, bot, env); var uid := env.user.value;
      && uid in db.profiles
      && r.db.profiles[uid] == db.profiles[uid] - bot.price
      && |r.db.orders| == |db.orders| + 1
      && r.db.orders[..|db.orders|] == db.orders
      && var o := r.db.orders[|db.orders|];
         && o.userId == uid && o.botId == bot.id
         && o.status == Active && o.earnings == 0
         && o.settings == Snapshot(bot)
         && o.startDate == env.startClock
         && o.endDate == env.endClock + bot.durationDays * MsPerDay
  {
  }

  /** The balance the debit writes is never negative, whatever the price: the
      write happens only when the balance covers the price. Wherever that
      write is the buyer's final balance it is `balance - price >= 0`; after an
      effective restore the balance is the old one again. */
  lemma DebitNeverNegative(db: Db, bot: Bot, env: Env)
    requires env.user.Some? && env.user.value in db.profiles
    ensures var r := BuyBot(db, bot, env); var uid := env.user.value;
      (r.exit in {DateOutOfRange, Bought} || (r.exit == InsertFailed && !env.restoreOk)) ==>
        r.db.profiles[uid] == db.profiles[uid] - bot.price >= 0
    ensures var r := BuyBot(db, bot, env); var uid := env.user.value;
      (r.exit == InsertFailed && env.restoreOk) ==> r.db.profiles[uid] == db.profiles[uid]
  {
  }

  /** Every path keeps all balances non-negative. */
  lemma PreservesNonNegativeBalances(db: Db, bot: Bot, env: Env)
    requires NonNegativeBalances(db)
    ensures NonNegativeBalances(BuyBot(db, bot, env).db)
  {
  }

  /** When the insert fails and the restore takes effect, the state is exactly
      the one before the purchase; when the restore does not, the buyer stays
      charged the price with no order. */
  lemma InsertFailureEffect(db: Db, bot: Bot, env: Env)
    requires ReachesDebit(db, bot, env) && env.debitOk && OrderFor(bot, env).Some? && !env.insertOk
    ensures CompletionOf(BuyBot(db, bot, env).exit) == Returned(false)
    ensures env.restoreOk ==> BuyBot(db, bot, env).db == db
    ensures !env.restoreOk ==>
      BuyBot(db, bot, env).db == SetBalance(db, env.user.value, db.profiles[env.user.value] - bot.price)
  {
  }

  /** A RangeError from the order's dates comes after the debit: the buyer is
      charged, no order is added and nothing restores the balance. */
  lemma ThrowLeavesDebit(db: Db, bot: Bot, env: Env)
    requires ReachesDebit(db, bot, env) && env.debitOk && OrderFor(bot, env).None?
    ensures CompletionOf(BuyBot(db, bot, env).exit) == Threw
    ensures var uid := env.user.value;
      uid in db.profiles && BuyBot(db, bot, env).db == SetBalance(db, uid, db.profiles[uid] - bot.price)
  {
  }

  /** The ledger balances on every path that does not strand a charge: each
      user's balance plus the snapshot prices of their orders is unchanged.
      On a stranded path the buyer's ledger falls by exactly the price. */
  lemma {:induction false} AccountedPreserved(db: Db, bot: Bot, env: Env)
    ensures var r := BuyBot(db, bot, env);
      !Stranded(r, env) ==> forall u :: Accounted(r.db, u) == Accounted(db, u)
    ensures var r := BuyBot(db, bot, env);
      Stranded(r, env) ==> Accounted(r.db, env.user.value) == Accounted(db, env.user.value) - bot.price
    ensures var r := BuyBot(db, bot, env);
      env.user.Some? ==> forall u :: u != env.user.value ==> Accounted(r.db, u) == Accounted(db, u)
  {
    var r := BuyBot(db, bot, env);
    if r.exit in {NotLoggedIn, ProfileUnavailable, InsufficientBalance, DebitFailed} {
      return;
    }
    var uid := env.user.value;
    var balance := db.profiles[uid];
    var debited := SetBalance(db, uid, balance - bot.price);
    SetBalanceAccounted(db, uid, balance - bot.price);
    if r.exit == Bought {
      var o := BuildOrder(uid, bot, env.startClock, env.endClock).value;
      assert r.db == InsertOrder(debited, o);
      InsertOrderAccounted(debited, o);
      assert Charge(o, uid) == bot.price;
    } else if r.exit == InsertFailed && env.restoreOk {
      SetBalanceAccounted(debited, uid, balance);
    }
  }

  /** A failed purchase never adds an order, and a successful one is the only
      way an order appears: with the debit taking effect whenever its call
      reports no error, there is no free order. */
  lemma NoFreeOrder(db: Db, bot: Bot, env: Env)
    ensures var r := BuyBot(db, bot, env);
      |r.db.orders| > |db.orders| <==> r.exit == Bought
  {
  }
}
