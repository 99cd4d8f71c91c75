/** The two storage tables the purchase routine touches: the `profiles` table
    (one balance per user) and the `mining_orders` table (an append-only list of
    orders), plus the product record of the `mining_bots` catalog.

    Money is an integer number of the smallest currency unit and times are
    integer milliseconds since the epoch. */
module Store {
  import opened Options

  /** The authenticated user's id (the `id` of a `profiles` row). */
  type UserId = string
  /** The `id` of a `mining_bots` row. */
  type BotId = int

  /** The order status the purchase routine writes. */
  const Active: string := "active"

  /** A catalog product as read from `mining_bots`; `roi` and `hashRate` may be null. */
  datatype Bot = Bot(
    id: BotId,
    name: string,
    price: int,
    durationDays: int,
    roi: Option<int>,
    hashRate: Option<int>)

  /** The `settings` snapshot of a bot's terms stored with each order. */
  datatype Settings = Settings(roi: int, price: int, duration: int, power: Option<int>)

  /** A `mining_orders` row. */
  datatype Order = Order(
    userId: UserId,
    botId: BotId,
    startDate: int,
    endDate: int,
    status: string,
    earnings: int,
    settings: Settings)

  /** The storage state: the balance of every existing profile and every order. */
  datatype Db = Db(profiles: map<UserId, int>, orders: seq<Order>)

  /** Every profile balance is non-negative. */
  predicate NonNegativeBalances(db: Db) {
    forall u :: u in db.profiles ==> db.profiles[u] >= 0
  }

  /** `select balance from profiles where id = uid`, read with `maybeSingle`:
      the row's balance, or None when there is no such row. */
  function FetchBalance(db: Db, uid: UserId): (r: Option<int>)
    ensures r.Some? <==> uid in db.profiles
    ensures r.Some? ==> r.value == db.profiles[uid]
  {
    if uid in db.profiles then Some(db.profiles[uid]) else None
  }

  /** `update profiles set balance = b where id = uid`: changes the matching row
      and nothing else; with no matching row nothing changes. */
  function SetBalance(db: Db, uid: UserId, b: int): (r: Db)
    ensures r.orders == db.orders
    ensures r.profiles.Keys == db.profiles.Keys
    ensures uid in db.profiles ==> r.profiles[uid] == b
    ensures forall u :: u in db.profiles && u != uid ==> r.profiles[u] == db.profiles[u]
    ensures uid !in db.profiles ==> r == db
  {
    if uid in db.profiles then db.(profiles := db.profiles[uid := b]) else db
  }

  /** Reading a balance after writing it gives the written value; the write
      leaves every other user's read as it was. */
  lemma ReadAfterWrite(db: Db, uid: UserId, b: int)
    ensures uid in db.profiles ==> FetchBalance(SetBalance(db, uid, b), uid) == Some(b)
    ensures uid !in db.profiles ==> FetchBalance(SetBalance(db, uid, b), uid) == None
    ensures forall u :: u != uid ==> FetchBalance(SetBalance(db, uid, b), u) == FetchBalance(db, u)
  {
  }

  /** `insert into mining_orders`: appends one row. */
  function InsertOrder(db: Db, o: Order): Db {
    db.(orders := db.orders + [o])
  }

  /** What an order charged `uid`: its snapshot price when it is `uid`'s order. */
  function Charge(o: Order, uid: UserId): int {
    if o.userId == uid then o.settings.price else 0
  }

  /** The total snapshot price of `uid`'s orders in `orders`. */
  function Spent(orders: seq<Order>, uid: UserId): int {
    if orders == [] then 0 else Charge(orders[0], uid) + Spent(orders[1..], uid)
  }

  /** A user's funds as the ledger accounts for them: the current balance plus
      everything already paid into orders. A purchase that charges exactly the
      price it records keeps this constant. */
  function Accounted(db: Db, uid: UserId): int {
    (if uid in db.profiles then db.profiles[uid] else 0) + Spent(db.orders, uid)
  }

  lemma {:induction false} SpentAppend(s: seq<Order>, t: seq<Order>, uid: UserId)
    ensures Spent(s + t, uid) == Spent(s, uid) + Spent(t, uid)
  {
    if s == [] {
      assert s + t == t;
    } else {
      assert (s + t)[0] == s[0];
      assert (s + t)[1..] == s[1..] + t;
      SpentAppend(s[1..], t, uid);
    }
  }

  /** Inserting an order adds exactly its charge to its owner's ledger and
      leaves every other user's ledger alone. */
  lemma InsertOrderAccounted(db: Db, o: Order)
    ensures forall u :: Accounted(InsertOrder(db, o), u) == Accounted(db, u) + Charge(o, u)
  {
    forall u
      ensures Accounted(InsertOrder(db, o), u) == Accounted(db, u) + Charge(o, u)
    {
      SpentAppend(db.orders, [o], u);
      assert Spent([o], u) == Charge(o, u) by {
        assert [o][1..] == [];
      }
    }
  }

  /** Writing balance `b` for an existing profile shifts that user's ledger by
      the difference and leaves every other user's ledger alone. */
  lemma SetBalanceAccounted(db: Db, uid: UserId, b: int)
    requires uid in db.profiles
    ensures Accounted(SetBalance(db, uid, b), uid) == Accounted(db, uid) + b - db.profiles[uid]
    ensures forall u :: u != uid ==> Accounted(SetBalance(db, uid, b), u) == Accounted(db, u)
  {
  }
}
