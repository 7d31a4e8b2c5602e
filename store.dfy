/** The database the services work on: one table per model and the append-only
    loyalty log, as a value (`State`) and as the mutable connection the services
    write through (`Db`). */
module Store {
  import opened Wrappers
  import opened Repository
  import P = ProductModel
  import O = OrderModel
  import I = OrderItemModel
  import T = TransactionModel
  import U = UserModel
  import L = LoyaltyLogModel

  datatype State = State(
    products: Table<P.Product>,
    orders: Table<O.Order>,
    items: Table<I.OrderItem>,
    transactions: Table<T.Transaction>,
    users: Table<U.User>,
    log: seq<L.Entry>)

  /** Every table hands out fresh ids. */
  ghost predicate TablesWf(s: State)
  {
    Wf(s.products) && Wf(s.orders) && Wf(s.items) && Wf(s.transactions) && Wf(s.users)
  }

  /** The loyalty invariant: each user's balance is the net of the user's log entries. */
  ghost predicate LedgerConsistent(s: State)
  {
    forall u :: u in s.users.rows ==> s.users.rows[u].puntos_actuales == L.LogSum(s.log, u)
  }

  /** `puntos_actuales + n` on one user row (`increment`, or an update with a literal). */
  function Credit(users: Table<U.User>, userId: int, n: int): (r: Table<U.User>)
    ensures r.nextId == users.nextId && r.rows.Keys == users.rows.Keys
    ensures forall u :: u in users.rows && u != userId ==> r.rows[u] == users.rows[u]
    ensures userId in users.rows ==>
      r.rows[userId] == users.rows[userId].(puntos_actuales := users.rows[userId].puntos_actuales + n)
  {
    Modify(users, userId, (u: U.User) => u.(puntos_actuales := u.puntos_actuales + n))
  }

  /** Crediting a user and logging the same amount for that user keeps the ledger
      balanced (a credit to a missing user is a no-op whose entry no balance counts). */
  lemma CreditLogged(s: State, e: L.Entry)
    requires LedgerConsistent(s)
    ensures LedgerConsistent(s.(users := Credit(s.users, e.usuario_id, e.cantidad_puntos), log := s.log + [e]))
  {
    var s' := s.(users := Credit(s.users, e.usuario_id, e.cantidad_puntos), log := s.log + [e]);
    forall u | u in s'.users.rows
      ensures s'.users.rows[u].puntos_actuales == L.LogSum(s'.log, u)
    {
      L.LogSumAppend(s.log, e, u);
    }
  }

  /** Crediting a user without a log entry unbalances the ledger by exactly the amount. */
  lemma CreditUnlogged(s: State, userId: int, n: int)
    requires LedgerConsistent(s) && userId in s.users.rows
    ensures var s' := s.(users := Credit(s.users, userId, n));
      s'.users.rows[userId].puntos_actuales == L.LogSum(s'.log, userId) + n
  {
  }

  /** The open connection. Each field holds one table; the services change them in place. */
  class Db {
    var products: Table<P.Product>
    var orders: Table<O.Order>
    var items: Table<I.OrderItem>
    var transactions: Table<T.Transaction>
    var users: Table<U.User>
    var log: seq<L.Entry>

    function Snapshot(): State
      reads this
    {
      State(products, orders, items, transactions, users, log)
    }

    constructor (s: State)
      ensures Snapshot() == s
    {
      products := s.products;
      orders := s.orders;
      items := s.items;
      transactions := s.transactions;
      users := s.users;
      log := s.log;
    }

    /** A rollback: every table returns to a saved state. */
    method Restore(s: State)
      modifies this
      ensures Snapshot() == s
    {
      products := s.products;
      orders := s.orders;
      items := s.items;
      transactions := s.transactions;
      users := s.users;
      log := s.log;
    }
  }
}
