/** The read queries over the `transactions` table: lookups by gateway id, the
    paged and date-ordered listings, and the revenue count and sum. */
module TransactionRepository {
  import opened Wrappers
  import opened Repository
  import opened TransactionModel

  function ByIntent(pi: string): Transaction -> bool
  {
    (r: Transaction) => r.stripe_payment_intent_id == Some(pi)
  }

  function ByCharge(charge: string): Transaction -> bool
  {
    (r: Transaction) => r.stripe_charge_id == Some(charge)
  }

  /** `getByPaymentIntentId(pi)`: the key of the first row keyed by the gateway intent `pi`. */
  function IntentKey(t: Table<Transaction>, pi: string): (k: Option<int>)
    requires Wf(t)
    ensures k.Some? ==> k.value in t.rows && t.rows[k.value].stripe_payment_intent_id == Some(pi)
    ensures k.None? <==> forall j :: j in t.rows ==> t.rows[j].stripe_payment_intent_id != Some(pi)
  {
    FirstKey(t, ByIntent(pi))
  }

  /** `getByPaymentIntentId(pi)`: a transaction keyed by `pi`, or null. */
  function GetByPaymentIntentId(t: Table<Transaction>, pi: string): (r: Option<Transaction>)
    requires Wf(t)
    ensures r.Some? ==> r.value.stripe_payment_intent_id == Some(pi) && exists k :: k in t.rows && t.rows[k] == r.value
    ensures r.None? <==> forall j :: j in t.rows ==> t.rows[j].stripe_payment_intent_id != Some(pi)
  {
    var k := IntentKey(t, pi);
    if k.Some? then Some(t.rows[k.value]) else None
  }

  /** `Transaction.findOne({ where: { stripe_charge_id } })`: the key of the first row carrying that charge. */
  function ChargeKey(t: Table<Transaction>, charge: string): (k: Option<int>)
    requires Wf(t)
    ensures k.Some? ==> k.value in t.rows && t.rows[k.value].stripe_charge_id == Some(charge)
    ensures k.None? <==> forall j :: j in t.rows ==> t.rows[j].stripe_charge_id != Some(charge)
  {
    FirstKey(t, ByCharge(charge))
  }

  /** Rewriting the found row without touching its intent id keeps it the one found. */
  lemma IntentKeyStable(t: Table<Transaction>, pi: string, k: int, r: Transaction)
    requires Wf(t) && IntentKey(t, pi) == Some(k) && r.stripe_payment_intent_id == Some(pi)
    ensures Wf(t.(rows := t.rows[k := r])) && IntentKey(t.(rows := t.rows[k := r]), pi) == Some(k)
  {
    FirstKeyInStable(t, ByIntent(pi), 1, t.nextId, k, r);
  }

  /** A new row under the next id is found by its intent id when no stored row carries it. */
  lemma IntentKeyInserted(t: Table<Transaction>, pi: string, r: Transaction)
    requires Wf(t) && r.stripe_payment_intent_id == Some(pi) && IntentKey(t, pi).None?
    ensures IntentKey(Insert(t, r).0, pi) == Some(t.nextId)
  {
    var t' := Insert(t, r).0;
    var k := IntentKey(t', pi);
    assert t'.rows[t.nextId] == r;
  }

  /** `order: [['fecha_creacion', 'DESC']]`: newer rows come first. */
  predicate NewerFirst(s: seq<Transaction>)
  {
    forall i, j :: 0 <= i < j < |s| ==> s[i].fecha_creacion >= s[j].fecha_creacion
  }

  function InsertByDate(x: Transaction, s: seq<Transaction>): (r: seq<Transaction>)
    ensures multiset(r) == multiset(s) + multiset{x}
    ensures |r| == |s| + 1
    ensures r[0] == x || (s != [] && r[0] == s[0])
  {
    if s == [] || x.fecha_creacion >= s[0].fecha_creacion then [x] + s
    else
      var rest := InsertByDate(x, s[1..]);
      assert s == [s[0]] + s[1..];
      [s[0]] + rest
  }

  /** Inserting into a date-sorted run keeps it sorted. */
  lemma {:induction false} InsertByDateSorted(x: Transaction, s: seq<Transaction>)
    requires NewerFirst(s)
    ensures NewerFirst(InsertByDate(x, s))
    decreases |s|
  {
    if s != [] && x.fecha_creacion < s[0].fecha_creacion {
      var rest := InsertByDate(x, s[1..]);
      InsertByDateSorted(x, s[1..]);
      var r := [s[0]] + rest;
      forall i, j | 0 <= i < j < |r|
        ensures r[i].fecha_creacion >= r[j].fecha_creacion
      {
        if i == 0 {
          assert r[j] == rest[j - 1];
          assert rest[0].fecha_creacion <= s[0].fecha_creacion;
          assert rest[0].fecha_creacion >= rest[j - 1].fecha_creacion || j - 1 == 0;
        }
      }
    }
  }

  /** The database's descending sort on `fecha_creacion`; rows with equal dates
      keep their id order. */
  function SortByDate(s: seq<Transaction>): (r: seq<Transaction>)
    ensures NewerFirst(r)
    ensures multiset(r) == multiset(s) && |r| == |s|
  {
    if s == [] then []
    else
      assert s == [s[0]] + s[1..];
      InsertByDateSorted(s[0], SortByDate(s[1..]));
      InsertByDate(s[0], SortByDate(s[1..]))
  }

  /** A sorted page is sorted. */
  lemma WindowNewerFirst(s: seq<Transaction>, offset: nat, limit: nat)
    requires NewerFirst(s)
    ensures NewerFirst(Window(s, offset, limit))
  {
    var w := Window(s, offset, limit);
    forall i, j | 0 <= i < j < |w|
      ensures w[i].fecha_creacion >= w[j].fecha_creacion
    {
      assert w[i] == s[offset + i] && w[j] == s[offset + j];
    }
  }

  function OwnedBy(userId: int): Transaction -> bool
  {
    (r: Transaction) => r.usuario_id == userId
  }

  /** `getUserTransactions(userId, limit = 50, offset = 0)`: one page of the user's
      transactions, newest first. The page is the window at `offset` of a
      newest-first ordering of exactly the user's rows. */
  function UserTransactions(t: Table<Transaction>, userId: int, limit: nat := 50, offset: nat := 0): (r: seq<Transaction>)
    ensures |r| <= limit
    ensures forall i :: 0 <= i < |r| ==> r[i].usuario_id == userId
    ensures NewerFirst(r)
    ensures var own := Select(Scan(t), OwnedBy(userId));
      |r| == if offset >= |own| then 0 else if |own| - offset < limit then |own| - offset else limit
    ensures exists sorted :: && NewerFirst(sorted)
                             && multiset(sorted) == multiset(Select(Scan(t), OwnedBy(userId)))
                             && |sorted| == |Select(Scan(t), OwnedBy(userId))|
                             && forall i :: 0 <= i < |r| ==> r[i] == sorted[offset + i]
  {
    var sel := Select(Scan(t), OwnedBy(userId));
    var all := SortByDate(sel);
    WindowNewerFirst(all, offset, limit);
    OwnedSorted(all, userId, sel);
    var page := Window(all, offset, limit);
    assert NewerFirst(all) && multiset(all) == multiset(sel) && |all| == |sel|
        && forall i :: 0 <= i < |page| ==> page[i] == all[offset + i];
    page
  }

  lemma OwnedSorted(sorted: seq<Transaction>, userId: int, selected: seq<Transaction>)
    requires multiset(sorted) == multiset(selected)
    requires forall i :: 0 <= i < |selected| ==> selected[i].usuario_id == userId
    ensures forall i :: 0 <= i < |sorted| ==> sorted[i].usuario_id == userId
  {
    forall i | 0 <= i < |sorted|
      ensures sorted[i].usuario_id == userId
    {
      assert sorted[i] in multiset(sorted);
      assert sorted[i] in selected;
    }
  }

  /** The rows a listing returns are stored rows of the user, every page holds
      each of the user's rows at most as often as it is stored, and the first page
      that holds all of the user's rows is a permutation of exactly those rows. */
  lemma {:induction false} UserTransactionsStored(t: Table<Transaction>, userId: int, limit: nat, offset: nat)
    ensures forall x :: x in UserTransactions(t, userId, limit, offset) ==>
      exists k :: 1 <= k < t.nextId && k in t.rows && t.rows[k] == x
    ensures multiset(UserTransactions(t, userId, limit, offset)) <= multiset(Select(Scan(t), OwnedBy(userId)))
    ensures var own := Select(Scan(t), OwnedBy(userId));
      offset == 0 && |own| <= limit ==> multiset(UserTransactions(t, userId, limit, offset)) == multiset(own)
  {
    var own := Select(Scan(t), OwnedBy(userId));
    var sorted := SortByDate(own);
    var r := UserTransactions(t, userId, limit, offset);
    assert r == Window(sorted, offset, limit);
    WindowSubMultiset(sorted, offset, limit);
    forall x | x in r
      ensures exists k :: 1 <= k < t.nextId && k in t.rows && t.rows[k] == x
    {
      assert x in multiset(r);
      assert x in own;
      ScanBelowRows(t, t.nextId, x);
    }
    if offset == 0 && |own| <= limit {
      assert r == sorted;
    }
  }

  /** Reading a page of `first` rows and then the page after it returns exactly
      the rows of one page of `first + second` rows, in the same order. */
  lemma UserPagesAdjacent(t: Table<Transaction>, userId: int, offset: nat, first: nat, second: nat)
    ensures UserTransactions(t, userId, first, offset) + UserTransactions(t, userId, second, offset + first)
         == UserTransactions(t, userId, first + second, offset)
  {
    WindowAdjacent(SortByDate(Select(Scan(t), OwnedBy(userId))), offset, first, second);
  }

  function InState(status: string): Transaction -> bool
  {
    (r: Transaction) => Wire(r.estado) == status
  }

  /** `getByStatus(status, limit = 100, offset = 0)`: one page of the transactions in
      that state, newest first: the window at `offset` of a newest-first ordering
      of exactly the rows in that state. */
  function ByStatus(t: Table<Transaction>, status: string, limit: nat := 100, offset: nat := 0): (r: seq<Transaction>)
    ensures |r| <= limit
    ensures forall i :: 0 <= i < |r| ==> Wire(r[i].estado) == status
    ensures NewerFirst(r)
    ensures var inState := Select(Scan(t), InState(status));
      |r| == if offset >= |inState| then 0 else if |inState| - offset < limit then |inState| - offset else limit
    ensures exists sorted :: && NewerFirst(sorted)
                             && multiset(sorted) == multiset(Select(Scan(t), InState(status)))
                             && |sorted| == |Select(Scan(t), InState(status))|
                             && forall i :: 0 <= i < |r| ==> r[i] == sorted[offset + i]
  {
    var sel := Select(Scan(t), InState(status));
    var all := SortByDate(sel);
    WindowNewerFirst(all, offset, limit);
    InStateSorted(all, status, sel);
    var page := Window(all, offset, limit);
    assert NewerFirst(all) && multiset(all) == multiset(sel) && |all| == |sel|
        && forall i :: 0 <= i < |page| ==> page[i] == all[offset + i];
    page
  }

  lemma InStateSorted(sorted: seq<Transaction>, status: string, selected: seq<Transaction>)
    requires multiset(sorted) == multiset(selected)
    requires forall i :: 0 <= i < |selected| ==> Wire(selected[i].estado) == status
    ensures forall i :: 0 <= i < |sorted| ==> Wire(sorted[i].estado) == status
  {
    forall i | 0 <= i < |sorted|
      ensures Wire(sorted[i].estado) == status
    {
      assert sorted[i] in multiset(sorted);
      assert sorted[i] in selected;
    }
  }

  /** `estado: 'succeeded'` and `fecha_confirmacion BETWEEN start AND end`; a null
      confirmation time is never between two dates. */
  predicate SucceededWithin(start: int, end: int, r: Transaction)
  {
    r.estado == Succeeded && r.fecha_confirmacion.Some? && start <= r.fecha_confirmacion.value <= end
  }

  function Counted(start: int, end: int): Transaction -> bool
  {
    (r: Transaction) => SucceededWithin(start, end, r)
  }

  /** The ids of the stored rows the revenue queries count. */
  ghost function CountedIds(t: Table<Transaction>, start: int, end: int): set<int>
  {
    set k | k in t.rows && SucceededWithin(start, end, t.rows[k])
  }

  /** `countSuccessfulTransactions(start, end)`: the number of stored succeeded rows
      confirmed within the range. */
  function CountSuccessful(t: Table<Transaction>, start: int, end: int): (n: nat)
    requires Wf(t)
    ensures n <= |Scan(t)|
    ensures n == |CountedIds(t, start, end)|
  {
    SelectScanCount(t, Counted(start, end), t.nextId);
    assert MatchingIdsBelow(t, Counted(start, end), t.nextId) == CountedIds(t, start, end);
    |Select(Scan(t), Counted(start, end))|
  }

  function SumMonto(s: seq<Transaction>): int
  {
    if s == [] then 0 else SumMonto(s[..|s| - 1]) + s[|s| - 1].monto
  }

  /** `sumSuccessfulTransactions(start, end)`: the sum of `monto` over the counted
      rows; the null sum of no rows reads as 0. Count and sum select the same rows,
      so with nothing counted the sum is 0. */
  function SumSuccessful(t: Table<Transaction>, start: int, end: int): (total: int)
    requires Wf(t)
    ensures CountSuccessful(t, start, end) == 0 ==> total == 0
  {
    SumMonto(Select(Scan(t), Counted(start, end)))
  }

  /** What one row adds to the revenue sum. */
  function Contribution(start: int, end: int, r: Transaction): int
  {
    if SucceededWithin(start, end, r) then r.monto else 0
  }

  lemma SumMontoSnoc(s: seq<Transaction>, x: Transaction)
    ensures SumMonto(s + [x]) == SumMonto(s) + x.monto
  {
    assert (s + [x])[..|s|] == s;
  }

  /** Extending the scanned ids by one adds that id's row's contribution. */
  lemma SumBelowStep(t: Table<Transaction>, start: int, end: int, hi: int)
    requires hi > 1
    ensures SumMonto(Select(ScanBelow(t, hi), Counted(start, end)))
         == SumMonto(Select(ScanBelow(t, hi - 1), Counted(start, end)))
            + (if hi - 1 in t.rows then Contribution(start, end, t.rows[hi - 1]) else 0)
  {
    var p := Counted(start, end);
    var j := hi - 1;
    SelectScanStep(t, p, hi);
    var a := Select(ScanBelow(t, j), p);
    if j in t.rows && p(t.rows[j]) {
      SumMontoSnoc(a, t.rows[j]);
    } else {
      assert a + [] == a;
    }
  }

  /** The revenue sum over the ids below `hi` after the row under `k` is rewritten
      to `r`: the old row's contribution is replaced by the new one's. */
  lemma {:induction false} SumBelowWrite(t: Table<Transaction>, u: Table<Transaction>, k: int, r: Transaction,
                                         start: int, end: int, hi: int)
    requires u.rows == t.rows[k := r]
    ensures SumMonto(Select(ScanBelow(u, hi), Counted(start, end)))
         == SumMonto(Select(ScanBelow(t, hi), Counted(start, end)))
            + (if 1 <= k < hi then Contribution(start, end, r) - (if k in t.rows then Contribution(start, end, t.rows[k]) else 0) else 0)
    decreases hi
  {
    if hi > 1 {
      var j := hi - 1;
      SumBelowWrite(t, u, k, r, start, end, j);
      SumBelowStep(t, start, end, hi);
      SumBelowStep(u, start, end, hi);
      var before := if j in t.rows then Contribution(start, end, t.rows[j]) else 0;
      var after := if j in u.rows then Contribution(start, end, u.rows[j]) else 0;
      if j == k {
        assert after == Contribution(start, end, r);
      } else {
        assert after == before;
      }
    }
  }

  /** Rewriting a stored row changes the revenue sum by exactly the difference of
      the two rows' contributions. */
  lemma SumSuccessfulWrite(t: Table<Transaction>, k: int, r: Transaction, start: int, end: int)
    requires Wf(t) && k in t.rows
    ensures Wf(t.(rows := t.rows[k := r]))
    ensures SumSuccessful(t.(rows := t.rows[k := r]), start, end)
         == SumSuccessful(t, start, end) - Contribution(start, end, t.rows[k]) + Contribution(start, end, r)
  {
    SumBelowWrite(t, t.(rows := t.rows[k := r]), k, r, start, end, t.nextId);
  }

  /** A new row adds its own contribution to the revenue sum. */
  lemma SumSuccessfulInsert(t: Table<Transaction>, r: Transaction, start: int, end: int)
    requires Wf(t)
    ensures SumSuccessful(Insert(t, r).0, start, end) == SumSuccessful(t, start, end) + Contribution(start, end, r)
  {
    var u := Insert(t, r).0;
    var p := Counted(start, end);
    assert u.rows == t.rows[t.nextId := r] && u.nextId == t.nextId + 1;
    SumBelowWrite(t, u, t.nextId, r, start, end, t.nextId);
    assert SumMonto(Select(ScanBelow(u, t.nextId), p)) == SumSuccessful(t, start, end);
    SumBelowStep(u, start, end, u.nextId);
  }

  /** Amounts of valid rows are never negative, and neither is their sum. */
  lemma {:induction false} SumMontoNonNegative(s: seq<Transaction>)
    requires forall i :: 0 <= i < |s| ==> Valid(s[i])
    ensures SumMonto(s) >= 0
  {
    if s != [] {
      SumMontoNonNegative(s[..|s| - 1]);
    }
  }

  /** Over a table of valid rows the revenue sum is never negative. */
  lemma SumSuccessfulNonNegative(t: Table<Transaction>, start: int, end: int)
    requires Wf(t) && forall k :: k in t.rows ==> Valid(t.rows[k])
    ensures SumSuccessful(t, start, end) >= 0
  {
    var sel := Select(Scan(t), Counted(start, end));
    forall i | 0 <= i < |sel|
      ensures Valid(sel[i])
    {
      ScanBelowRows(t, t.nextId, sel[i]);
    }
    SumMontoNonNegative(sel);
  }

  /** Each counted row is a stored succeeded row confirmed within the range. */
  lemma CountedRowsSucceeded(t: Table<Transaction>, start: int, end: int, x: Transaction)
    requires x in Select(Scan(t), Counted(start, end))
    ensures x.estado == Succeeded && x.fecha_confirmacion.Some?
    ensures start <= x.fecha_confirmacion.value <= end
    ensures exists k :: 1 <= k < t.nextId && k in t.rows && t.rows[k] == x
  {
    ScanBelowRows(t, t.nextId, x);
  }

  /** Each stored succeeded row confirmed within the range is counted. */
  lemma SucceededRowsCounted(t: Table<Transaction>, start: int, end: int, k: int)
    requires Wf(t) && k in t.rows && SucceededWithin(start, end, t.rows[k])
    ensures t.rows[k] in Select(Scan(t), Counted(start, end))
  {
    ScanBelowRows(t, t.nextId, t.rows[k]);
  }
}
