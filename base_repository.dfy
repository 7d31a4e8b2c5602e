/** The generic repository every model's data access goes through, over an
    in-memory table. A table maps auto-increment ids (from 1) to rows; a scan
    without an explicit order visits rows in id order, which is what `findOne`
    returns first. */
module Repository {
  import opened Wrappers

  datatype Table<R> = Table(rows: map<int, R>, nextId: int)

  function EmptyTable<R>(): Table<R>
  {
    Table(map[], 1)
  }

  /** Every id in use lies below the next id to hand out. */
  ghost predicate Wf<R>(t: Table<R>)
  {
    t.nextId >= 1 && forall k :: k in t.rows ==> 1 <= k < t.nextId
  }

  /** `findByPk(id)`: the row stored under `id`, or null. */
  function Lookup<R>(t: Table<R>, id: int): (r: Option<R>)
    ensures r.Some? <==> id in t.rows
    ensures r.Some? ==> r.value == t.rows[id]
  {
    if id in t.rows then Some(t.rows[id]) else None
  }

  /** The smallest id in `[lo, hi)` whose row satisfies `p`. */
  function FirstKeyIn<R>(t: Table<R>, p: R -> bool, lo: int, hi: int): (k: Option<int>)
    ensures k.Some? ==> lo <= k.value < hi && k.value in t.rows && p(t.rows[k.value])
    ensures k.Some? ==> forall j :: lo <= j < k.value && j in t.rows ==> !p(t.rows[j])
    ensures k.None? ==> forall j :: lo <= j < hi && j in t.rows ==> !p(t.rows[j])
    decreases hi - lo
  {
    if lo >= hi then None
    else if lo in t.rows && p(t.rows[lo]) then Some(lo)
    else FirstKeyIn(t, p, lo + 1, hi)
  }

  /** The id of the first row, in id order, that satisfies `p`. */
  function FirstKey<R>(t: Table<R>, p: R -> bool): (k: Option<int>)
    requires Wf(t)
    ensures k.Some? ==> k.value in t.rows && p(t.rows[k.value])
    ensures k.Some? ==> forall j :: j in t.rows && j < k.value ==> !p(t.rows[j])
    ensures k.None? <==> forall j :: j in t.rows ==> !p(t.rows[j])
  {
    FirstKeyIn(t, p, 1, t.nextId)
  }

  /** `findOne({ where })`: the first row satisfying the filter, or null. */
  function Find<R>(t: Table<R>, p: R -> bool): (r: Option<R>)
    requires Wf(t)
    ensures r.Some? ==> p(r.value) && exists k :: k in t.rows && t.rows[k] == r.value
    ensures r.None? <==> forall j :: j in t.rows ==> !p(t.rows[j])
  {
    var k := FirstKey(t, p);
    if k.Some? then Some(t.rows[k.value]) else None
  }

  /** A row that keeps satisfying the filter after it is rewritten stays the first match. */
  lemma {:induction false} FirstKeyInStable<R>(t: Table<R>, p: R -> bool, lo: int, hi: int, k: int, r: R)
    requires FirstKeyIn(t, p, lo, hi) == Some(k) && p(r)
    ensures FirstKeyIn(t.(rows := t.rows[k := r]), p, lo, hi) == Some(k)
    decreases hi - lo
  {
    if lo != k {
      FirstKeyInStable(t, p, lo + 1, hi, k, r);
    }
  }

  /** Rewriting a row that does not satisfy the filter, into one that does not either, changes no match. */
  lemma {:induction false} FirstKeyInOther<R>(t: Table<R>, p: R -> bool, lo: int, hi: int, k: int, r: R)
    requires k in t.rows && !p(t.rows[k]) && !p(r)
    ensures FirstKeyIn(t.(rows := t.rows[k := r]), p, lo, hi) == FirstKeyIn(t, p, lo, hi)
    decreases hi - lo
  {
    if lo < hi {
      FirstKeyInOther(t, p, lo + 1, hi, k, r);
    }
  }

  /** `create(data)`: the row goes under the next id. */
  function Insert<R>(t: Table<R>, r: R): (res: (Table<R>, int))
    requires Wf(t)
    ensures Wf(res.0) && res.1 !in t.rows && res.0.rows == t.rows[res.1 := r]
  {
    (Table(t.rows[t.nextId := r], t.nextId + 1), t.nextId)
  }

  /** `bulkCreate(rows)`: the rows go under consecutive fresh ids, in order
      (`InsertAllAt`); the rows already stored stay as they were. */
  function InsertAll<R>(t: Table<R>, rs: seq<R>): (res: Table<R>)
    requires Wf(t)
    ensures Wf(res) && res.nextId == t.nextId + |rs|
    ensures forall k :: k in t.rows ==> k in res.rows && res.rows[k] == t.rows[k]
    ensures forall k :: k in res.rows ==> k in t.rows || t.nextId <= k
  {
    if rs == [] then t
    else Insert(InsertAll(t, rs[..|rs| - 1]), rs[|rs| - 1]).0
  }

  /** The `i`-th bulk-created row is stored under the `i`-th fresh id. */
  lemma {:induction false} InsertAllAt<R>(t: Table<R>, rs: seq<R>, i: int)
    requires Wf(t) && 0 <= i < |rs|
    ensures t.nextId + i in InsertAll(t, rs).rows && InsertAll(t, rs).rows[t.nextId + i] == rs[i]
    decreases |rs|
  {
    var init := rs[..|rs| - 1];
    if i < |rs| - 1 {
      InsertAllAt(t, init, i);
    }
  }

  /** The bulk-created rows occupy exactly the ids from the old next id on, in order. */
  lemma InsertAllRange<R>(t: Table<R>, rs: seq<R>)
    requires Wf(t)
    ensures forall k :: t.nextId <= k < t.nextId + |rs| ==>
      k in InsertAll(t, rs).rows && InsertAll(t, rs).rows[k] == rs[k - t.nextId]
  {
    forall k | t.nextId <= k < t.nextId + |rs|
      ensures k in InsertAll(t, rs).rows && InsertAll(t, rs).rows[k] == rs[k - t.nextId]
    {
      InsertAllAt(t, rs, k - t.nextId);
    }
  }

  /** `Model.update(data, { where: { id } })`: the row under `id`, if any, is rewritten by `f`. */
  function Modify<R>(t: Table<R>, id: int, f: R -> R): (res: Table<R>)
    ensures res.nextId == t.nextId && res.rows.Keys == t.rows.Keys
    ensures id in t.rows ==> res.rows == t.rows[id := f(t.rows[id])]
    ensures id !in t.rows ==> res == t
  {
    if id in t.rows then t.(rows := t.rows[id := f(t.rows[id])]) else t
  }

  /** The rows in id order, as an unordered scan of the table returns them. */
  function Scan<R>(t: Table<R>): seq<R>
  {
    ScanBelow(t, t.nextId)
  }

  function ScanBelow<R>(t: Table<R>, hi: int): seq<R>
    decreases hi
  {
    if hi <= 1 then []
    else ScanBelow(t, hi - 1) + (if hi - 1 in t.rows then [t.rows[hi - 1]] else [])
  }

  /** A scan lists exactly the stored rows. */
  lemma {:induction false} ScanBelowRows<R>(t: Table<R>, hi: int, x: R)
    ensures x in ScanBelow(t, hi) <==> exists k :: 1 <= k < hi && k in t.rows && t.rows[k] == x
    decreases hi
  {
    if hi > 1 {
      ScanBelowRows(t, hi - 1, x);
    }
  }

  /** `findAll({ where })` over a scan: the rows satisfying the filter, in scan order. */
  function Select<R>(s: seq<R>, p: R -> bool): (r: seq<R>)
    ensures |r| <= |s|
    ensures forall i :: 0 <= i < |r| ==> p(r[i])
    ensures forall i :: 0 <= i < |r| ==> r[i] in s
    ensures forall i :: 0 <= i < |s| && p(s[i]) ==> s[i] in r
  {
    if s == [] then []
    else
      assert s == s[..|s| - 1] + [s[|s| - 1]];
      Select(s[..|s| - 1], p) + (if p(s[|s| - 1]) then [s[|s| - 1]] else [])
  }

  /** Filtering one row keeps it exactly when it satisfies the filter. */
  lemma SelectOne<R>(x: R, p: R -> bool)
    ensures Select([x], p) == if p(x) then [x] else []
  {
    assert [x][..0] == [];
  }

  /** Filtering distributes over concatenation, so with `SelectOne` it fixes the
      order and the multiplicity of every selected row. */
  lemma {:induction false} SelectAppend<R>(a: seq<R>, b: seq<R>, p: R -> bool)
    ensures Select(a + b, p) == Select(a, p) + Select(b, p)
    decreases |b|
  {
    if b == [] {
      assert a + b == a;
    } else {
      var c := b[..|b| - 1];
      var x := b[|b| - 1];
      assert a + b == (a + c) + [x];
      assert ((a + c) + [x])[..|a + c|] == a + c;
      assert b[..|b| - 1] == c;
      SelectAppend(a, c, p);
    }
  }

  /** The ids below `hi` of the stored rows satisfying `p`. */
  ghost function MatchingIdsBelow<R>(t: Table<R>, p: R -> bool, hi: int): set<int>
  {
    set k | 1 <= k < hi && k in t.rows && p(t.rows[k])
  }

  /** The matching ids below `hi` are those below `hi - 1`, plus `hi - 1` when it matches. */
  lemma MatchingIdsStep<R>(t: Table<R>, p: R -> bool, hi: int)
    requires hi > 1
    ensures var k := hi - 1;
      |MatchingIdsBelow(t, p, hi)| == |MatchingIdsBelow(t, p, k)| + (if k in t.rows && p(t.rows[k]) then 1 else 0)
  {
    var k := hi - 1;
    var below := MatchingIdsBelow(t, p, k);
    assert k !in below;
    if k in t.rows && p(t.rows[k]) {
      assert MatchingIdsBelow(t, p, hi) == below + {k};
    } else {
      assert MatchingIdsBelow(t, p, hi) == below;
    }
  }

  /** A filtered scan one id further grows by the row under that id, when it matches. */
  lemma SelectScanStep<R>(t: Table<R>, p: R -> bool, hi: int)
    requires hi > 1
    ensures var k := hi - 1;
      Select(ScanBelow(t, hi), p) == Select(ScanBelow(t, k), p) + (if k in t.rows && p(t.rows[k]) then [t.rows[k]] else [])
  {
    var k := hi - 1;
    var tail := if k in t.rows then [t.rows[k]] else [];
    assert ScanBelow(t, hi) == ScanBelow(t, k) + tail;
    SelectAppend(ScanBelow(t, k), tail, p);
    if k in t.rows {
      SelectOne(t.rows[k], p);
    } else {
      assert Select(tail, p) == [];
    }
  }

  /** A filtered scan holds one row per matching id. */
  lemma {:induction false} SelectScanCount<R>(t: Table<R>, p: R -> bool, hi: int)
    ensures |Select(ScanBelow(t, hi), p)| == |MatchingIdsBelow(t, p, hi)|
    decreases hi
  {
    if hi <= 1 {
      assert MatchingIdsBelow(t, p, hi) == {};
    } else {
      SelectScanCount(t, p, hi - 1);
      SelectScanStep(t, p, hi);
      MatchingIdsStep(t, p, hi);
    }
  }

  /** The page `limit`/`offset` cut out of an ordered result: the first `offset`
      rows are skipped and at most `limit` rows follow, in order. */
  function Window<R>(s: seq<R>, offset: nat, limit: nat): (r: seq<R>)
    ensures |r| <= limit
    ensures |r| == if offset >= |s| then 0 else if |s| - offset < limit then |s| - offset else limit
    ensures forall i :: 0 <= i < |r| ==> r[i] == s[offset + i]
  {
    if offset >= |s| then []
    else if |s| - offset < limit then s[offset..]
    else s[offset..offset + limit]
  }

  /** Two adjacent pages together are the page that spans both: paging neither
      skips nor repeats a row. */
  lemma WindowAdjacent<R>(s: seq<R>, offset: nat, first: nat, second: nat)
    ensures Window(s, offset, first) + Window(s, offset + first, second) == Window(s, offset, first + second)
  {
    var a, b, c := Window(s, offset, first), Window(s, offset + first, second), Window(s, offset, first + second);
    assert |a + b| == |c|;
    forall i | 0 <= i < |c|
      ensures (a + b)[i] == c[i]
    {
      if i >= |a| {
        assert (a + b)[i] == b[i - |a|];
      }
    }
  }

  /** A page holds no row more often than the sequence it is cut from. */
  lemma WindowSubMultiset<R>(s: seq<R>, offset: nat, limit: nat)
    ensures multiset(Window(s, offset, limit)) <= multiset(s)
  {
    if offset < |s| {
      var e := if |s| - offset < limit then |s| else offset + limit;
      assert s == s[..offset] + s[offset..e] + s[e..];
      assert Window(s, offset, limit) == s[offset..e];
    }
  }

  /** Outcome of `update(id, data)`: no such row (null), the validators refused
      the new row (a thrown validation error), or the updated row. */
  datatype UpdateOutcome<R> = NotFound | Rejected | Updated(row: R)

  /** The repository of one model. `valid` is the model's row validation, which
      Sequelize runs on every create and update. */
  class BaseRepository<R> {
    var table: Table<R>
    const valid: R -> bool

    ghost predicate Valid()
      reads this
    {
      Wf(table)
    }

    constructor (valid: R -> bool)
      ensures Valid() && table == EmptyTable() && this.valid == valid
    {
      table := EmptyTable();
      this.valid := valid;
    }

    /** `getById(id)`: the record with that key, or null. */
    function GetById(id: int): (r: Option<R>)
      reads this
      ensures r.Some? <==> id in table.rows
      ensures r.Some? ==> r.value == table.rows[id]
    {
      Lookup(table, id)
    }

    /** `getOne({ where })`: a record satisfying the filter, or null when none does. */
    function GetOne(p: R -> bool): (r: Option<R>)
      requires Valid()
      reads this
      ensures r.Some? ==> p(r.value) && exists k :: k in table.rows && table.rows[k] == r.value
      ensures r.None? <==> forall k :: k in table.rows ==> !p(table.rows[k])
    {
      Find(table, p)
    }

    /** `create(data)`: a valid row is added under a fresh id; an invalid one is refused. */
    method Create(r: R) returns (id: Option<int>)
      requires Valid()
      modifies this
      ensures Valid()
      ensures id.Some? <==> valid(r)
      ensures id.Some? ==> && id.value !in old(table.rows) && table.rows == old(table.rows)[id.value := r]
                           && |table.rows| == |old(table.rows)| + 1
      ensures id.None? ==> table == old(table)
    {
      if !valid(r) {
        return None;
      }
      var res := Insert(table, r);
      table := res.0;
      id := Some(res.1);
    }

    /** `update(id, data)`: null for a missing id; otherwise only that record is
        rewritten, provided the rewritten record passes validation. */
    method Update(id: int, f: R -> R) returns (r: UpdateOutcome<R>)
      requires Valid()
      modifies this
      ensures Valid()
      ensures r.NotFound? <==> id !in old(table.rows)
      ensures r.Rejected? <==> id in old(table.rows) && !valid(f(old(table.rows)[id]))
      ensures r.Updated? ==> r.row == f(old(table.rows)[id]) && table.rows == old(table.rows)[id := r.row]
      ensures !r.Updated? ==> table == old(table)
      ensures table.nextId == old(table.nextId)
    {
      if id !in table.rows {
        return NotFound;
      }
      var row := f(table.rows[id]);
      if !valid(row) {
        return Rejected;
      }
      table := Modify(table, id, f);
      r := Updated(row);
    }

    /** `delete(id)`: null for a missing id; otherwise that record alone is removed and the answer is true. */
    method Delete(id: int) returns (r: Option<bool>)
      requires Valid()
      modifies this
      ensures Valid()
      ensures r.None? <==> id !in old(table.rows)
      ensures r.Some? ==> r.value && table.rows == old(table.rows) - {id} && table.nextId == old(table.nextId)
      ensures r.None? ==> table == old(table)
    {
      if id !in table.rows {
        return None;
      }
      table := table.(rows := table.rows - {id});
      r := Some(true);
    }
  }
}
