/**
 * The route ledger of db.py: one SQLite table `rotas` with an AUTOINCREMENT
 * id, the fee rule applied on insert, and the queries the bot's commands use.
 *
 * The table is a class whose `rows` map each id to its stored columns and whose
 * `lastId` is the AUTOINCREMENT high-water mark (SQLite's `sqlite_sequence`),
 * so a deleted id is never handed out again. What SQLite does for a SELECT (a
 * scan in rowid order, the WHERE filter, the ORDER BY) is modelled by the pure
 * functions `Scan` and `OrderByKey`; what Python then does with the fetched
 * tuples (the append loops that build one dictionary per row) is the body of
 * each query method.
 */
module Ledger {
  import opened PyText

  /** The columns of one stored row; `ilha` is the INTEGER column (1 or 0). */
  datatype Row = Row(data: string, rota: string, carro: string, ilha: int, valor: int)

  /** The integers sqlite3 can bind as a parameter: signed 64-bit values.
      Binding any other Python int raises OverflowError. */
  const MinInt64 := -0x8000_0000_0000_0000
  const MaxInt64 := 0x7FFF_FFFF_FFFF_FFFF

  predicate Int64(n: int)
  {
    MinInt64 <= n <= MaxInt64
  }

  /** What delete_rota does: it answers whether a row went away, or it
      raises OverflowError while binding an id out of range. */
  datatype Deletion = Done(removed: bool) | OverflowError

  /** The dictionary a query builds from a fetched row. */
  datatype Route = Route(id: int, data: string, rota: string, carro: string, ilha: bool, valor: int)

  /** One tuple of `cursor.fetchall()`: the id and the other columns. */
  type Fetched = (int, Row)

  // ---------------------------------------------------------------------------
  // The fee rule

  /** `valor_final` of insert_rota: 130 for a van, 110 for anything else,
      10 more when the route had an island delivery. */
  function Fee(carro: string, ilha: bool): (v: int)
    ensures v == 110 || v == 120 || v == 130 || v == 140
    ensures v >= 130 <==> Lower(carro) == "van"
    ensures (v == 120 || v == 140) <==> ilha
  {
    (if Lower(carro) == "van" then 130 else 110) + (if ilha then 10 else 0)
  }

  /** The row insert_rota writes: `ilha` as 1/0 and the fee of the rule. */
  function Stored(data: string, rota: string, carro: string, ilha: bool): Row
  {
    Row(data, rota, carro, if ilha then 1 else 0, Fee(carro, ilha))
  }

  /** The dictionary built from a fetched row: `'ilha': bool(row[4])`. */
  function Read(f: Fetched): Route
  {
    Route(f.0, f.1.data, f.1.rota, f.1.carro, f.1.ilha != 0, f.1.valor)
  }

  /** Reading back a stored row gives the values that were inserted. */
  lemma ReadStored(id: int, data: string, rota: string, carro: string, ilha: bool)
    ensures Read((id, Stored(data, rota, carro, ilha)))
         == Route(id, data, rota, carro, ilha, Fee(carro, ilha))
  {
  }

  /** Every row the application writes has `ilha` in {0, 1} and the fee of
      its car and island flag. */
  predicate WellFormed(r: Row)
  {
    (r.ilha == 0 || r.ilha == 1) && r.valor == Fee(r.carro, r.ilha == 1)
  }

  // ---------------------------------------------------------------------------
  // Ordering: ORDER BY data, id (strings compared code point by code point)

  predicate KeyLt(d1: string, i1: int, d2: string, i2: int)
  {
    StrLt(d1, d2) || (d1 == d2 && i1 < i2)
  }

  predicate FetchedBefore(a: Fetched, b: Fetched)
  {
    KeyLt(a.1.data, a.0, b.1.data, b.0)
  }

  predicate Before(a: Route, b: Route)
  {
    KeyLt(a.data, a.id, b.data, b.id)
  }

  lemma KeyLtTotal(d1: string, i1: int, d2: string, i2: int)
    requires i1 != i2
    ensures KeyLt(d1, i1, d2, i2) || KeyLt(d2, i2, d1, i1)
  {
    if d1 != d2 {
      StrLtTotal(d1, d2);
    }
  }

  lemma KeyLtTransitive(d1: string, i1: int, d2: string, i2: int, d3: string, i3: int)
    requires KeyLt(d1, i1, d2, i2) && KeyLt(d2, i2, d3, i3)
    ensures KeyLt(d1, i1, d3, i3)
  {
    if StrLt(d1, d2) && StrLt(d2, d3) {
      StrLtTransitive(d1, d2, d3);
    }
  }

  /** Strictly ascending by (data, id); in particular no id occurs twice. */
  predicate Ascending(rs: seq<Route>)
  {
    forall i, j :: 0 <= i < j < |rs| ==> Before(rs[i], rs[j])
  }

  /** Strictly descending by (data, id): ORDER BY data DESC, id DESC. */
  predicate Descending(rs: seq<Route>)
  {
    forall i, j :: 0 <= i < j < |rs| ==> Before(rs[j], rs[i])
  }

  predicate SortedFetched(s: seq<Fetched>)
  {
    forall i, j :: 0 <= i < j < |s| ==> FetchedBefore(s[i], s[j])
  }

  predicate DistinctIds(s: seq<Fetched>)
  {
    forall i, j :: 0 <= i < j < |s| ==> s[i].0 != s[j].0
  }

  function IdsOf(s: seq<Fetched>): set<int>
  {
    set k | 0 <= k < |s| :: s[k].0
  }

  function RouteIds(rs: seq<Route>): set<int>
  {
    set k | 0 <= k < |rs| :: rs[k].id
  }

  // ---------------------------------------------------------------------------
  // What SQLite does for a SELECT

  /** The WHERE clause of a query: none, or `data >= lo AND data <= hi`. */
  datatype Where = Everything | Between(lo: string, hi: string)

  predicate Matches(w: Where, data: string)
  {
    match w
    case Everything => true
    case Between(lo, hi) => StrLe(lo, data) && StrLe(data, hi)
  }

  /** The ids of the stored rows that satisfy the WHERE clause. */
  function Matching(rows: map<int, Row>, w: Where): set<int>
  {
    set id | id in rows && Matches(w, rows[id].data)
  }

  /** A scan of the table in rowid order over the ids in [1, n), keeping the
      rows that satisfy `w`. */
  function Scan(rows: map<int, Row>, n: int, w: Where): (r: seq<Fetched>)
    ensures forall k :: 0 <= k < |r| ==>
      1 <= r[k].0 < n && r[k].0 in rows && r[k].1 == rows[r[k].0] && Matches(w, r[k].1.data)
    ensures forall i, j :: 0 <= i < j < |r| ==> r[i].0 < r[j].0
    decreases n
  {
    if n <= 1 then []
    else
      var prefix := Scan(rows, n - 1, w);
      if n - 1 in rows && Matches(w, rows[n - 1].data) then prefix + [(n - 1, rows[n - 1])] else prefix
  }

  lemma IdsOfSnoc(s: seq<Fetched>, x: Fetched)
    ensures IdsOf(s + [x]) == IdsOf(s) + {x.0}
  {
    var r := s + [x];
    forall id | id in IdsOf(r) ensures id in IdsOf(s) + {x.0} {
      var k :| 0 <= k < |r| && r[k].0 == id;
      if k < |s| {
        assert s[k].0 == id;
      }
    }
    assert r[|s|].0 == x.0;
    forall id | id in IdsOf(s) ensures id in IdsOf(r) {
      var k :| 0 <= k < |s| && s[k].0 == id;
      assert r[k].0 == id;
    }
  }

  /** The scan over [1, n) fetches exactly the matching rows with ids below n. */
  lemma {:induction false} ScanIds(rows: map<int, Row>, n: int, w: Where)
    ensures IdsOf(Scan(rows, n, w)) == set id | id in rows && 1 <= id < n && Matches(w, rows[id].data)
    decreases n
  {
    if n > 1 {
      var prefix := Scan(rows, n - 1, w);
      ScanIds(rows, n - 1, w);
      if n - 1 in rows && Matches(w, rows[n - 1].data) {
        IdsOfSnoc(prefix, (n - 1, rows[n - 1]));
      }
    }
  }

  /** Insertion of one fetched row into a list sorted by (data, id). */
  function InsertFetched(x: Fetched, s: seq<Fetched>): (r: seq<Fetched>)
    ensures multiset(r) == multiset(s) + multiset{x}
  {
    if s == [] then [x]
    else if FetchedBefore(x, s[0]) then [x] + s
    else
      assert s == [s[0]] + s[1..];
      [s[0]] + InsertFetched(x, s[1..])
  }

  lemma {:induction false} InsertFetchedSorted(x: Fetched, s: seq<Fetched>)
    requires SortedFetched(s)
    requires forall k :: 0 <= k < |s| ==> s[k].0 != x.0
    ensures SortedFetched(InsertFetched(x, s))
  {
    if s == [] {
    } else if FetchedBefore(x, s[0]) {
      forall k | 0 < k < |s| ensures FetchedBefore(x, s[k]) {
        KeyLtTransitive(x.1.data, x.0, s[0].1.data, s[0].0, s[k].1.data, s[k].0);
      }
    } else {
      var tail := InsertFetched(x, s[1..]);
      InsertFetchedSorted(x, s[1..]);
      KeyLtTotal(x.1.data, x.0, s[0].1.data, s[0].0);
      assert s == [s[0]] + s[1..];
      forall k | 0 <= k < |tail| ensures FetchedBefore(s[0], tail[k]) {
        assert tail[k] in multiset(tail);
        if tail[k] != x {
          assert tail[k] in multiset(s[1..]);
          var j :| 0 <= j < |s[1..]| && s[1..][j] == tail[k];
          assert s[j + 1] == tail[k];
        }
      }
    }
  }

  /** ORDER BY data, id: insertion sort of the fetched rows. */
  function OrderByKey(s: seq<Fetched>): (r: seq<Fetched>)
    ensures multiset(r) == multiset(s)
  {
    if s == [] then []
    else
      assert s == [s[0]] + s[1..];
      InsertFetched(s[0], OrderByKey(s[1..]))
  }

  /** Rows with distinct ids come out strictly ascending by (data, id). */
  lemma {:induction false} OrderByKeySorted(s: seq<Fetched>)
    requires DistinctIds(s)
    ensures SortedFetched(OrderByKey(s))
  {
    if s != [] {
      var rest := OrderByKey(s[1..]);
      OrderByKeySorted(s[1..]);
      assert s == [s[0]] + s[1..];
      forall k | 0 <= k < |rest| ensures rest[k].0 != s[0].0 {
        assert rest[k] in multiset(s[1..]);
        var j :| 0 <= j < |s[1..]| && s[1..][j] == rest[k];
        assert s[j + 1] == rest[k];
      }
      InsertFetchedSorted(s[0], rest);
    }
  }

  lemma IdsOfPermutation(a: seq<Fetched>, b: seq<Fetched>)
    requires multiset(a) == multiset(b)
    ensures IdsOf(a) == IdsOf(b)
  {
    forall id | id in IdsOf(a) ensures id in IdsOf(b) {
      var k :| 0 <= k < |a| && a[k].0 == id;
      assert a[k] in multiset(b);
      var j :| 0 <= j < |b| && b[j] == a[k];
    }
    forall id | id in IdsOf(b) ensures id in IdsOf(a) {
      var k :| 0 <= k < |b| && b[k].0 == id;
      assert b[k] in multiset(a);
      var j :| 0 <= j < |a| && a[j] == b[k];
    }
  }

  /** `SELECT id, data, rota, carro, ilha, valor FROM rotas [WHERE ...]
      ORDER BY data, id` over a table whose ids all lie in [1, lastId]: the
      matching rows, each exactly once, strictly ascending by (data, id). */
  function Select(rows: map<int, Row>, lastId: int, w: Where): (r: seq<Fetched>)
    requires forall id :: id in rows ==> 1 <= id <= lastId
    ensures SortedFetched(r)
    ensures IdsOf(r) == Matching(rows, w)
    ensures forall k :: 0 <= k < |r| ==> r[k].0 in rows && r[k].1 == rows[r[k].0]
  {
    var scanned := Scan(rows, lastId + 1, w);
    ScanMatching(rows, lastId, w);
    var sorted := OrderByKey(scanned);
    OrderByKeySorted(scanned);
    IdsOfPermutation(scanned, sorted);
    PermutationFromTable(rows, scanned, sorted);
    sorted
  }

  /** A scan over [1, lastId] sees the whole table. */
  lemma ScanMatching(rows: map<int, Row>, lastId: int, w: Where)
    requires forall id :: id in rows ==> 1 <= id <= lastId
    ensures IdsOf(Scan(rows, lastId + 1, w)) == Matching(rows, w)
  {
    ScanIds(rows, lastId + 1, w);
  }

  /** Reordering rows read from the table still gives rows of the table. */
  lemma PermutationFromTable(rows: map<int, Row>, a: seq<Fetched>, b: seq<Fetched>)
    requires forall k :: 0 <= k < |a| ==> a[k].0 in rows && a[k].1 == rows[a[k].0]
    requires multiset(a) == multiset(b)
    ensures forall k :: 0 <= k < |b| ==> b[k].0 in rows && b[k].1 == rows[b[k].0]
  {
    forall k | 0 <= k < |b| ensures b[k].0 in rows && b[k].1 == rows[b[k].0] {
      assert b[k] in multiset(a);
      var j :| 0 <= j < |a| && a[j] == b[k];
    }
  }

  /** The list of dictionaries the append loops build from fetched rows. */
  function ReadAll(s: seq<Fetched>): (r: seq<Route>)
    ensures |r| == |s|
    ensures forall k :: 0 <= k < |s| ==> r[k] == Read(s[k])
  {
    seq(|s|, k requires 0 <= k < |s| => Read(s[k]))
  }

  function Reverse<T>(s: seq<T>): (r: seq<T>)
    ensures |r| == |s|
    ensures forall k :: 0 <= k < |s| ==> r[k] == s[|s| - 1 - k]
  {
    seq(|s|, k requires 0 <= k < |s| => s[|s| - 1 - k])
  }

  /** The fetched rows read back keep their ids and their order. */
  lemma ReadAllFacts(s: seq<Fetched>)
    ensures RouteIds(ReadAll(s)) == IdsOf(s)
    ensures SortedFetched(s) ==> Ascending(ReadAll(s))
  {
    var r := ReadAll(s);
    forall id | id in IdsOf(s) ensures id in RouteIds(r) {
      var k :| 0 <= k < |s| && s[k].0 == id;
      assert r[k].id == id;
    }
  }

  /** Reversing an ascending listing gives a descending one with the same ids. */
  lemma ReverseFacts(rs: seq<Route>)
    ensures RouteIds(Reverse(rs)) == RouteIds(rs)
    ensures Ascending(rs) ==> Descending(Reverse(rs))
  {
    var r := Reverse(rs);
    forall id | id in RouteIds(rs) ensures id in RouteIds(r) {
      var k :| 0 <= k < |rs| && rs[k].id == id;
      assert r[|rs| - 1 - k].id == id;
    }
    if Ascending(rs) {
      forall i, j | 0 <= i < j < |r| ensures Before(r[j], r[i]) {
        assert r[j] == rs[|rs| - 1 - j] && r[i] == rs[|rs| - 1 - i];
      }
    }
  }

  lemma ReadAllReverse(s: seq<Fetched>)
    ensures ReadAll(Reverse(s)) == Reverse(ReadAll(s))
  {
  }

  lemma MatchingEverything(rows: map<int, Row>)
    ensures Matching(rows, Everything) == rows.Keys
  {
    forall id | id in rows ensures id in Matching(rows, Everything) {
      assert Matches(Everything, rows[id].data);
    }
  }

  /** Rows read back from the table agree with the table. */
  lemma ReadAllFromTable(rows: map<int, Row>, s: seq<Fetched>)
    requires forall k :: 0 <= k < |s| ==> s[k].0 in rows && s[k].1 == rows[s[k].0]
    ensures var r := ReadAll(s);
      forall k :: 0 <= k < |r| ==> r[k].id in rows && r[k] == Read((r[k].id, rows[r[k].id]))
  {
  }

  /** Reversal keeps every element of a listing. */
  lemma ReverseFromTable(rows: map<int, Row>, rs: seq<Route>)
    requires forall k :: 0 <= k < |rs| ==> rs[k].id in rows && rs[k] == Read((rs[k].id, rows[rs[k].id]))
    ensures var r := Reverse(rs);
      forall k :: 0 <= k < |r| ==> r[k].id in rows && r[k] == Read((r[k].id, rows[r[k].id]))
  {
    var r := Reverse(rs);
    forall k | 0 <= k < |r| ensures r[k].id in rows && r[k] == Read((r[k].id, rows[r[k].id])) {
      assert r[k] == rs[|rs| - 1 - k];
    }
  }

  /** The full listing newest first: every row exactly once, descending. */
  lemma ListingFacts(rows: map<int, Row>, lastId: int)
    requires forall id :: id in rows ==> 1 <= id <= lastId
    ensures var r := Reverse(ReadAll(Select(rows, lastId, Everything)));
      && Descending(r)
      && RouteIds(r) == rows.Keys
      && forall k :: 0 <= k < |r| ==> r[k].id in rows && r[k] == Read((r[k].id, rows[r[k].id]))
  {
    var asc := Select(rows, lastId, Everything);
    ReadAllFacts(asc);
    ReverseFacts(ReadAll(asc));
    MatchingEverything(rows);
    ReadAllFromTable(rows, asc);
    ReverseFromTable(rows, ReadAll(asc));
  }

  /** The loop `for row in cursor.fetchall(): rotas.append({...})`. */
  method Collect(fetched: seq<Fetched>) returns (rotas: seq<Route>)
    ensures rotas == ReadAll(fetched)
  {
    rotas := [];
    for i := 0 to |fetched|
      invariant |rotas| == i
      invariant forall k :: 0 <= k < i ==> rotas[k] == Read(fetched[k])
    {
      rotas := rotas + [Read(fetched[i])];
    }
  }

  // ---------------------------------------------------------------------------
  // Totals

  function SumFetched(s: seq<Fetched>): int
  {
    if s == [] then 0 else s[0].1.valor + SumFetched(s[1..])
  }

  /** `sum(rota['valor'] for rota in rotas)`. */
  function SumValor(rs: seq<Route>): int
  {
    if rs == [] then 0 else rs[0].valor + SumValor(rs[1..])
  }

  lemma {:induction false} SumValorReadAll(s: seq<Fetched>)
    ensures SumValor(ReadAll(s)) == SumFetched(s)
  {
    if s != [] {
      assert ReadAll(s)[1..] == ReadAll(s[1..]);
      SumValorReadAll(s[1..]);
    }
  }

  lemma {:induction false} SumInsertFetched(x: Fetched, s: seq<Fetched>)
    ensures SumFetched(InsertFetched(x, s)) == x.1.valor + SumFetched(s)
  {
    if s != [] && !FetchedBefore(x, s[0]) {
      SumInsertFetched(x, s[1..]);
    }
  }

  /** Sorting does not change the total. */
  lemma {:induction false} SumOrderByKey(s: seq<Fetched>)
    ensures SumFetched(OrderByKey(s)) == SumFetched(s)
  {
    if s != [] {
      SumOrderByKey(s[1..]);
      SumInsertFetched(s[0], OrderByKey(s[1..]));
    }
  }

  /** The total over a period as a sum over the matching rows in id order,
      independent of the ORDER BY of the listing. */
  function PeriodTotal(rows: map<int, Row>, lastId: int, lo: string, hi: string): int
  {
    SumFetched(Scan(rows, lastId + 1, Between(lo, hi)))
  }

  /** A scan that meets no matching row fetches nothing. */
  lemma ScanEmpty(rows: map<int, Row>, n: int, w: Where)
    ensures Matching(rows, w) == {} ==> Scan(rows, n, w) == []
  {
    var r := Scan(rows, n, w);
    if r != [] {
      assert r[0].0 in Matching(rows, w);
    }
  }

  // ---------------------------------------------------------------------------
  // The table

  class RouteTable {
    /** The stored rows by id. */
    var rows: map<int, Row>
    /** The largest id AUTOINCREMENT has handed out (0 for a new table). */
    var lastId: nat

    ghost predicate Valid()
      reads this
    {
      forall id :: id in rows ==> 1 <= id <= lastId && WellFormed(rows[id])
    }

    /** init_database on a new database file: an empty table. */
    constructor ()
      ensures Valid() && rows == map[] && lastId == 0
    {
      rows := map[];
      lastId := 0;
    }

    /** insert_rota: stores one row under a never used id and returns it. */
    method InsertRota(data: string, rota: string, carro: string, ilha: bool) returns (id: int)
      requires Valid()
      modifies this
      ensures Valid()
      ensures id == old(lastId) + 1 && lastId == id
      ensures id !in old(rows)
      ensures rows == old(rows)[id := Stored(data, rota, carro, ilha)]
    {
      id := lastId + 1;
      rows := rows[id := Stored(data, rota, carro, ilha)];
      lastId := id;
    }

    /** delete_rota: removes the row with this id and answers True iff
        there was one; an id that does not fit in 64 bits cannot be bound,
        so the call raises and nothing changes. */
    method DeleteRota(id: int) returns (outcome: Deletion)
      requires Valid()
      modifies this
      ensures Valid()
      ensures outcome == OverflowError <==> !Int64(id)
      ensures Int64(id) ==> (outcome == Done(true) <==> id in old(rows))
      ensures rows == (if Int64(id) then old(rows) - {id} else old(rows))
      ensures lastId == old(lastId)
    {
      if !Int64(id) {
        return OverflowError;
      }
      outcome := Done(id in rows);
      rows := rows - {id};
    }

    /** get_rotas_por_periodo: the rows with lo <= data <= hi under plain string
        comparison, each exactly once, ascending by (data, id). */
    method RotasPorPeriodo(lo: string, hi: string) returns (rotas: seq<Route>)
      requires Valid()
      ensures rotas == ReadAll(Select(rows, lastId, Between(lo, hi)))
      ensures Ascending(rotas)
      ensures RouteIds(rotas) == Matching(rows, Between(lo, hi))
      ensures forall k :: 0 <= k < |rotas| ==>
        rotas[k].id in rows && rotas[k] == Read((rotas[k].id, rows[rotas[k].id]))
    {
      var fetched := Select(rows, lastId, Between(lo, hi));
      rotas := Collect(fetched);
      ReadAllFacts(fetched);
    }

    /** get_rotas_hoje: the period query with both bounds set to today, i.e.
        exactly the rows whose date string is `today`, in id order. */
    method RotasHoje(today: string) returns (rotas: seq<Route>)
      requires Valid()
      ensures rotas == ReadAll(Select(rows, lastId, Between(today, today)))
      ensures forall k :: 0 <= k < |rotas| ==> rotas[k].data == today
      ensures RouteIds(rotas) == set id | id in rows && rows[id].data == today
      ensures forall i, j :: 0 <= i < j < |rotas| ==> rotas[i].id < rotas[j].id
    {
      rotas := RotasPorPeriodo(today, today);
      forall k | 0 <= k < |rotas| ensures rotas[k].data == today {
        assert rotas[k].id in Matching(rows, Between(today, today));
        StrLeAntisymmetric(today, rotas[k].data);
      }
      forall id | id in rows && rows[id].data == today
        ensures id in Matching(rows, Between(today, today))
      {
      }
      forall id | id in Matching(rows, Between(today, today))
        ensures rows[id].data == today
      {
        StrLeAntisymmetric(today, rows[id].data);
      }
      forall i, j | 0 <= i < j < |rotas| ensures rotas[i].id < rotas[j].id {
        assert Before(rotas[i], rotas[j]);
        StrLtIrreflexive(today);
      }
    }

    /** get_todas_rotas: every row exactly once, ORDER BY data DESC, id DESC. */
    method TodasRotas() returns (rotas: seq<Route>)
      requires Valid()
      ensures rotas == Reverse(ReadAll(Select(rows, lastId, Everything)))
      ensures Descending(rotas)
      ensures RouteIds(rotas) == rows.Keys
      ensures forall k :: 0 <= k < |rotas| ==>
        rotas[k].id in rows && rotas[k] == Read((rotas[k].id, rows[rotas[k].id]))
    {
      var fetched := Reverse(Select(rows, lastId, Everything));
      rotas := Collect(fetched);
      ReadAllReverse(Select(rows, lastId, Everything));
      ListingFacts(rows, lastId);
    }

    /** get_total_periodo: the sum of `valor` over the period query; it is the
        sum over the matching rows whatever their order, and 0 when no row of
        the table lies in the period. */
    method TotalPeriodo(lo: string, hi: string) returns (total: int)
      requires Valid()
      ensures total == PeriodTotal(rows, lastId, lo, hi)
      ensures Matching(rows, Between(lo, hi)) == {} ==> total == 0
    {
      var rotas := RotasPorPeriodo(lo, hi);
      total := SumValor(rotas);
      var scanned := Scan(rows, lastId + 1, Between(lo, hi));
      SumValorReadAll(OrderByKey(scanned));
      SumOrderByKey(scanned);
      if Matching(rows, Between(lo, hi)) == {} {
        ScanEmpty(rows, lastId + 1, Between(lo, hi));
      }
    }

    /** get_total_hoje: the total of the period [today, today]. */
    method TotalHoje(today: string) returns (total: int)
      requires Valid()
      ensures total == PeriodTotal(rows, lastId, today, today)
      ensures (forall id :: id in rows ==> rows[id].data != today) ==> total == 0
    {
      total := TotalPeriodo(today, today);
      if forall id :: id in rows ==> rows[id].data != today {
        forall id | id in rows ensures !Matches(Between(today, today), rows[id].data) {
          if Matches(Between(today, today), rows[id].data) {
            StrLeAntisymmetric(today, rows[id].data);
          }
        }
      }
    }
  }
}
