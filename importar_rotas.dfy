/**
 * importar_rotas.py: a one-off importer that loads twenty routes already run
 * into the ledger. It first removes duplicate routes (same date and route
 * name, keeping the oldest row), then inserts the listed routes one by one,
 * counting those whose insert went through. When the ledger is not empty it
 * asks first, and only a yes empties it before the import.
 */
module ImportarRotas {
  import opened Common
  import opened PyText
  import opened Ledger

  // ---------------------------------------------------------------------------
  // Duplicate removal

  /** Two rows are duplicates when they share date and route name. */
  predicate SameKey(a: Row, b: Row)
  {
    a.data == b.data && a.rota == b.rota
  }

  /** `id` is `MIN(id)` of its `GROUP BY data, rota` group. */
  predicate GroupMin(rows: map<int, Row>, id: int)
    requires id in rows
  {
    forall j :: j in rows && SameKey(rows[j], rows[id]) ==> id <= j
  }

  /** The table after `DELETE FROM rotas WHERE id NOT IN (SELECT MIN(id)
      FROM rotas GROUP BY data, rota)`. */
  function Dedup(rows: map<int, Row>): (r: map<int, Row>)
    ensures r.Keys <= rows.Keys
    ensures forall id :: id in r ==> r[id] == rows[id]
  {
    map id | id in rows && GroupMin(rows, id) :: rows[id]
  }

  /** A row is deleted exactly when an older row has the same date and
      route name. */
  lemma DedupMeaning(rows: map<int, Row>, id: int)
    requires id in rows
    ensures id !in Dedup(rows) <==> exists j :: j in rows && j < id && SameKey(rows[j], rows[id])
  {
  }

  /** The ids up to `id`: the measure of the descent in OldestOf. */
  function Below(rows: map<int, Row>, id: int): set<int>
  {
    set k | k in rows && k <= id
  }

  /** The oldest row with the date and route name of row `id`, found by
      stepping to an older duplicate while there is one. */
  lemma OldestOf(rows: map<int, Row>, id: int) returns (m: int)
    requires id in rows
    ensures m in rows && m <= id && SameKey(rows[m], rows[id]) && GroupMin(rows, m)
    decreases |Below(rows, id)|
  {
    if GroupMin(rows, id) {
      m := id;
    } else {
      var j :| j in rows && SameKey(rows[j], rows[id]) && j < id;
      var a, b := Below(rows, j), Below(rows, id);
      assert b == a + (b - a);
      assert id in b - a;
      m := OldestOf(rows, j);
    }
  }

  /** Every group keeps a row: its oldest, unchanged. */
  lemma DedupKeepsOldest(rows: map<int, Row>, id: int)
    requires id in rows
    ensures exists m :: m in Dedup(rows) && m <= id && SameKey(rows[m], rows[id]) && Dedup(rows)[m] == rows[m]
  {
    var m := OldestOf(rows, id);
    assert m in Dedup(rows);
  }

  /** After the removal no two rows share date and route name. */
  lemma DedupUnique(rows: map<int, Row>)
    ensures var r := Dedup(rows);
      forall i, j :: i in r && j in r && SameKey(r[i], r[j]) ==> i == j
  {
    var r := Dedup(rows);
    forall i, j | i in r && j in r && SameKey(r[i], r[j]) ensures i == j {
      assert GroupMin(rows, i) && GroupMin(rows, j);
      assert i <= j && j <= i;
    }
  }

  /** A second removal deletes nothing. */
  lemma DedupIdempotent(rows: map<int, Row>)
    ensures Dedup(Dedup(rows)) == Dedup(rows)
  {
    var r := Dedup(rows);
    forall id | id in r ensures id in Dedup(r) {
      assert GroupMin(rows, id);
      assert GroupMin(r, id);
    }
  }

  /** limpar_rotas_duplicadas: deletes the duplicates and returns how many
      rows it deleted (`cursor.rowcount`); the AUTOINCREMENT mark stays. */
  method LimparRotasDuplicadas(table: RouteTable) returns (removed: nat)
    requires table.Valid()
    modifies table
    ensures table.Valid()
    ensures table.rows == Dedup(old(table.rows)) && table.lastId == old(table.lastId)
    ensures removed == |old(table.rows).Keys - table.rows.Keys|
  {
    var kept := Dedup(table.rows);
    removed := |table.rows.Keys - kept.Keys|;
    table.rows := kept;
  }

  // ---------------------------------------------------------------------------
  // The import

  /** One listed route: date, route name, car, island delivery and a remark
      that is only printed. */
  datatype Listed = Listed(data: string, rota: string, carro: string, ilha: bool, obs: string)

  /** `rotas_dados`: the routes of August and September 2025. */
  const RotasDados: seq<Listed> := [
    Listed("21/08/2025", "G20_AM", "Fiorino", false, "ONDA DAS 7H"),
    Listed("22/08/2025", "P20_PM2", "Fiorino", false, "ONDA DAS 9H"),
    Listed("23/08/2025", "P25_PM", "Fiorino", false, "ONDA DAS 7H"),
    Listed("25/08/2025", "P4_PM2", "Van", true, "ONDA DAS 9H"),
    Listed("26/08/2025", "Q4_PM", "Van", true, "ONDA DAS 7H"),
    Listed("27/08/2025", "P12_PM2", "Van", true, "ONDA DAS 9H"),
    Listed("28/08/2025", "P7_PM", "Van", true, "REUNIÃO AS 7H"),
    Listed("29/08/2025", "P10_PM2", "Van", true, "ONDA DAS 9H"),
    Listed("30/08/2025", "P33_PM", "Van", true, "ONDA DAS 7H"),
    Listed("01/09/2025", "G10_AM2", "Van", false, "ONDA DAS 7H"),
    Listed("01/09/2025", "P27-AM2", "Van", false, "ONDA DAS 7H"),
    Listed("02/09/2025", "I7_AM2", "Van", false, "ONDA DAS 7H"),
    Listed("03/09/2025", "P9_PM2", "Van", true, "ONDA DAS 9H"),
    Listed("04/09/2025", "P26-PM2", "Van", true, "ONDA DAS 9H"),
    Listed("04/09/2025", "P32_PM2", "Van", false, "ONDA DAS 7H"),
    Listed("05/09/2025", "G1_AM", "Van", false, "ONDA DAS 7H"),
    Listed("05/09/2025", "P27_PM2", "Van", false, "ONDA DAS 7H"),
    Listed("06/09/2025", "P18_PM", "Van", false, "ONDA DAS 7H"),
    Listed("08/09/2025", "G4_AM2", "Van", false, "ONDA DAS 7H"),
    Listed("08/09/2025", "P3_PM2", "Van", false, "ONDA DAS 7H")
  ]

  /** How many of the first `n` inserts went through (`fails[i]` says that
      the i-th insert raised). */
  function Imported(fails: seq<bool>, n: nat): (c: nat)
    requires n <= |fails|
    ensures c <= n
  {
    if n == 0 then 0 else Imported(fails, n - 1) + (if fails[n - 1] then 0 else 1)
  }

  /** The table and its AUTOINCREMENT mark after the first `n` inserts. */
  function ImportRows(rows: map<int, Row>, lastId: nat, listed: seq<Listed>, fails: seq<bool>, n: nat): (map<int, Row>, nat)
    requires n <= |listed| == |fails|
  {
    if n == 0 then (rows, lastId)
    else
      var p := ImportRows(rows, lastId, listed, fails, n - 1);
      var x := listed[n - 1];
      if fails[n - 1] then p else (p.0[p.1 + 1 := Stored(x.data, x.rota, x.carro, x.ilha)], p.1 + 1)
  }

  /** The AUTOINCREMENT mark moves by one per insert that went through, and
      every id in the table stays at or below it. */
  lemma {:induction false} ImportRowsIds(rows: map<int, Row>, lastId: nat, listed: seq<Listed>, fails: seq<bool>, n: nat)
    requires n <= |listed| == |fails|
    requires forall id :: id in rows ==> id <= lastId
    ensures var (r, last) := ImportRows(rows, lastId, listed, fails, n);
      && last == lastId + Imported(fails, n)
      && |r| == |rows| + Imported(fails, n)
      && (forall id :: id in r ==> id <= last)
      && (forall id :: id in r && id !in rows ==> lastId < id)
  {
    if n > 0 {
      ImportRowsIds(rows, lastId, listed, fails, n - 1);
      var p := ImportRows(rows, lastId, listed, fails, n - 1);
      assert p.1 + 1 !in p.0;
    }
  }

  /** The rows already there stay as they were. */
  lemma {:induction false} ImportRowsKeeps(rows: map<int, Row>, lastId: nat, listed: seq<Listed>, fails: seq<bool>, n: nat)
    requires n <= |listed| == |fails|
    requires forall id :: id in rows ==> id <= lastId
    ensures var r := ImportRows(rows, lastId, listed, fails, n).0;
      forall id :: id in rows ==> id in r && r[id] == rows[id]
  {
    if n > 0 {
      ImportRowsKeeps(rows, lastId, listed, fails, n - 1);
      ImportRowsIds(rows, lastId, listed, fails, n - 1);
    }
  }

  /** Every id the import handed out holds a row with the fee of the rule. */
  lemma {:induction false} ImportRowsWellFormed(rows: map<int, Row>, lastId: nat, listed: seq<Listed>, fails: seq<bool>, n: nat)
    requires n <= |listed| == |fails|
    ensures var (r, last) := ImportRows(rows, lastId, listed, fails, n);
      lastId <= last && forall id :: lastId < id <= last ==> id in r && WellFormed(r[id])
  {
    if n > 0 {
      ImportRowsWellFormed(rows, lastId, listed, fails, n - 1);
      var p := ImportRows(rows, lastId, listed, fails, n - 1);
      var x := listed[n - 1];
      if !fails[n - 1] {
        assert WellFormed(Stored(x.data, x.rota, x.carro, x.ilha));
      }
    }
  }

  /** The loop of importar_rotas_existentes over a list of routes: one
      insert per route; an insert that raises is skipped and not counted.
      The ids and fees shown are those stored. */
  method ImportList(table: RouteTable, listed: seq<Listed>, fails: seq<bool>) returns (imported: nat, shown: seq<(int, int)>)
    requires table.Valid()
    requires |fails| == |listed|
    modifies table
    ensures table.Valid()
    ensures (table.rows, table.lastId) == ImportRows(old(table.rows), old(table.lastId), listed, fails, |fails|)
    ensures imported == Imported(fails, |fails|)
    ensures |shown| == imported
    ensures forall k :: 0 <= k < |shown| ==> shown[k].0 in table.rows && shown[k].1 == table.rows[shown[k].0].valor
  {
    ghost var rows0, last0 := table.rows, table.lastId;
    imported := 0;
    shown := [];
    for i := 0 to |listed|
      invariant table.Valid()
      invariant (table.rows, table.lastId) == ImportRows(rows0, last0, listed, fails, i)
      invariant imported == Imported(fails, i) && |shown| == imported
      invariant forall k :: 0 <= k < |shown| ==> shown[k].0 in table.rows && shown[k].1 == table.rows[shown[k].0].valor
    {
      var x := listed[i];
      if !fails[i] {
        var rotaId := table.InsertRota(x.data, x.rota, x.carro, x.ilha);
        var valorBase := if Lower(x.carro) == "van" then 130 else 110;
        var valorFinal := valorBase + (if x.ilha then 10 else 0);
        shown := shown + [(rotaId, valorFinal)];
        imported := imported + 1;
      }
    }
  }

  /** importar_rotas_existentes: duplicate removal, then the listed routes. */
  method ImportarRotasExistentes(table: RouteTable, fails: seq<bool>) returns (imported: nat, shown: seq<(int, int)>)
    requires table.Valid()
    requires |fails| == |RotasDados|
    modifies table
    ensures table.Valid()
    ensures (table.rows, table.lastId) == ImportRows(Dedup(old(table.rows)), old(table.lastId), RotasDados, fails, |fails|)
    ensures imported == Imported(fails, |fails|) && imported <= |RotasDados|
    ensures |shown| == imported
    ensures forall k :: 0 <= k < |shown| ==> shown[k].0 in table.rows && shown[k].1 == table.rows[shown[k].0].valor
  {
    var _ := LimparRotasDuplicadas(table);
    imported, shown := ImportList(table, RotasDados, fails);
  }

  /** verificar_rotas_existentes: `SELECT COUNT(*) FROM rotas`. */
  method VerificarRotasExistentes(table: RouteTable) returns (count: nat)
    ensures count == |table.rows|
  {
    count := |table.rows|;
  }

  /** limpar_todas_rotas: `DELETE FROM rotas`; returns how many rows there
      were. The AUTOINCREMENT mark stays, so later ids do not repeat. */
  method LimparTodasRotas(table: RouteTable) returns (removed: nat)
    requires table.Valid()
    modifies table
    ensures table.Valid()
    ensures table.rows == map[] && table.lastId == old(table.lastId)
    ensures removed == |old(table.rows)|
  {
    removed := |table.rows|;
    table.rows := map[];
  }

  /** The answers main takes as a yes, after `lower()` (no strip). */
  predicate Confirms(answer: string)
  {
    var a := Lower(answer);
    a == "s" || a == "sim" || a == "y" || a == "yes"
  }

  /** main: on an empty ledger it imports straight away; otherwise it asks,
      and only a yes empties the ledger and imports; any other answer leaves
      the ledger as it was. */
  method ImportarMain(table: RouteTable, answer: string, fails: seq<bool>) returns (imported: Option<nat>)
    requires table.Valid()
    requires |fails| == |RotasDados|
    modifies table
    ensures table.Valid()
    ensures |old(table.rows)| > 0 && !Confirms(answer) ==>
      imported.None? && table.rows == old(table.rows) && table.lastId == old(table.lastId)
    ensures |old(table.rows)| == 0 || Confirms(answer) ==>
      imported == Some(Imported(fails, |fails|))
      && (table.rows, table.lastId) == ImportRows(map[], old(table.lastId), RotasDados, fails, |fails|)
  {
    var rotasExistentes := VerificarRotasExistentes(table);
    if rotasExistentes > 0 {
      if !Confirms(answer) {
        return None;
      }
      var _ := LimparTodasRotas(table);
    }
    assert table.rows == map[] by {
      if rotasExistentes == 0 {
        assert table.rows.Keys == {};
      }
    }
    assert Dedup(table.rows) == map[];
    var n, _ := ImportarRotasExistentes(table, fails);
    imported := Some(n);
  }
}
