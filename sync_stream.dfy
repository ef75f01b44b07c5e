/** The sync-stream HTTP function: it receives scanned items and sales-floor rows from
    the app, appends the scanned items to SCANNED_ITEMS and upserts the sales-floor rows
    into SALES_FLOOR by PID, answering with a status code and a JSON body. */
module SyncStream {
  import opened Text

  datatype Result<T> = Ok(value: T) | Err(error: string)

  const MissingSecretMessage := "Env var SNOWFLAKE_PASS_SECRET is missing or empty."

  /** get_secret: the password variable, an error when it is unset or empty. */
  function GetSecret(passSecret: Option<string>): (r: Result<string>)
    ensures r.Ok? <==> passSecret.Some? && passSecret.value != []
    ensures r.Ok? ==> r.value == passSecret.value
    ensures r.Err? ==> r.error == MissingSecretMessage
  {
    match passSecret
    case None => Err(MissingSecretMessage)
    case Some(p) => if p == [] then Err(MissingSecretMessage) else Ok(p)
  }

  /** ms_to_timestamp: no timestamp for a missing value or for 0, otherwise the instant
      the milliseconds denote (kept here as the milliseconds themselves). */
  function MsToTimestamp(ms: Option<int>): (t: Option<int>)
    ensures t.None? <==> ms.None? || ms.value == 0
    ensures t.Some? ==> t.value == ms.value
  {
    match ms
    case None => None
    case Some(v) => if v == 0 then None else Some(v)
  }

  /** Distinct nonzero instants give distinct timestamps. */
  lemma MsToTimestampInjective(a: Option<int>, b: Option<int>)
    requires MsToTimestamp(a).Some? && MsToTimestamp(a) == MsToTimestamp(b)
    ensures a == b
  {
  }

  /** One scanned_items entry of the payload; None marks a key the object lacks. */
  datatype ScannedRow = ScannedRow(
    pid: Option<int>,
    sn: Option<int>,
    name: Option<string>,
    bestBefore: Option<int>,
    packedOn: Option<int>,
    netKg: Option<real>,
    count: Option<int>)

  /** One row of SCANNED_ITEMS as inserted. */
  datatype ScannedTuple = ScannedTuple(
    pid: int,
    sn: int,
    name: string,
    bestBefore: Option<int>,
    packedOn: Option<int>,
    netKg: Option<real>,
    count: Option<int>)

  /** The message of a KeyError, as str() renders it. */
  function KeyErrorMessage(key: string): string {
    "'" + key + "'"
  }

  /** The tuple for one scanned entry: pid, sn and name are required, in that order;
      the other keys are optional and the two dates go through ms_to_timestamp. */
  function ScannedTupleOf(row: ScannedRow): (r: Result<ScannedTuple>)
    ensures r.Ok? <==> row.pid.Some? && row.sn.Some? && row.name.Some?
    ensures r.Err? ==> r.error == KeyErrorMessage(if row.pid.None? then "pid" else if row.sn.None? then "sn" else "name")
    ensures r.Ok? ==> r.value == ScannedTuple(row.pid.value, row.sn.value, row.name.value,
      MsToTimestamp(row.bestBefore), MsToTimestamp(row.packedOn), row.netKg, row.count)
  {
    if row.pid.None? then Err(KeyErrorMessage("pid"))
    else if row.sn.None? then Err(KeyErrorMessage("sn"))
    else if row.name.None? then Err(KeyErrorMessage("name"))
    else Ok(ScannedTuple(row.pid.value, row.sn.value, row.name.value,
      MsToTimestamp(row.bestBefore), MsToTimestamp(row.packedOn), row.netKg, row.count))
  }

  /** The list comprehension building the insert rows: the first entry lacking a
      required key aborts it with that key's error. */
  function ProjectScanned(rows: seq<ScannedRow>): (r: Result<seq<ScannedTuple>>)
    ensures r.Ok? ==> |r.value| == |rows|
    ensures r.Err? ==> r.error in {KeyErrorMessage("pid"), KeyErrorMessage("sn"), KeyErrorMessage("name")}
  {
    if rows == [] then Ok([])
    else match ScannedTupleOf(rows[0])
      case Err(e) => Err(e)
      case Ok(t) =>
        match ProjectScanned(rows[1..])
        case Err(e) => Err(e)
        case Ok(ts) => Ok([t] + ts)
  }

  /** The projection succeeds exactly when every entry has its required keys, and then
      holds one tuple per entry in order; otherwise its error is that of the first
      entry lacking one. */
  lemma {:induction false} ProjectScannedFacts(rows: seq<ScannedRow>)
    ensures ProjectScanned(rows).Ok? <==> forall i :: 0 <= i < |rows| ==> ScannedTupleOf(rows[i]).Ok?
    ensures ProjectScanned(rows).Ok? ==>
      |ProjectScanned(rows).value| == |rows|
      && forall i :: 0 <= i < |rows| ==> ProjectScanned(rows).value[i] == ScannedTupleOf(rows[i]).value
    ensures ProjectScanned(rows).Err? ==>
      exists j :: 0 <= j < |rows| && ScannedTupleOf(rows[j]).Err?
        && ProjectScanned(rows).error == ScannedTupleOf(rows[j]).error
        && forall i :: 0 <= i < j ==> ScannedTupleOf(rows[i]).Ok?
  {
    if rows != [] {
      var tail := rows[1..];
      ProjectScannedFacts(tail);
      assert forall i :: 0 <= i < |tail| ==> tail[i] == rows[i + 1];
      if ScannedTupleOf(rows[0]).Err? {
        assert ProjectScanned(rows).error == ScannedTupleOf(rows[0]).error;
      } else if ProjectScanned(tail).Err? {
        var j :| 0 <= j < |tail| && ScannedTupleOf(tail[j]).Err?
          && ProjectScanned(tail).error == ScannedTupleOf(tail[j]).error
          && forall i :: 0 <= i < j ==> ScannedTupleOf(tail[i]).Ok?;
        assert ScannedTupleOf(rows[j + 1]).Err?;
        assert forall i :: 0 <= i < j + 1 ==> ScannedTupleOf(rows[i]).Ok? by {
          forall i | 0 < i < j + 1 ensures ScannedTupleOf(rows[i]).Ok? {
            assert rows[i] == tail[i - 1];
          }
        }
      } else {
        forall i | 0 < i < |rows| ensures ProjectScanned(rows).value[i] == ScannedTupleOf(rows[i]).value
          && ScannedTupleOf(rows[i]).Ok?
        {
          assert rows[i] == tail[i - 1];
        }
      }
    }
  }

  /** One sales_floor entry of the payload; None marks a key the object lacks. */
  datatype SalesRow = SalesRow(
    pid: Option<int>,
    name: Option<string>,
    count: Option<int>,
    weight: Option<real>,
    expiry: Option<int>)

  /** The MERGE source row: pid and name are required, in that order. */
  datatype SalesTuple = SalesTuple(pid: int, name: string, count: Option<int>, weight: Option<real>, expiry: Option<int>)

  function SalesTupleOf(row: SalesRow): (r: Result<SalesTuple>)
    ensures r.Ok? <==> row.pid.Some? && row.name.Some?
    ensures r.Err? ==> r.error == KeyErrorMessage(if row.pid.None? then "pid" else "name")
    ensures r.Ok? ==> r.value == SalesTuple(row.pid.value, row.name.value, row.count, row.weight, MsToTimestamp(row.expiry))
  {
    if row.pid.None? then Err(KeyErrorMessage("pid"))
    else if row.name.None? then Err(KeyErrorMessage("name"))
    else Ok(SalesTuple(row.pid.value, row.name.value, row.count, row.weight, MsToTimestamp(row.expiry)))
  }

  /** A SALES_FLOOR row, keyed by PID. updatedAt is set by a MERGE that matches; an
      inserted row leaves it to the column's default (None here). */
  datatype SalesRecord = SalesRecord(
    name: string,
    currentCount: Option<int>,
    totalWeight: Option<real>,
    latestExpiry: Option<int>,
    updatedAt: Option<int>)

  /** The four columns a MERGE writes from its source row. */
  predicate Carries(r: SalesRecord, t: SalesTuple) {
    r.name == t.name && r.currentCount == t.count && r.totalWeight == t.weight && r.latestExpiry == t.expiry
  }

  /** One MERGE: update the row with the same PID and stamp it, or insert a new one. */
  function MergeRow(table: map<int, SalesRecord>, t: SalesTuple, now: int): (m: map<int, SalesRecord>)
    ensures m.Keys == table.Keys + {t.pid}
    ensures Carries(m[t.pid], t)
    ensures m[t.pid].updatedAt == if t.pid in table then Some(now) else None
    ensures forall p :: p in table && p != t.pid ==> m[p] == table[p]
  {
    table[t.pid := SalesRecord(t.name, t.count, t.weight, t.expiry, if t.pid in table then Some(now) else None)]
  }

  /** The MERGE loop over the entries in order: the table after it, and the KeyError
      that stopped it, if any. Every MERGE before the failing entry stays applied. */
  function MergeRows(table: map<int, SalesRecord>, rows: seq<SalesRow>, now: int): (r: (map<int, SalesRecord>, Option<string>))
    ensures table.Keys <= r.0.Keys
    ensures r.1.Some? ==> r.1.value in {KeyErrorMessage("pid"), KeyErrorMessage("name")}
    decreases |rows|
  {
    if rows == [] then (table, None)
    else match SalesTupleOf(rows[0])
      case Err(e) => (table, Some(e))
      case Ok(t) => MergeRows(MergeRow(table, t, now), rows[1..], now)
  }

  /** Every entry has its required keys. */
  predicate AllKeyed(rows: seq<SalesRow>) {
    forall i :: 0 <= i < |rows| ==> SalesTupleOf(rows[i]).Ok?
  }

  /** The loop stops with an error exactly when some entry lacks a required key; it then
      leaves the table as the entries before the first such one made it. */
  lemma {:induction false} MergeRowsError(table: map<int, SalesRecord>, rows: seq<SalesRow>, now: int, j: nat)
    requires j < |rows| && SalesTupleOf(rows[j]).Err? && AllKeyed(rows[..j])
    ensures MergeRows(table, rows, now) == (MergeRows(table, rows[..j], now).0, Some(SalesTupleOf(rows[j]).error))
    decreases |rows|
  {
    if j > 0 {
      var tail := rows[1..][..j - 1];
      assert tail == rows[..j][1..];
      assert AllKeyed(tail) by {
        forall i | 0 <= i < j - 1 ensures SalesTupleOf(tail[i]).Ok? {
          assert tail[i] == rows[..j][i + 1];
        }
      }
      assert SalesTupleOf(rows[..j][0]).Ok?;
      MergeRowsError(MergeRow(table, SalesTupleOf(rows[0]).value, now), rows[1..], now, j - 1);
    }
  }

  /** With every entry keyed the loop runs to the end without error. */
  lemma {:induction false} MergeRowsComplete(table: map<int, SalesRecord>, rows: seq<SalesRow>, now: int)
    requires AllKeyed(rows)
    ensures MergeRows(table, rows, now).1.None?
    decreases |rows|
  {
    if rows != [] {
      assert AllKeyed(rows[1..]) by {
        forall i | 0 <= i < |rows[1..]| ensures SalesTupleOf(rows[1..][i]).Ok? {
          assert rows[1..][i] == rows[i + 1];
        }
      }
      MergeRowsComplete(MergeRow(table, SalesTupleOf(rows[0]).value, now), rows[1..], now);
    }
  }

  /** The PID an entry carries, when it has one. */
  predicate HasPid(rows: seq<SalesRow>, p: int) {
    exists i :: 0 <= i < |rows| && rows[i].pid == Some(p)
  }

  /** A PID no entry carries keeps its row, and no row appears for it. */
  lemma {:induction false} MergeRowsUntouched(table: map<int, SalesRecord>, rows: seq<SalesRow>, now: int, p: int)
    requires !HasPid(rows, p)
    ensures p in MergeRows(table, rows, now).0 <==> p in table
    ensures p in table ==> MergeRows(table, rows, now).0[p] == table[p]
    decreases |rows|
  {
    if rows != [] && SalesTupleOf(rows[0]).Ok? {
      assert rows[0].pid != Some(p);
      forall i | 0 <= i < |rows[1..]| ensures rows[1..][i].pid != Some(p) {
        assert rows[1..][i] == rows[i + 1];
      }
      MergeRowsUntouched(MergeRow(table, SalesTupleOf(rows[0]).value, now), rows[1..], now, p);
    }
  }

  /** With every entry keyed, the table ends holding the old PIDs and every PID sent;
      each PID sent carries the values of its LAST entry, so a later entry for the same
      PID overwrites an earlier one instead of duplicating it. */
  lemma {:induction false} MergeRowsLastWins(table: map<int, SalesRecord>, rows: seq<SalesRow>, now: int, j: nat)
    requires AllKeyed(rows)
    requires j < |rows| && forall i :: j < i < |rows| ==> rows[i].pid != rows[j].pid
    ensures rows[j].pid.value in MergeRows(table, rows, now).0
    ensures Carries(MergeRows(table, rows, now).0[rows[j].pid.value], SalesTupleOf(rows[j]).value)
    decreases |rows|
  {
    var t := SalesTupleOf(rows[0]).value;
    var next := MergeRow(table, t, now);
    assert AllKeyed(rows[1..]) by {
      forall i | 0 <= i < |rows[1..]| ensures SalesTupleOf(rows[1..][i]).Ok? {
        assert rows[1..][i] == rows[i + 1];
      }
    }
    if j == 0 {
      var p := rows[0].pid.value;
      forall i | 0 <= i < |rows[1..]| ensures rows[1..][i].pid != Some(p) {
        assert rows[1..][i] == rows[i + 1];
      }
      MergeRowsUntouched(next, rows[1..], now, p);
    } else {
      assert rows[1..][j - 1] == rows[j];
      forall i | j - 1 < i < |rows[1..]| ensures rows[1..][i].pid != rows[1..][j - 1].pid {
        assert rows[1..][i] == rows[i + 1];
      }
      MergeRowsLastWins(next, rows[1..], now, j - 1);
    }
  }

  /** With every entry keyed, the table's PIDs are the old ones plus those sent. */
  lemma {:induction false} MergeRowsKeys(table: map<int, SalesRecord>, rows: seq<SalesRow>, now: int)
    requires AllKeyed(rows)
    ensures forall p :: p in MergeRows(table, rows, now).0 <==> p in table || HasPid(rows, p)
    decreases |rows|
  {
    if rows != [] {
      var t := SalesTupleOf(rows[0]).value;
      assert AllKeyed(rows[1..]) by {
        forall i | 0 <= i < |rows[1..]| ensures SalesTupleOf(rows[1..][i]).Ok? {
          assert rows[1..][i] == rows[i + 1];
        }
      }
      MergeRowsKeys(MergeRow(table, t, now), rows[1..], now);
      forall p ensures HasPid(rows, p) <==> p == t.pid || HasPid(rows[1..], p) {
        if HasPid(rows, p) && p != t.pid {
          var i :| 0 <= i < |rows| && rows[i].pid == Some(p);
          assert rows[1..][i - 1] == rows[i];
        }
        if HasPid(rows[1..], p) {
          var i :| 0 <= i < |rows[1..]| && rows[1..][i].pid == Some(p);
          assert rows[i + 1] == rows[1..][i];
        }
      }
    }
  }

  /** The Snowflake tables this function writes. */
  class Warehouse {
    var scanned: seq<ScannedTuple>
    var salesFloor: map<int, SalesRecord>

    constructor(scanned0: seq<ScannedTuple>, salesFloor0: map<int, SalesRecord>)
      ensures scanned == scanned0 && salesFloor == salesFloor0
    {
      scanned := scanned0;
      salesFloor := salesFloor0;
    }

    /** executemany of the INSERT. */
    method InsertScanned(rows: seq<ScannedTuple>)
      modifies this
      ensures scanned == old(scanned) + rows && salesFloor == old(salesFloor)
    {
      scanned := scanned + rows;
    }

    /** One MERGE INTO SALES_FLOOR. */
    method Merge(t: SalesTuple, now: int)
      modifies this
      ensures salesFloor == MergeRow(old(salesFloor), t, now) && scanned == old(scanned)
    {
      salesFloor := MergeRow(salesFloor, t, now);
    }
  }

  /** The parsed request body. Object carries the two lists (None when the key is absent)
      and whether it has any other key; an object with no key at all is falsy. */
  datatype Body =
    | NoJson
    | FalsyScalar
    | TruthyNonObject
    | Object(scannedItems: Option<seq<ScannedRow>>, salesFloor: Option<seq<SalesRow>>, otherKeys: bool)

  /** `not data` */
  predicate Falsy(b: Body) {
    b.NoJson? || b.FalsyScalar? || (b.Object? && b.scannedItems.None? && b.salesFloor.None? && !b.otherKeys)
  }

  /** data.get(key, []) */
  function ScannedOf(b: Body): seq<ScannedRow>
    requires b.Object?
  {
    if b.scannedItems.Some? then b.scannedItems.value else []
  }

  function SalesOf(b: Body): seq<SalesRow>
    requires b.Object?
  {
    if b.salesFloor.Some? then b.salesFloor.value else []
  }

  /** The function's environment variables. */
  datatype Env = Env(user: Option<string>, account: Option<string>, passSecret: Option<string>)

  /** Both the user and the account are set and non-empty. */
  predicate CredentialsSet(env: Env) {
    env.user.Some? && env.user.value != [] && env.account.Some? && env.account.value != []
  }

  datatype ResponseBody =
    | Error(message: string)
    | Success(scannedItemsWritten: nat, salesFloorUpserted: nat)

  /** A JSON response with its status, or an exception the function does not catch. */
  datatype Outcome = Respond(status: int, body: ResponseBody) | Uncaught

  const InvalidBodyMessage := "Invalid or missing JSON body"
  const MissingCredentialsMessage := "Server misconfiguration: missing Snowflake credentials."

  /** The checks made before any write, in order: the body, the credentials, the
      password, the connection. None when all pass. */
  function Precheck(body: Body, env: Env, connectError: Option<string>): (early: Option<Outcome>)
    ensures early.None? <==>
      (!Falsy(body) && body.Object? && CredentialsSet(env) && GetSecret(env.passSecret).Ok? && connectError.None?)
    ensures Falsy(body) ==> early == Some(Respond(400, Error(InvalidBodyMessage)))
    ensures !Falsy(body) && !body.Object? ==> early == Some(Uncaught)
    ensures !Falsy(body) && body.Object? && !CredentialsSet(env) ==>
      early == Some(Respond(500, Error(MissingCredentialsMessage)))
    ensures !Falsy(body) && body.Object? && CredentialsSet(env) && GetSecret(env.passSecret).Err? ==>
      early == Some(Respond(500, Error("Secret Manager error: " + MissingSecretMessage)))
    ensures !Falsy(body) && body.Object? && CredentialsSet(env) && GetSecret(env.passSecret).Ok? && connectError.Some? ==>
      early == Some(Respond(500, Error("Snowflake connection error: " + connectError.value)))
  {
    if Falsy(body) then Some(Respond(400, Error(InvalidBodyMessage)))
    else if !body.Object? then Some(Uncaught)
    else if !CredentialsSet(env) then Some(Respond(500, Error(MissingCredentialsMessage)))
    else match GetSecret(env.passSecret)
      case Err(e) => Some(Respond(500, Error("Secret Manager error: " + e)))
      case Ok(_) =>
        if connectError.Some? then Some(Respond(500, Error("Snowflake connection error: " + connectError.value)))
        else None
  }

  /** stream_to_snowflake, against the warehouse. The password, the connection and the
      request are parameters: connectError is the connector's error message when it
      fails. Nothing is written unless every check passes; then the scanned items are
      inserted together (none if one lacks a key) and the sales-floor entries merged
      one at a time, those before a failing entry staying merged. */
  method StreamToSnowflake(wh: Warehouse, body: Body, env: Env, connectError: Option<string>, now: int)
    returns (out: Outcome)
    modifies wh
    ensures Precheck(body, env, connectError).Some? ==>
      out == Precheck(body, env, connectError).value
      && wh.scanned == old(wh.scanned) && wh.salesFloor == old(wh.salesFloor)
    ensures Precheck(body, env, connectError).None? && ProjectScanned(ScannedOf(body)).Err? ==>
      out == Respond(500, Error(ProjectScanned(ScannedOf(body)).error))
      && wh.scanned == old(wh.scanned) && wh.salesFloor == old(wh.salesFloor)
    ensures Precheck(body, env, connectError).None? && ProjectScanned(ScannedOf(body)).Ok? ==>
      var merged := MergeRows(old(wh.salesFloor), SalesOf(body), now);
      && wh.scanned == old(wh.scanned) + ProjectScanned(ScannedOf(body)).value
      && wh.salesFloor == merged.0
      && out == if merged.1.Some? then Respond(500, Error(merged.1.value))
                else Respond(200, Success(|ScannedOf(body)|, |SalesOf(body)|))
  {
    var early := Precheck(body, env, connectError);
    if early.Some? {
      return early.value;
    }
    var scannedItems := ScannedOf(body);
    var salesFloor := SalesOf(body);
    if scannedItems != [] {
      var projected := ProjectScanned(scannedItems);
      if projected.Err? {
        return Respond(500, Error(projected.error));
      }
      wh.InsertScanned(projected.value);
    } else {
      assert ProjectScanned(scannedItems) == Ok([]);
      assert wh.scanned + [] == wh.scanned;
    }
    ghost var table0 := wh.salesFloor;
    var i := 0;
    while i < |salesFloor|
      invariant 0 <= i <= |salesFloor|
      invariant MergeRows(table0, salesFloor, now) == MergeRows(wh.salesFloor, salesFloor[i..], now)
      invariant wh.scanned == old(wh.scanned) + ProjectScanned(scannedItems).value
    {
      var row := salesFloor[i];
      var source := SalesTupleOf(row);
      assert salesFloor[i..][1..] == salesFloor[i + 1..];
      if source.Err? {
        return Respond(500, Error(source.error));
      }
      wh.Merge(source.value, now);
      i := i + 1;
    }
    return Respond(200, Success(|scannedItems|, |salesFloor|));
  }
}
