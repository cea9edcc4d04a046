/**
 * The historical table: how loadHistoricalData finds the records array in
 * the response, and which rows updateHistoricalTable renders from it.
 */
module History {
  import opened Values
  import opened Payload

  /**
   * A `records` or `data` property of the response object: falsy (absent,
   * null, 0, ""), some truthy value that is not an array, or an array.
   */
  datatype Field = Falsy | NonArray | Items(items: seq<Payload>)

  /**
   * The decoded body of `GET /sensores`: an array, JSON `null`, or any other
   * value, whose `records` and `data` properties are read (a number or a
   * string has neither, which is `Other(Falsy, Falsy)`).
   */
  datatype Response = ArrayBody(items: seq<Payload>) | NullBody | Other(records: Field, data: Field)

  /** JavaScript truthiness of a property: every array, even an empty one, is truthy. */
  predicate FieldTruthy(f: Field) {
    !f.Falsy?
  }

  /** What updateHistoricalTable is given: an array of records, or a value that is not an array. */
  datatype Records = RecordArray(items: seq<Payload>) | NotAnArray

  /**
   * `Array.isArray(data) ? data : (data.records || data.data || [])`. `None`
   * is the TypeError that reading a property of `null` throws.
   */
  function ExtractRecords(body: Response): (r: Option<Records>)
    ensures r.None? <==> body.NullBody?
    ensures body.ArrayBody? ==> r == Some(RecordArray(body.items))
    ensures body.Other? && body.records.Items? ==> r == Some(RecordArray(body.records.items))
    ensures body.Other? && body.records.Falsy? && body.data.Items? ==> r == Some(RecordArray(body.data.items))
    ensures body.Other? && body.records.Falsy? && body.data.Falsy? ==> r == Some(RecordArray([]))
    ensures r == Some(NotAnArray) <==>
              body.Other? && (body.records.NonArray? || (body.records.Falsy? && body.data.NonArray?))
  {
    match body
    case ArrayBody(items) => Some(RecordArray(items))
    case NullBody => None
    case Other(records, data) =>
      var chosen := if FieldTruthy(records) then records else if FieldTruthy(data) then data else Items([]);
      Some(if chosen.Items? then RecordArray(chosen.items) else NotAnArray)
  }

  /** At most this many records are shown. */
  const TableSize := 10

  function Reversed<T>(s: seq<T>): (r: seq<T>)
    ensures |r| == |s|
  {
    if s == [] then [] else Reversed(s[1..]) + [s[0]]
  }

  lemma {:induction false} ReversedAt<T>(s: seq<T>, i: nat)
    requires i < |s|
    ensures Reversed(s)[i] == s[|s| - 1 - i]
  {
    if i < |s| - 1 {
      ReversedAt(s[1..], i);
    }
  }

  lemma ReversedAll<T>(s: seq<T>)
    ensures forall i :: 0 <= i < |s| ==> Reversed(s)[i] == s[|s| - 1 - i]
  {
    forall i | 0 <= i < |s|
      ensures Reversed(s)[i] == s[|s| - 1 - i]
    {
      ReversedAt(s, i);
    }
  }

  /** `data.slice(-10).reverse()`: min(10, n) records, newest first, so entry i is record n-1-i. */
  function LastTenNewestFirst<T>(s: seq<T>): (r: seq<T>)
    ensures |r| == if |s| <= TableSize then |s| else TableSize
    ensures forall i :: 0 <= i < |r| ==> r[i] == s[|s| - 1 - i]
  {
    var tail := if |s| <= TableSize then s else s[|s| - TableSize..];
    ReversedAll(tail);
    Reversed(tail)
  }

  /** One rendered row: user, heart rate, latitude, longitude, timestamp (`'--'` where missing). */
  datatype Row = Row(user: Cell, heartRate: Cell, lat: Cell, lon: Cell, time: Cell)

  /** The coordinates a record shows: from its `gps` object, else from its flat fields when `lat || latitude` is truthy. */
  function RowPosition(record: Payload): (cells: (Cell, Cell))
    ensures record.gps.Some? ==>
      cells == (OrDash(GpsLat(record.gps.value)), OrDash(GpsLon(record.gps.value)))
    ensures record.gps.None? && Or(record.lat, record.latitude).Truthy() ==>
      cells == (Shown(Or(record.lat, record.latitude).x), OrDash(Or(Or(record.lon, record.longitude), record.lng)))
    ensures record.gps.None? && !Or(record.lat, record.latitude).Truthy() ==> cells == (Dash, Dash)
  {
    if record.gps.Some? then
      var g := record.gps.value;
      (OrDash(Or(g.lat, g.latitude)), OrDash(Or(Or(g.lon, g.longitude), g.lng)))
    else if Or(record.lat, record.latitude).Truthy() then
      (OrDash(Or(record.lat, record.latitude)), OrDash(Or(Or(record.lon, record.longitude), record.lng)))
    else
      (Dash, Dash)
  }

  /**
   * A record with a `gps` object that updateMap would accept shows in its
   * row exactly the position the map marker would be moved to.
   */
  lemma RowShowsTheMapFix(record: Payload)
    requires Fix(record.gps).Some?
    ensures RowPosition(record) == (Shown(Fix(record.gps).value.lat), Shown(Fix(record.gps).value.lng))
  {
  }

  /**
   * One table row: the user from `idUsuario || id_usuario`, the heart rate
   * from `frecuenciaCardiaca || frecuencia_cardiaca`, each '--' when both are
   * falsy, the position from RowPosition, and the time only when `timestamp` is truthy.
   */
  function RowOf(record: Payload): (row: Row)
    ensures row.user.Shown? <==> record.idUsuario.Truthy() || record.id_usuario.Truthy()
    ensures record.idUsuario.Truthy() ==> row.user == Shown(record.idUsuario.x)
    ensures !record.idUsuario.Truthy() && record.id_usuario.Truthy() ==> row.user == Shown(record.id_usuario.x)
    ensures row.heartRate.Shown? <==> record.frecuenciaCardiaca.Truthy() || record.frecuencia_cardiaca.Truthy()
    ensures record.frecuenciaCardiaca.Truthy() ==> row.heartRate == Shown(record.frecuenciaCardiaca.x)
    ensures !record.frecuenciaCardiaca.Truthy() && record.frecuencia_cardiaca.Truthy() ==>
      row.heartRate == Shown(record.frecuencia_cardiaca.x)
    ensures (row.lat, row.lon) == RowPosition(record)
    ensures row.time.Shown? <==> record.timestamp.Truthy()
  {
    var (lat, lon) := RowPosition(record);
    Row(OrDash(Or(record.idUsuario, record.id_usuario)),
        OrDash(Or(record.frecuenciaCardiaca, record.frecuencia_cardiaca)),
        lat, lon,
        OrDash(record.timestamp))
  }

  /** The table body: the page's own markup, the error row, the "no data" row, or record rows. */
  datatype TableView = InitialMarkup | ErrorRow | NoDataRow | Rows(rows: seq<Row>)

  /**
   * The body updateHistoricalTable renders from a records array: the single
   * "no data" row when it is empty, else one row per selected record, newest first.
   */
  function TableOf(records: seq<Payload>): (t: TableView)
    ensures records == [] <==> t == NoDataRow
    ensures records != [] ==> t.Rows?
    ensures t.Rows? ==> |t.rows| == (if |records| <= TableSize then |records| else TableSize)
    ensures t.Rows? ==> forall i :: 0 <= i < |t.rows| ==> t.rows[i] == RowOf(records[|records| - 1 - i])
  {
    var selected := LastTenNewestFirst(records);
    if |selected| == 0 then NoDataRow
    else Rows(seq(|selected|, i requires 0 <= i < |selected| => RowOf(selected[i])))
  }
}
