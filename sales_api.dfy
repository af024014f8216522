/** The sales endpoints of the back end: registering a sale (request checks, the
    header procedure, per-detail validation, detail inserts, commit or rollback, and
    the mapping of Oracle errors to HTTP statuses), and looking up one sale. The
    database is seen only through the outcomes it reports. */
module SalesApi {
  import opened Text
  import opened Wrappers

  /** A JSON value as Flask decodes it. Python's decoder also accepts the literals
      `NaN`, `Infinity` and `-Infinity`: `JNaN` compares false with every number, and
      `JInf` lies beyond every number on the side `negative` says. */
  datatype Json =
    | JNull
    | JBool(b: bool)
    | JNum(n: real)
    | JNaN
    | JInf(negative: bool)
    | JStr(s: string)
    | JArr(items: seq<Json>)
    | JObj(fields: map<string, Json>)

  /** Python truthiness of a decoded value. */
  predicate Truthy(j: Json) {
    match j
    case JNull => false
    case JBool(b) => b
    case JNum(n) => n != 0.0
    case JNaN => true
    case JInf(_) => true
    case JStr(s) => s != ""
    case JArr(items) => items != []
    case JObj(fields) => fields != map[]
  }

  /** Python's `k in j`: key membership for a dict, element membership for a list,
      substring for a string; `None` where Python raises `TypeError`. */
  function PyIn(k: string, j: Json): (r: Option<bool>)
    ensures r.None? <==> !(j.JObj? || j.JArr? || j.JStr?)
    ensures j.JObj? ==> r == Some(k in j.fields)
  {
    match j
    case JObj(fields) => Some(k in fields)
    case JArr(items) => Some(JStr(k) in items)
    case JStr(s) => Some(Contains(s, k))
    case _ => None
  }

  /** `all(k in j for k in keys)`: stops at the first missing key, raises at the first
      failing test. */
  function AllIn(keys: seq<string>, j: Json): (r: Option<bool>)
    ensures r.None? <==> keys != [] && !(j.JObj? || j.JArr? || j.JStr?)
  {
    if keys == [] then Some(true)
    else match PyIn(keys[0], j)
      case None => None
      case Some(false) => Some(false)
      case Some(true) => AllIn(keys[1..], j)
  }

  /** Python's `j <= 0`: numbers and booleans compare, anything else raises. NaN is
      never `<= 0`; an infinity is exactly when negative. */
  function AtMostZero(j: Json): (r: Option<bool>)
    ensures j.JNum? ==> r == Some(j.n <= 0.0)
    ensures j.JBool? ==> r == Some(!j.b)
    ensures j.JNaN? ==> r == Some(false)
    ensures j.JInf? ==> r == Some(j.negative)
    ensures !(j.JNum? || j.JBool? || j.JNaN? || j.JInf?) ==> r.None?
  {
    match j
    case JNum(n) => Some(n <= 0.0)
    case JBool(b) => Some(!b)
    case JNaN => Some(false)
    case JInf(negative) => Some(negative)
    case _ => None
  }

  // ---------------------------------------------------------------------------
  // Replies

  /** The reply of `registrar_venta_completa`. `Unexpected` is the handler's own 500
      for an unforeseen exception (its message is Python's text of the error);
      `Unhandled` is an exception raised before the handler's `try`, which Flask turns
      into its own 500 page. */
  datatype Reply =
    | Created(idVenta: int, items: nat)
    | Refused(status: nat, mensaje: string)
    | Unexpected
    | Unhandled

  function Status(r: Reply): nat {
    match r
    case Created(_, _) => 201
    case Refused(s, _) => s
    case Unexpected => 500
    case Unhandled => 500
  }

  const RequiredKeys := ["id_cliente", "id_empleado", "total_venta", "detalles"]
  const DetailKeys := ["id_medicamento", "cantidad", "precio_unitario_venta"]

  const BadJsonText := "JSON inválido. Se requieren: id_cliente, id_empleado, total_venta, detalles"
  const BadDetailsText := "El campo 'detalles' debe ser una lista no vacía."
  const NoConnectionText := "No se pudo conectar a la base de datos."
  const NoStockText := "Stock insuficiente para uno o más medicamentos."
  const MissingReferenceText := "Medicamento, cliente o empleado no existe en el sistema."
  const NoRecordText := "No se encontró el registro especificado."

  /** The handling of an Oracle `DatabaseError`, tested in this order on its message. */
  function MapDbError(message: string): (r: Reply)
    ensures r.Refused?
    ensures Contains(message, "ORA-20002") ==> r == Refused(409, NoStockText)
    ensures !Contains(message, "ORA-20002") && Contains(message, "ORA-02291") ==>
      r == Refused(400, MissingReferenceText)
    ensures !Contains(message, "ORA-20002") && !Contains(message, "ORA-02291") &&
      Contains(message, "ORA-01403")
      ==> r == Refused(404, NoRecordText)
    ensures !Contains(message, "ORA-20002") && !Contains(message, "ORA-02291") &&
      !Contains(message, "ORA-01403")
      ==> r == Refused(500, "Error en base de datos: " + message)
  {
    if Contains(message, "ORA-20002") then Refused(409, NoStockText)
    else if Contains(message, "ORA-02291") then Refused(400, MissingReferenceText)
    else if Contains(message, "ORA-01403") then Refused(404, NoRecordText)
    else Refused(500, "Error en base de datos: " + message)
  }

  /** Every database error is answered with one of four statuses, and only a message
      that names none of the three codes is passed through to the client. */
  lemma DbErrorStatuses(message: string)
    ensures Status(MapDbError(message)) in {409, 400, 404, 500}
    ensures Status(MapDbError(message)) == 500 <==>
      !Contains(message, "ORA-20002") && !Contains(message, "ORA-02291") && !Contains(message, "ORA-01403")
  {
  }

  // ---------------------------------------------------------------------------
  // Request checks (before the transaction)

  /** The checks before a connection is sought; `None` when the request passes them. */
  function Precheck(datos: Json): (r: Option<Reply>)
    ensures !Truthy(datos) ==> r == Some(Refused(400, BadJsonText))
    ensures datos.JObj? && Truthy(datos) && !HasRequiredKeys(datos.fields) ==> r == Some(Refused(400, BadJsonText))
    ensures datos.JObj? && HasRequiredKeys(datos.fields) && !WellFormedRequest(datos) ==>
      r == Some(Refused(400, BadDetailsText))
    ensures !datos.JObj? && Truthy(datos) ==>
      r == (if AllIn(RequiredKeys, datos) == Some(false) then Some(Refused(400, BadJsonText)) else Some(Unhandled))
    ensures r.None? <==> WellFormedRequest(datos)
  {
    if !Truthy(datos) then Some(Refused(400, BadJsonText))
    else if !datos.JObj? then
      // A list or string answers `in`, then cannot be indexed by a key; anything else
      // cannot answer `in`.
      if AllIn(RequiredKeys, datos) == Some(false) then Some(Refused(400, BadJsonText)) else Some(Unhandled)
    else if !HasRequiredKeys(datos.fields) then Some(Refused(400, BadJsonText))
    else
      var d := datos.fields["detalles"];
      if !d.JArr? || d.items == [] then Some(Refused(400, BadDetailsText)) else None
  }

  predicate HasRequiredKeys(f: map<string, Json>) {
    "id_cliente" in f && "id_empleado" in f && "total_venta" in f && "detalles" in f
  }

  /** On an object, Python's `all(k in datos for k in ...)` is the key test above. */
  lemma RequiredKeysAsPython(f: map<string, Json>)
    ensures AllIn(RequiredKeys, JObj(f)) == Some(HasRequiredKeys(f))
  {
    var j := JObj(f);
    var k3 := ["detalles"];
    var k2 := ["total_venta"] + k3;
    var k1 := ["id_empleado"] + k2;
    assert RequiredKeys == ["id_cliente"] + k1;
    assert k3[1..] == [];
    assert AllIn(k3, j) == Some("detalles" in f);
    assert k2[1..] == k3;
    assert AllIn(k2, j) == Some("total_venta" in f && "detalles" in f);
    assert k1[1..] == k2;
    assert AllIn(k1, j) == Some("id_empleado" in f && "total_venta" in f && "detalles" in f);
    assert RequiredKeys[1..] == k1;
  }

  /** A request body that reaches the transaction: an object with the four keys whose
      `detalles` is a non-empty list. */
  predicate WellFormedRequest(datos: Json) {
    datos.JObj? && HasRequiredKeys(datos.fields) &&
    datos.fields["detalles"].JArr? && datos.fields["detalles"].items != []
  }

  function DetailsOf(datos: Json): seq<Json>
    requires WellFormedRequest(datos)
  {
    datos.fields["detalles"].items
  }

  // ---------------------------------------------------------------------------
  // Per-detail validation

  /** Every per-detail message starts by naming the detail. */
  function DetailPrefix(idx: nat): string {
    "Detalle #" + NatToString(idx) + ":"
  }

  const MissingTail := " faltan campos requeridos (id_medicamento, cantidad, precio_unitario_venta)"
  const QuantityTail := " la cantidad debe ser mayor a 0"
  const PriceTail := " el precio debe ser mayor a 0"

  function MissingFieldsText(idx: nat): string {
    DetailPrefix(idx) + MissingTail
  }

  function QuantityText(idx: nat): string {
    DetailPrefix(idx) + QuantityTail
  }

  function PriceText(idx: nat): string {
    DetailPrefix(idx) + PriceTail
  }

  /** Why a detail is refused: a missing key, a quantity or price not above 0, or a
      test that raises. */
  datatype Fault = MissingFields | QuantityNotPositive | PriceNotPositive | Raises

  predicate HasDetailKeys(f: map<string, Json>) {
    "id_medicamento" in f && "cantidad" in f && "precio_unitario_venta" in f
  }

  /** On an object, Python's `all(k in detalle for k in ...)` is the key test above. */
  lemma DetailKeysAsPython(f: map<string, Json>)
    ensures AllIn(DetailKeys, JObj(f)) == Some(HasDetailKeys(f))
  {
    var j := JObj(f);
    var k2 := ["precio_unitario_venta"];
    var k1 := ["cantidad"] + k2;
    assert DetailKeys == ["id_medicamento"] + k1;
    assert k2[1..] == [];
    assert AllIn(k2, j) == Some("precio_unitario_venta" in f);
    assert k1[1..] == k2;
  }

  /** A detail the back end accepts: an object with the three keys, whose quantity and
      price compare as greater than 0. */
  predicate GoodDetail(d: Json) {
    d.JObj? && HasDetailKeys(d.fields) &&
    AtMostZero(d.fields["cantidad"]) == Some(false) &&
    AtMostZero(d.fields["precio_unitario_venta"]) == Some(false)
  }

  /** A quantity or price of `NaN` or `Infinity` is not `<= 0`, so a detail carrying
      them passes validation and goes on to the insert. */
  lemma NonFiniteDetailPasses(f: map<string, Json>)
    requires HasDetailKeys(f)
    requires f["cantidad"] == JNaN || f["cantidad"] == JInf(false)
    requires f["precio_unitario_venta"] == JNaN || f["precio_unitario_venta"] == JInf(false)
    ensures GoodDetail(JObj(f))
    ensures DetailFault(JObj(f)).None?
  {
    assert AtMostZero(f["cantidad"]) == Some(false);
    assert AtMostZero(f["precio_unitario_venta"]) == Some(false);
  }

  /** The checks on one detail, in the handler's order: keys, then quantity, then
      price. */
  function DetailFault(d: Json): (r: Option<Fault>)
    ensures r.None? <==> GoodDetail(d)
    ensures d.JObj? && !HasDetailKeys(d.fields) ==> r == Some(MissingFields)
    ensures !(d.JObj? || d.JArr? || d.JStr?) ==> r == Some(Raises)
    ensures d.JObj? && HasDetailKeys(d.fields) ==>
      (AtMostZero(d.fields["cantidad"]) == Some(true) ==> r == Some(QuantityNotPositive)) &&
      (AtMostZero(d.fields["cantidad"]).None? ==> r == Some(Raises)) &&
      (AtMostZero(d.fields["cantidad"]) == Some(false) ==>
        (AtMostZero(d.fields["precio_unitario_venta"]) == Some(true) ==> r == Some(PriceNotPositive)) &&
        (AtMostZero(d.fields["precio_unitario_venta"]).None? ==> r == Some(Raises)))
  {
    if !d.JObj? then
      // A list or string answers `in`, then cannot be indexed by a key.
      if AllIn(DetailKeys, d) == Some(false) then Some(MissingFields) else Some(Raises)
    else if !HasDetailKeys(d.fields) then Some(MissingFields)
    else match AtMostZero(d.fields["cantidad"])
      case None => Some(Raises)
      case Some(true) => Some(QuantityNotPositive)
      case Some(false) =>
        match AtMostZero(d.fields["precio_unitario_venta"])
        case None => Some(Raises)
        case Some(true) => Some(PriceNotPositive)
        case Some(false) => None
  }

  /** The answer to a refused detail numbered `idx` (from 1). A raising test ends in
      the handler's generic 500. */
  function FaultReply(f: Fault, idx: nat): (r: Reply)
    ensures r.Unexpected? <==> f == Raises
    ensures r.Refused? ==> r.status == 400
  {
    match f
    case MissingFields => Refused(400, MissingFieldsText(idx))
    case QuantityNotPositive => Refused(400, QuantityText(idx))
    case PriceNotPositive => Refused(400, PriceText(idx))
    case Raises => Unexpected
  }

  /** A refused detail's message names the detail by its number. */
  lemma FaultMessageNamed(f: Fault, idx: nat)
    requires f != Raises
    ensures FaultReply(f, idx).Refused?
    ensures IsPrefix(DetailPrefix(idx), FaultReply(f, idx).mensaje)
  {
    var p := DetailPrefix(idx);
    var m := FaultReply(f, idx).mensaje;
    assert m[..|p|] == p;
  }

  /** The three reasons give three different messages for the same detail. */
  lemma FaultMessagesDistinct(idx: nat)
    ensures MissingFieldsText(idx) != QuantityText(idx)
    ensures MissingFieldsText(idx) != PriceText(idx)
    ensures QuantityText(idx) != PriceText(idx)
  {
    // The three messages share the prefix and have tails of different lengths.
    assert |MissingTail| == 75 && |QuantityTail| == 31 && |PriceTail| == 29;
  }

  /** A refused detail: its position in the list (from 0) and the reason. */
  datatype Failure = Failure(position: nat, fault: Fault)

  /** The answer to a refused detail, numbered from 1. */
  function RefusalReply(failure: Failure): Reply {
    FaultReply(failure.fault, failure.position + 1)
  }

  /** The validation loop: the first detail that is not good decides. */
  function FirstFault(dets: seq<Json>): (r: Option<Failure>)
    ensures r.None? <==> forall i :: 0 <= i < |dets| ==> GoodDetail(dets[i])
    ensures r.Some? ==> r.value.position < |dets|
  {
    if dets == [] then None
    else match DetailFault(dets[0])
      case Some(f) => Some(Failure(0, f))
      case None =>
        match FirstFault(dets[1..])
        case None => None
        case Some(Failure(p, f)) => Some(Failure(p + 1, f))
  }

  /** When every detail before position `i` is good and the one at `i` is not, the
      validation stops there, for that detail's reason. */
  lemma {:induction false} FirstFaultAt(dets: seq<Json>, i: nat)
    requires i < |dets| && !GoodDetail(dets[i])
    requires forall j :: 0 <= j < i ==> GoodDetail(dets[j])
    ensures FirstFault(dets) == Some(Failure(i, DetailFault(dets[i]).value))
  {
    if i > 0 {
      var rest := dets[1..];
      assert rest[i - 1] == dets[i];
      assert forall j :: 0 <= j < i - 1 ==> rest[j] == dets[j + 1];
      FirstFaultAt(rest, i - 1);
    }
  }

  // ---------------------------------------------------------------------------
  // The database as the handler sees it

  /** What the header procedure reports: the new sale's number, an Oracle error, or a
      failure to read the number back. */
  datatype HeaderOutcome = HeaderOk(idVenta: int) | HeaderDbError(message: string) | HeaderCrash

  /** A row written inside the transaction. */
  datatype DbRow =
    | SaleHeader(idVenta: int, idCliente: Json, idEmpleado: Json, totalVenta: Json)
    | SaleDetail(idVenta: int, idMedicamento: Json, cantidad: Json, precio: Json)

  function HeaderRow(idVenta: int, datos: Json): DbRow
    requires WellFormedRequest(datos)
  {
    SaleHeader(idVenta, datos.fields["id_cliente"], datos.fields["id_empleado"], datos.fields["total_venta"])
  }

  function DetailRow(idVenta: int, d: Json): DbRow
    requires GoodDetail(d)
  {
    SaleDetail(idVenta, d.fields["id_medicamento"], d.fields["cantidad"], d.fields["precio_unitario_venta"])
  }

  /** The detail rows in input order. */
  function DetailRows(idVenta: int, dets: seq<Json>): (rows: seq<DbRow>)
    requires forall i :: 0 <= i < |dets| ==> GoodDetail(dets[i])
    ensures |rows| == |dets|
    ensures forall i :: 0 <= i < |dets| ==> rows[i] == DetailRow(idVenta, dets[i])
  {
    seq(|dets|, i requires 0 <= i < |dets| => DetailRow(idVenta, dets[i]))
  }

  /** The first failing insert among inserts `from` .. `n - 1`, as reported by
      `insertError` (the Oracle message of insert `i`, if it fails). */
  function FirstInsertError(from: nat, n: nat, insertError: nat -> Option<string>): (r: Option<string>)
    ensures r.None? <==> forall i :: from <= i < n ==> insertError(i).None?
    ensures r.Some? ==> exists i :: from <= i < n && insertError(i) == r
    decreases n - from
  {
    if from >= n then None
    else if insertError(from).Some? then insertError(from)
    else FirstInsertError(from + 1, n, insertError)
  }

  /** What `registrar_venta_completa` answers, given whether a connection was obtained
      and what the database reports at each step. */
  function Register(datos: Json, connected: bool, header: HeaderOutcome,
                    insertError: nat -> Option<string>, commitError: Option<string>): (r: Reply)
    ensures Precheck(datos).Some? ==> r == Precheck(datos).value
    ensures WellFormedRequest(datos) && !connected ==> r == Refused(503, NoConnectionText)
    ensures r.Created? <==>
      WellFormedRequest(datos) && connected && header.HeaderOk? &&
      (forall i :: 0 <= i < |DetailsOf(datos)| ==> GoodDetail(DetailsOf(datos)[i])) &&
      (forall i :: 0 <= i < |DetailsOf(datos)| ==> insertError(i).None?) &&
      commitError.None?
    ensures r.Created? ==> r.idVenta == header.idVenta && r.items == |DetailsOf(datos)|
    ensures WellFormedRequest(datos) && connected && header.HeaderDbError? ==> r == MapDbError(header.message)
    ensures WellFormedRequest(datos) && connected && header.HeaderCrash? ==> r == Unexpected
  {
    match Precheck(datos)
    case Some(early) => early
    case None =>
      if !connected then Refused(503, NoConnectionText)
      else match header
        case HeaderDbError(m) => MapDbError(m)
        case HeaderCrash => Unexpected
        case HeaderOk(id) => Transaction(id, DetailsOf(datos), insertError, commitError)
  }

  /** The transaction after the header row is written: validation, then the inserts,
      then the commit. */
  function Transaction(idVenta: int, dets: seq<Json>, insertError: nat -> Option<string>,
                       commitError: Option<string>): (r: Reply)
    ensures r.Created? <==>
      (forall i :: 0 <= i < |dets| ==> GoodDetail(dets[i])) &&
      (forall i :: 0 <= i < |dets| ==> insertError(i).None?) &&
      commitError.None?
    ensures r.Created? ==> r.idVenta == idVenta && r.items == |dets|
    ensures FirstFault(dets).Some? ==> r == RefusalReply(FirstFault(dets).value)
    ensures FirstFault(dets).None? && FirstInsertError(0, |dets|, insertError).Some? ==>
      r == MapDbError(FirstInsertError(0, |dets|, insertError).value)
    ensures FirstFault(dets).None? && FirstInsertError(0, |dets|, insertError).None? && commitError.Some? ==>
      r == MapDbError(commitError.value)
  {
    match FirstFault(dets)
    case Some(failure) => RefusalReply(failure)
    case None =>
      match FirstInsertError(0, |dets|, insertError)
      case Some(m) => MapDbError(m)
      case None =>
        match commitError
        case Some(m) => MapDbError(m)
        case None => Created(idVenta, |dets|)
  }

  /** Details are numbered from 1 in the answer: when the details before position
      `i` are good and the one at `i` is not, that detail's reason is answered, with
      the number `i + 1`. */
  lemma FirstBadDetailReported(datos: Json, header: HeaderOutcome,
                               insertError: nat -> Option<string>, commitError: Option<string>, i: nat)
    requires WellFormedRequest(datos) && header.HeaderOk?
    requires i < |DetailsOf(datos)| && !GoodDetail(DetailsOf(datos)[i])
    requires forall j :: 0 <= j < i ==> GoodDetail(DetailsOf(datos)[j])
    ensures Register(datos, true, header, insertError, commitError) ==
      FaultReply(DetailFault(DetailsOf(datos)[i]).value, i + 1)
  {
    FirstFaultAt(DetailsOf(datos), i);
  }

  /** The endpoint answers with one of six statuses, and 201 only for a registered
      sale. */
  lemma RegisterStatuses(datos: Json, connected: bool, header: HeaderOutcome,
                         insertError: nat -> Option<string>, commitError: Option<string>)
    ensures var r := Register(datos, connected, header, insertError, commitError);
      Status(r) in {201, 400, 404, 409, 500, 503} && (Status(r) == 201 <==> r.Created?)
  {
    var r := Register(datos, connected, header, insertError, commitError);
    if r.Refused? {
      assert r.status in {400, 404, 409, 500, 503};
    }
  }

  /** The rows a successful registration commits: the header, then one row per detail
      in input order. */
  function SaleRows(idVenta: int, datos: Json): seq<DbRow>
    requires WellFormedRequest(datos)
    requires forall i :: 0 <= i < |DetailsOf(datos)| ==> GoodDetail(DetailsOf(datos)[i])
  {
    [HeaderRow(idVenta, datos)] + DetailRows(idVenta, DetailsOf(datos))
  }

  /** A connection with a manual transaction: rows written since the last commit are
      pending, and become committed only by a commit. */
  class Connection {
    var committed: seq<DbRow>
    var pending: seq<DbRow>

    constructor ()
      ensures committed == [] && pending == []
    {
      committed := [];
      pending := [];
    }

    method Write(row: DbRow)
      modifies this
      ensures pending == old(pending) + [row] && committed == old(committed)
    {
      pending := pending + [row];
    }

    method Commit()
      modifies this
      ensures committed == old(committed) + old(pending) && pending == []
    {
      committed := committed + pending;
      pending := [];
    }

    method Rollback()
      modifies this
      ensures committed == old(committed) && pending == []
    {
      pending := [];
    }
  }

  /** `registrar_venta_completa` against a connection (`null` when none could be
      obtained): it answers as `Register` says, commits the header and every detail
      on success, and commits nothing otherwise. */
  method RegisterSale(datos: Json, conn: Connection?, header: HeaderOutcome,
                      insertError: nat -> Option<string>, commitError: Option<string>)
    returns (reply: Reply)
    requires conn != null ==> conn.pending == []
    modifies conn
    ensures reply == Register(datos, conn != null, header, insertError, commitError)
    ensures conn != null ==> conn.pending == []
    ensures conn != null && reply.Created? ==>
      conn.committed == old(conn.committed) + SaleRows(reply.idVenta, datos)
    ensures conn != null && !reply.Created? ==> conn.committed == old(conn.committed)
  {
    var early := Precheck(datos);
    if early.Some? {
      return early.value;
    }
    if conn == null {
      return Refused(503, NoConnectionText);
    }
    var id: int;
    match header {
      case HeaderDbError(m) =>
        return MapDbError(m);
      case HeaderCrash =>
        return Unexpected;
      case HeaderOk(n) =>
        id := n;
    }
    conn.Write(HeaderRow(id, datos));
    reply := RunTransaction(conn, id, DetailsOf(datos), insertError, commitError);
  }

  /** The transaction after the header row: on success the pending header and every
      detail row are committed together; on any failure all are rolled back. */
  method RunTransaction(conn: Connection, idVenta: int, dets: seq<Json>,
                        insertError: nat -> Option<string>, commitError: Option<string>)
    returns (reply: Reply)
    modifies conn
    ensures reply == Transaction(idVenta, dets, insertError, commitError)
    ensures conn.pending == []
    ensures reply.Created? ==> forall i :: 0 <= i < |dets| ==> GoodDetail(dets[i])
    ensures reply.Created? ==>
      conn.committed == old(conn.committed) + old(conn.pending) + DetailRows(idVenta, dets)
    ensures !reply.Created? ==> conn.committed == old(conn.committed)
  {
    var refused, rows := ValidateDetails(idVenta, dets);
    if refused.Some? {
      conn.Rollback();
      return RefusalReply(refused.value);
    }
    var failure := InsertDetails(conn, rows, insertError);
    if failure.Some? {
      conn.Rollback();
      return MapDbError(failure.value);
    }
    if commitError.Some? {
      conn.Rollback();
      return MapDbError(commitError.value);
    }
    conn.Commit();
    reply := Created(idVenta, |dets|);
  }

  /** The validation loop of `registrar_venta_completa`: checks each detail in turn,
      numbered from 1, stopping at the first that fails, and collects the rows to
      insert. */
  method ValidateDetails(idVenta: int, dets: seq<Json>) returns (refused: Option<Failure>, rows: seq<DbRow>)
    ensures refused == FirstFault(dets)
    ensures refused.None? ==> rows == DetailRows(idVenta, dets)
  {
    rows := [];
    var i := 0;
    while i < |dets|
      invariant 0 <= i <= |dets|
      invariant forall j :: 0 <= j < i ==> GoodDetail(dets[j])
      invariant |rows| == i && forall j :: 0 <= j < i ==> rows[j] == DetailRow(idVenta, dets[j])
    {
      var fault := DetailFault(dets[i]);
      if fault.Some? {
        FirstFaultAt(dets, i);
        return Some(Failure(i, fault.value)), rows;
      }
      rows := rows + [DetailRow(idVenta, dets[i])];
      i := i + 1;
    }
    refused := None;
  }

  /** The insert loop: writes the rows in order and stops at the first insert the
      database refuses, reporting its message. */
  method InsertDetails(conn: Connection, rows: seq<DbRow>, insertError: nat -> Option<string>)
    returns (failure: Option<string>)
    modifies conn
    ensures failure == FirstInsertError(0, |rows|, insertError)
    ensures failure.None? ==> conn.pending == old(conn.pending) + rows
    ensures conn.committed == old(conn.committed)
  {
    var k := 0;
    while k < |rows|
      invariant 0 <= k <= |rows|
      invariant forall j :: 0 <= j < k ==> insertError(j).None?
      invariant conn.pending == old(conn.pending) + rows[..k]
      invariant conn.committed == old(conn.committed)
    {
      if insertError(k).Some? {
        FirstInsertErrorSkips(0, k, |rows|, insertError);
        return insertError(k);
      }
      conn.Write(rows[k]);
      assert rows[..k + 1] == rows[..k] + [rows[k]];
      k := k + 1;
    }
    assert rows[..k] == rows;
    FirstInsertErrorSkips(0, |rows|, |rows|, insertError);
    failure := None;
  }

  /** Inserts that succeed before position `k` do not decide the first failure. */
  lemma {:induction false} FirstInsertErrorSkips(from: nat, k: nat, n: nat, insertError: nat -> Option<string>)
    requires from <= k <= n
    requires forall j :: from <= j < k ==> insertError(j).None?
    ensures FirstInsertError(from, n, insertError) == FirstInsertError(k, n, insertError)
    decreases k - from
  {
    if from < k {
      FirstInsertErrorSkips(from + 1, k, n, insertError);
    }
  }

  /** The insert error reported is the first one: when inserts `from` .. `k - 1`
      succeed and insert `k` fails, its message is the one reported. */
  lemma FirstInsertErrorIsFirst(from: nat, k: nat, n: nat, insertError: nat -> Option<string>)
    requires from <= k < n && insertError(k).Some?
    requires forall j :: from <= j < k ==> insertError(j).None?
    ensures FirstInsertError(from, n, insertError) == insertError(k)
  {
    FirstInsertErrorSkips(from, k, n, insertError);
  }

  // ---------------------------------------------------------------------------
  // Looking up one sale

  /** What the header query of `obtener_detalle_venta` finds. */
  datatype SaleLookup = Found | NotFound | LookupDbError(message: string)

  datatype DetailReply = SaleDetails(idVenta: nat) | DetailRefused(status: nat, mensaje: string)

  /** `obtener_detalle_venta(id_venta)`: 503 without a connection, 404 naming the number
      when no sale has it, 500 on a database error, else the sale. */
  function LookupSale(idVenta: nat, connected: bool, found: SaleLookup): (r: DetailReply)
    ensures !connected ==> r == DetailRefused(503, NoConnectionText)
    ensures connected && found.NotFound? ==>
      r == DetailRefused(404, "No se encontró la venta con ID " + NatToString(idVenta))
    ensures r.SaleDetails? <==> connected && found.Found?
    ensures r.SaleDetails? ==> r.idVenta == idVenta
  {
    if !connected then DetailRefused(503, NoConnectionText)
    else match found
      case NotFound => DetailRefused(404, "No se encontró la venta con ID " + NatToString(idVenta))
      case LookupDbError(m) => DetailRefused(500, "Error de base de datos: " + m)
      case Found => SaleDetails(idVenta)
  }

  /** Different missing sales are reported with different messages. */
  lemma NotFoundNamesTheSale(a: nat, b: nat)
    requires LookupSale(a, true, NotFound) == LookupSale(b, true, NotFound)
    ensures a == b
  {
    var p := "No se encontró la venta con ID ";
    assert (p + NatToString(a))[|p|..] == NatToString(a);
    assert (p + NatToString(b))[|p|..] == NatToString(b);
    NatToStringInjective(a, b);
  }
}
