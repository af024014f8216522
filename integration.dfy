/** The sale form's request as the back end receives it: the payload the front end
    builds, serialised as JSON, fed to the registration endpoint. */
module Integration {
  import opened Forms
  import Wrappers
  import Sales
  import SalesApi

  /** `JSON.stringify` of a number read from a field: NaN becomes `null`. */
  function NumberJson(r: Reading): (j: SalesApi.Json)
    ensures r.NaN? <==> j.JNull?
    ensures r.Finite? ==> j == SalesApi.JNum(r.value)
  {
    match r
    case NaN => SalesApi.JNull
    case Finite(v) => SalesApi.JNum(v)
  }

  /** `JSON.stringify` of `parseInt` of a field: NaN becomes `null`. */
  function IntegerJson(r: IntReading): (j: SalesApi.Json)
    ensures r.NoInt? <==> j.JNull?
    ensures r.Int? ==> j == SalesApi.JNum(r.value as real)
  {
    match r
    case NoInt => SalesApi.JNull
    case Int(v) => SalesApi.JNum(v as real)
  }

  function ClientJson(c: Sales.ClientPayload): SalesApi.Json {
    SalesApi.JObj(map[
      "dni" := SalesApi.JStr(c.dni),
      "nombre" := SalesApi.JStr(c.nombre),
      "apellido_paterno" := SalesApi.JStr(c.apellidoPaterno),
      "apellido_materno" := SalesApi.JStr(c.apellidoMaterno)])
  }

  /** One detail as sent: the three keys the back end checks, under the names it
      expects. */
  function DetailJson(d: Sales.DetailPayload): (j: SalesApi.Json)
    ensures j.JObj? && SalesApi.HasDetailKeys(j.fields)
  {
    SalesApi.JObj(map[
      "id_medicamento" := IntegerJson(d.idMedicamento),
      "cantidad" := IntegerJson(d.cantidad),
      "precio_unitario_venta" := NumberJson(d.precioUnitarioVenta)])
  }

  /** The request body of `procesarVenta`: the client as a nested object, the
      employee's DNI, the total and the details, under the front end's key names. */
  function SaleJson(p: Sales.SalePayload): (j: SalesApi.Json)
    ensures j.JObj? && j.fields.Keys == {"cliente", "dni_empleado", "total_venta", "detalles"}
  {
    SalesApi.JObj(map[
      "cliente" := ClientJson(p.cliente),
      "dni_empleado" := SalesApi.JStr(p.dniEmpleado),
      "total_venta" := NumberJson(p.totalVenta),
      "detalles" := SalesApi.JArr(seq(|p.detalles|, i requires 0 <= i < |p.detalles| => DetailJson(p.detalles[i])))])
  }

  /** The two sides disagree on key names: the front end sends `cliente` and
      `dni_empleado` where the sales handler requires `id_cliente` and `id_empleado`,
      so the handler refuses every sale the form submits with 400 before any database
      work, whatever the database would have done. (The application as wired does not
      mount the sales blueprint at all; this is the handler's own answer.) */
  lemma SubmittedSaleRefused(p: Sales.SalePayload, connected: bool, header: SalesApi.HeaderOutcome,
                             insertError: nat -> Wrappers.Option<string>, commitError: Wrappers.Option<string>)
    ensures SalesApi.Register(SaleJson(p), connected, header, insertError, commitError) ==
      SalesApi.Refused(400, SalesApi.BadJsonText)
  {
    var j := SaleJson(p);
    assert "cliente" in j.fields;
    assert !SalesApi.HasRequiredKeys(j.fields);
  }

  /** From the form to the handler: whatever the clerk enters, a sale the front end
      decides to submit is never registered by the sales handler, which answers with
      its complaint about the JSON. */
  lemma FormSaleNeverRegistered(client: Sales.ClientFields, employee: string, total: Reading,
                                lines: seq<Sales.DetailLine>, messages: Sales.SaleMessages,
                                connected: bool, header: SalesApi.HeaderOutcome,
                                insertError: nat -> Wrappers.Option<string>, commitError: Wrappers.Option<string>)
    requires Sales.Decide(client, employee, total, lines, messages).Submit?
    ensures var reply := SalesApi.Register(SaleJson(Sales.Decide(client, employee, total, lines, messages).payload),
                                           connected, header, insertError, commitError);
      !reply.Created? && SalesApi.Status(reply) == 400 && reply.mensaje == SalesApi.BadJsonText
  {
    SubmittedSaleRefused(Sales.Decide(client, employee, total, lines, messages).payload,
                         connected, header, insertError, commitError);
  }
}
