/** The sales page: the cached sales history and its search, the medicines offered for
    sale, the form's detail lines with their counter and `Prod #n` captions, and the
    validation that turns the form into the request body of a new sale. The older
    single-file front end repeats the form logic with other messages. */
module Sales {
  import opened Text
  import opened Wrappers
  import opened Lists
  import opened Forms
  import Medicines

  // ---------------------------------------------------------------------------
  // Sales history and its search

  /** A sale as the history endpoint lists it; the names may be null. */
  datatype SaleSummary = SaleSummary(id: int, cliente: Option<string>, empleado: Option<string>)

  /** `(v.cliente || "")` and `(v.empleado || "")`. */
  function OrEmpty(o: Option<string>): string {
    o.GetOr("")
  }

  /** The search test: the lower-cased query occurs in the lower-cased client, the
      lower-cased employee, or the decimal sale number. */
  predicate SaleMatches(v: SaleSummary, query: string) {
    var q := ToLower(query);
    Contains(ToLower(OrEmpty(v.cliente)), q) || Contains(ToLower(OrEmpty(v.empleado)), q) ||
    Contains(IntToString(v.id), q)
  }

  /** `filtrarVentas`: the matching sales in history order. */
  function SearchSales(list: seq<SaleSummary>, query: string): (r: seq<SaleSummary>)
    ensures forall i :: 0 <= i < |r| ==> r[i] in list && SaleMatches(r[i], query)
    ensures forall i :: 0 <= i < |list| && SaleMatches(list[i], query) ==> list[i] in r
    ensures forall v :: multiset(r)[v] == if SaleMatches(v, query) then multiset(list)[v] else 0
  {
    var keep := v => SaleMatches(v, query);
    FilterCounts(list, keep);
    Filter(list, keep)
  }

  /** The search keeps the history's order. */
  lemma SearchSalesOrdered(list: seq<SaleSummary>, query: string)
    ensures IsSubsequence(SearchSales(list, query), list)
  {
    FilterIsSubsequence(list, v => SaleMatches(v, query));
  }

  /** An empty search shows the whole history. */
  lemma EmptySearchKeepsAll(list: seq<SaleSummary>)
    ensures SearchSales(list, "") == list
  {
    forall i | 0 <= i < |list|
      ensures SaleMatches(list[i], "")
    {
      assert IsPrefix("", IntToString(list[i].id));
    }
    FilterKeepsAll(list, v => SaleMatches(v, ""));
  }

  /** Typing a sale's number finds that sale: digits and the minus sign have no case. */
  lemma SearchByNumberFindsSale(list: seq<SaleSummary>, i: int)
    requires 0 <= i < |list|
    ensures list[i] in SearchSales(list, IntToString(list[i].id))
  {
    var t := IntToString(list[i].id);
    ToLowerKeepsCaselessText(t);
    assert IsPrefix(t, t);
  }

  /** `${x}` of a JSON string that may be null. */
  function ShownOrNull(o: Option<string>): string {
    o.GetOr("null")
  }

  datatype SaleRow = SaleRow(number: string, cliente: string, empleado: string)

  const NoSalesText := "No se encontraron ventas."

  /** What the history panel shows: the loading spinner, the empty message or the table. */
  datatype SalesView = Loading | NoSales(text: string) | SalesTable(rows: seq<SaleRow>)

  function SaleRowFor(v: SaleSummary): SaleRow {
    SaleRow("#" + IntToString(v.id), ShownOrNull(v.cliente), ShownOrNull(v.empleado))
  }

  /** `renderVentas`: a message for an empty list, else one row per sale in order. */
  function SalesList(list: seq<SaleSummary>): (view: SalesView)
    ensures !view.Loading?
    ensures view.NoSales? <==> list == []
    ensures view.NoSales? ==> view.text == NoSalesText
    ensures view.SalesTable? ==>
      |view.rows| == |list| && forall i :: 0 <= i < |list| ==> view.rows[i] == SaleRowFor(list[i])
  {
    if list == [] then NoSales(NoSalesText)
    else SalesTable(seq(|list|, i requires 0 <= i < |list| => SaleRowFor(list[i])))
  }

  /** The row loop of `renderVentas`. */
  method RenderSales(list: seq<SaleSummary>) returns (view: SalesView)
    ensures view == SalesList(list)
  {
    if |list| == 0 {
      return NoSales(NoSalesText);
    }
    var rows: seq<SaleRow> := [];
    var i := 0;
    while i < |list|
      invariant 0 <= i <= |list|
      invariant |rows| == i
      invariant forall x :: 0 <= x < i ==> rows[x] == SaleRowFor(list[x])
    {
      rows := rows + [SaleRowFor(list[i])];
      i := i + 1;
    }
    view := SalesTable(rows);
  }

  datatype SalesResponse = Received(estado: string, datos: seq<SaleSummary>) | Failed(message: string)

  /** The history part of the page: the cached `listaVentas` and what is shown. */
  class SalesHistory {
    var cached: seq<SaleSummary>
    var view: SalesView

    constructor ()
      ensures cached == [] && view == NoSales(NoSalesText)
    {
      cached := [];
      view := NoSales(NoSalesText);
    }

    /** `cargarVentas`: the panel shows the spinner first; only a successful answer
        replaces the cache and the spinner with the table, anything else leaves the
        cache as it was and the spinner on screen. */
    method Load(resp: SalesResponse)
      modifies this
      ensures resp.Received? && resp.estado == "exito" ==>
        cached == resp.datos && view == SalesList(resp.datos)
      ensures !(resp.Received? && resp.estado == "exito") ==>
        cached == old(cached) && view == Loading
    {
      view := Loading;
      if resp.Received? && resp.estado == "exito" {
        cached := resp.datos;
        view := RenderSales(cached);
      }
    }

    /** `filtrarVentas`: the cache stays, the matches are shown. */
    method Search(query: string)
      modifies this
      ensures cached == old(cached)
      ensures view == SalesList(SearchSales(cached, query))
    {
      view := RenderSales(SearchSales(cached, query));
    }
  }

  // ---------------------------------------------------------------------------
  // Medicines offered for sale

  /** `data.datos.filter(m => m.estado === "Activo")`. */
  function Sellable(list: seq<Medicines.Medicine>): (r: seq<Medicines.Medicine>)
    ensures forall i :: 0 <= i < |r| ==> r[i] in list && r[i].estado == "Activo"
    ensures forall i :: 0 <= i < |list| && list[i].estado == "Activo" ==> list[i] in r
    ensures forall m :: multiset(r)[m] == if m.estado == "Activo" then multiset(list)[m] else 0
  {
    var active := (m: Medicines.Medicine) => m.estado == "Activo";
    FilterCounts(list, active);
    Filter(list, active)
  }

  /** The offered medicines keep the catalogue's order. */
  lemma SellableOrdered(list: seq<Medicines.Medicine>)
    ensures IsSubsequence(Sellable(list), list)
  {
    FilterIsSubsequence(list, (m: Medicines.Medicine) => m.estado == "Activo");
  }

  // ---------------------------------------------------------------------------
  // Detail lines

  /** `Prod #n`. */
  function ProdCaption(n: nat): string {
    "Prod #" + NatToString(n)
  }

  /** Different positions get different captions. */
  lemma ProdCaptionInjective(a: nat, b: nat)
    requires ProdCaption(a) == ProdCaption(b)
    ensures a == b
  {
    assert ProdCaption(a)[6..] == NatToString(a);
    assert ProdCaption(b)[6..] == NatToString(b);
    NatToStringInjective(a, b);
  }

  /** One detail line of the form: the number it was created with (used in its element
      ids), its caption, the selected medicine, the quantity and the read-only price. */
  datatype DetailLine = DetailLine(id: nat, caption: string, medicine: Entry, quantity: Entry, price: Reading)

  /** A new line: no medicine chosen, quantity 1, no price yet. */
  function NewLine(id: nat): DetailLine {
    DetailLine(id, ProdCaption(id), Entry("", NaN, NoInt), Entry("1", Finite(1.0), Int(1)), NaN)
  }

  /** The lines' creation numbers strictly increase down the form. */
  predicate IdsIncreasing(lines: seq<DetailLine>) {
    forall i, j :: 0 <= i < j < |lines| ==> lines[i].id < lines[j].id
  }

  /** `renumerarProductos`: the line at position `i` (from 0) is captioned `Prod #(i+1)`,
      nothing else about it changes. */
  function Renumbered(lines: seq<DetailLine>): (r: seq<DetailLine>)
    ensures |r| == |lines|
    ensures forall i :: 0 <= i < |r| ==> r[i] == lines[i].(caption := ProdCaption(i + 1))
  {
    seq(|lines|, i requires 0 <= i < |lines| => lines[i].(caption := ProdCaption(i + 1)))
  }

  /** Removal of the line with creation number `id`; the others keep their order. */
  function WithoutLine(lines: seq<DetailLine>, id: nat): (r: seq<DetailLine>)
    ensures |r| <= |lines|
    ensures forall i :: 0 <= i < |r| ==> r[i] in lines && r[i].id != id
    ensures forall i :: 0 <= i < |lines| && lines[i].id != id ==> lines[i] in r
  {
    Filter(lines, (l: DetailLine) => l.id != id)
  }

  /** Removing a line keeps every remaining number above a bound all numbers were
      above. */
  lemma WithoutLineAbove(lines: seq<DetailLine>, id: nat, bound: int)
    requires forall i :: 0 <= i < |lines| ==> bound < lines[i].id
    ensures forall i :: 0 <= i < |WithoutLine(lines, id)| ==> bound < WithoutLine(lines, id)[i].id
  {
  }

  /** A line numbered below every line of an increasing list can lead it. */
  lemma ConsIncreasing(first: DetailLine, rest: seq<DetailLine>)
    requires IdsIncreasing(rest)
    requires forall i :: 0 <= i < |rest| ==> first.id < rest[i].id
    ensures IdsIncreasing([first] + rest)
  {
    var r := [first] + rest;
    forall i, j | 0 <= i < j < |r|
      ensures r[i].id < r[j].id
    {
      assert r[j] == rest[j - 1];
      if i > 0 {
        assert r[i] == rest[i - 1];
      }
    }
  }

  /** Removing a line keeps the remaining numbers in increasing order. */
  lemma {:induction false} WithoutLineIncreasing(lines: seq<DetailLine>, id: nat)
    requires IdsIncreasing(lines)
    ensures IdsIncreasing(WithoutLine(lines, id))
    decreases |lines|
  {
    if lines != [] {
      var tail := lines[1..];
      WithoutLineIncreasing(tail, id);
      var rest := WithoutLine(tail, id);
      var r := WithoutLine(lines, id);
      if lines[0].id != id {
        assert r == [lines[0]] + rest;
        assert forall i :: 0 <= i < |tail| ==> lines[0].id < tail[i].id by {
          forall i | 0 <= i < |tail|
            ensures lines[0].id < tail[i].id
          {
            assert tail[i] == lines[i + 1];
          }
        }
        WithoutLineAbove(tail, id, lines[0].id);
        ConsIncreasing(lines[0], rest);
      } else {
        assert r == rest;
      }
    }
  }

  /** The form's detail section and the counter behind the line numbers. */
  class SaleForm {
    var counter: nat
    var lines: seq<DetailLine>
    var available: seq<Medicines.Medicine>

    /** Every line was numbered by the counter, once, in order. */
    predicate Valid()
      reads this
    {
      IdsIncreasing(lines) && forall i :: 0 <= i < |lines| ==> 1 <= lines[i].id <= counter
    }

    /** Captions follow positions. */
    predicate Numbered()
      reads this
    {
      forall i :: 0 <= i < |lines| ==> lines[i].caption == ProdCaption(i + 1)
    }

    constructor ()
      ensures counter == 0 && lines == [] && available == []
      ensures Valid() && Numbered()
    {
      counter := 0;
      lines := [];
      available := [];
    }

    /** `cargarMedicamentosVenta`: a successful answer replaces the offered medicines
        with its active ones; anything else leaves them. */
    method LoadAvailable(resp: Medicines.ListResponse)
      modifies this
      ensures resp.Received? && resp.estado == "exito" ==> available == Sellable(resp.datos)
      ensures !(resp.Received? && resp.estado == "exito") ==> available == old(available)
      ensures counter == old(counter) && lines == old(lines)
    {
      if resp.Received? && resp.estado == "exito" {
        available := Sellable(resp.datos);
      }
    }

    /** `renumerarProductos`. */
    method Renumber()
      modifies this
      ensures lines == Renumbered(old(lines))
      ensures counter == old(counter) && available == old(available)
      ensures Numbered()
    {
      var i := 0;
      while i < |lines|
        invariant 0 <= i <= |lines| == |old(lines)|
        invariant counter == old(counter) && available == old(available)
        invariant forall x :: 0 <= x < i ==> lines[x] == old(lines)[x].(caption := ProdCaption(x + 1))
        invariant forall x :: i <= x < |lines| ==> lines[x] == old(lines)[x]
      {
        lines := lines[i := lines[i].(caption := ProdCaption(i + 1))];
        i := i + 1;
      }
    }

    /** `agregarDetalle`: the counter goes up by one and names a new last line. */
    method AddLine()
      requires Valid()
      modifies this
      ensures counter == old(counter) + 1
      ensures lines == Renumbered(old(lines) + [NewLine(counter)])
      ensures available == old(available)
      ensures Valid() && Numbered()
    {
      counter := counter + 1;
      lines := lines + [NewLine(counter)];
      Renumber();
    }

    /** `eliminarDetalle(id)`: the line goes (if it is there); the counter stays, so
        the next line never reuses a number while the form lives. */
    method RemoveLine(id: nat)
      requires Valid()
      modifies this
      ensures counter == old(counter)
      ensures lines == Renumbered(WithoutLine(old(lines), id))
      ensures available == old(available)
      ensures Valid() && Numbered()
    {
      WithoutLineIncreasing(lines, id);
      lines := WithoutLine(lines, id);
      Renumber();
    }

    /** `limpiarFormularioVenta`: no lines and the counter back at 0. */
    method Clear()
      modifies this
      ensures counter == 0 && lines == []
      ensures available == old(available)
      ensures Valid() && Numbered()
    {
      lines := [];
      counter := 0;
    }
  }

  /** Lines of a valid form have pairwise different numbers, and a numbered form's
      captions are pairwise different. */
  lemma LinesDistinct(lines: seq<DetailLine>, i: int, j: int)
    requires IdsIncreasing(lines)
    requires forall x :: 0 <= x < |lines| ==> lines[x].caption == ProdCaption(x + 1)
    requires 0 <= i < |lines| && 0 <= j < |lines| && i != j
    ensures lines[i].id != lines[j].id
    ensures lines[i].caption != lines[j].caption
  {
    if lines[i].caption == lines[j].caption {
      ProdCaptionInjective(i + 1, j + 1);
    }
  }

  // ---------------------------------------------------------------------------
  // Submitting a sale

  /** The three warnings of a refused sale; the two front ends word them differently. */
  datatype SaleMessages = SaleMessages(missing: string, dni: string, products: string)

  const ModuleMessages := SaleMessages(
    "Por favor complete todos los datos",
    "El DNI debe tener 8 dígitos",
    "Debe agregar productos válidos a la venta")

  const LegacyMessages := SaleMessages(
    "Por favor complete los datos del cliente y seleccione un empleado.",
    "Error: El DNI debe tener exactamente 8 dígitos numéricos.",
    "Agregue productos válidos")

  /** The client fields as typed. */
  datatype ClientFields = ClientFields(dni: string, nombre: string, apellidoPaterno: string, apellidoMaterno: string)

  /** The request body of a new sale as the form builds it. */
  datatype ClientPayload = ClientPayload(dni: string, nombre: string, apellidoPaterno: string, apellidoMaterno: string)
  datatype DetailPayload = DetailPayload(idMedicamento: IntReading, cantidad: IntReading, precioUnitarioVenta: Reading)
  datatype SalePayload = SalePayload(
    cliente: ClientPayload, dniEmpleado: string, totalVenta: Reading, detalles: seq<DetailPayload>)

  datatype SaleDecision = Refused(message: string) | Submit(payload: SalePayload)

  /** A line the form accepts: a medicine is chosen and the quantity parses to a
      non-zero integer. */
  predicate LineAccepted(l: DetailLine) {
    Filled(l.medicine) && !IntFalsy(l.quantity)
  }

  function DetailOf(l: DetailLine): DetailPayload {
    DetailPayload(l.medicine.integer, l.quantity.integer, l.price)
  }

  predicate AllAccepted(lines: seq<DetailLine>) {
    forall i :: 0 <= i < |lines| ==> LineAccepted(lines[i])
  }

  /** The loop of `procesarVenta`: one payload entry per line, in order, and whether
      every line was accepted. */
  method CollectDetails(lines: seq<DetailLine>) returns (detalles: seq<DetailPayload>, valido: bool)
    ensures |detalles| == |lines|
    ensures forall i :: 0 <= i < |lines| ==> detalles[i] == DetailOf(lines[i])
    ensures valido <==> AllAccepted(lines)
  {
    detalles := [];
    valido := true;
    var i := 0;
    while i < |lines|
      invariant 0 <= i <= |lines|
      invariant |detalles| == i
      invariant forall x :: 0 <= x < i ==> detalles[x] == DetailOf(lines[x])
      invariant valido <==> forall x :: 0 <= x < i ==> LineAccepted(lines[x])
    {
      var l := lines[i];
      if !Filled(l.medicine) || IntFalsy(l.quantity) {
        valido := false;
      }
      detalles := detalles + [DetailOf(l)];
      i := i + 1;
    }
  }

  /** The DNI, first name and paternal surname are non-blank after trimming and an
      employee is chosen; the maternal surname may be blank. */
  predicate ClientComplete(client: ClientFields, employee: string) {
    Trim(client.dni) != "" && Trim(client.nombre) != "" && Trim(client.apellidoPaterno) != "" &&
    employee != ""
  }

  function ClientOf(client: ClientFields): ClientPayload {
    ClientPayload(Trim(client.dni), Trim(client.nombre), Trim(client.apellidoPaterno),
                  Trim(client.apellidoMaterno))
  }

  /** What `procesarVenta` decides, checking in this order: the client is complete; the
      trimmed DNI is 8 characters long, whatever they are; there are lines and every
      one is accepted. Then the body carries the trimmed client fields, the employee's
      DNI as selected, the total, and one entry per line in form order. */
  function Decide(client: ClientFields, employee: string, total: Reading,
                  lines: seq<DetailLine>, msgs: SaleMessages): (d: SaleDecision)
    ensures !ClientComplete(client, employee) ==> d == Refused(msgs.missing)
    ensures ClientComplete(client, employee) && |Trim(client.dni)| != 8 ==> d == Refused(msgs.dni)
    ensures (ClientComplete(client, employee) && |Trim(client.dni)| == 8 &&
             !(|lines| > 0 && AllAccepted(lines))) ==> d == Refused(msgs.products)
    ensures d.Submit? <==>
      ClientComplete(client, employee) && |Trim(client.dni)| == 8 && |lines| > 0 && AllAccepted(lines)
    ensures d.Submit? ==>
      d.payload.cliente == ClientOf(client) && d.payload.dniEmpleado == employee &&
      d.payload.totalVenta == total && |d.payload.detalles| == |lines| &&
      forall i :: 0 <= i < |lines| ==> d.payload.detalles[i] == DetailOf(lines[i])
  {
    if !ClientComplete(client, employee) then Refused(msgs.missing)
    else if |Trim(client.dni)| != 8 then Refused(msgs.dni)
    else if !AllAccepted(lines) || |lines| == 0 then Refused(msgs.products)
    else Submit(SalePayload(ClientOf(client), employee, total,
                            seq(|lines|, i requires 0 <= i < |lines| => DetailOf(lines[i]))))
  }

  /** `procesarVenta` up to the request. */
  method ProcessSale(client: ClientFields, employee: string, total: Reading,
                     lines: seq<DetailLine>, msgs: SaleMessages) returns (d: SaleDecision)
    ensures d == Decide(client, employee, total, lines, msgs)
  {
    var dni := Trim(client.dni);
    var nombre := Trim(client.nombre);
    var paterno := Trim(client.apellidoPaterno);
    var materno := Trim(client.apellidoMaterno);
    if dni == "" || nombre == "" || paterno == "" || employee == "" {
      return Refused(msgs.missing);
    }
    assert ClientComplete(client, employee);
    if |dni| != 8 {
      return Refused(msgs.dni);
    }
    var detalles, valido := CollectDetails(lines);
    if !valido || |detalles| == 0 {
      return Refused(msgs.products);
    }
    d := Submit(SalePayload(ClientPayload(dni, nombre, paterno, materno), employee, total, detalles));
  }

  /** Only the DNI's length is checked: eight letters pass. */
  lemma DniLengthOnly(client: ClientFields, employee: string, total: Reading, lines: seq<DetailLine>)
    requires client.dni == "abcdefgh"
    requires Trim(client.nombre) != "" && Trim(client.apellidoPaterno) != "" && employee != ""
    requires |lines| > 0 && AllAccepted(lines)
    ensures Decide(client, employee, total, lines, ModuleMessages).Submit?
  {
    assert !IsSpace(client.dni[0]) && !IsSpace(client.dni[7]);
    assert Trim(client.dni) == client.dni;
  }

  /** The maternal surname never decides the outcome. */
  lemma MaternalSurnameOptional(client: ClientFields, materno: string, employee: string, total: Reading,
                                lines: seq<DetailLine>, msgs: SaleMessages)
    ensures Decide(client, employee, total, lines, msgs).Submit? ==
      Decide(client.(apellidoMaterno := materno), employee, total, lines, msgs).Submit?
  {
  }

  /** A line whose quantity parses to 0 refuses the sale, even with a medicine chosen. */
  lemma ZeroQuantityRefused(client: ClientFields, employee: string, total: Reading,
                            lines: seq<DetailLine>, k: int, msgs: SaleMessages)
    requires 0 <= k < |lines| && lines[k].quantity.integer == Int(0)
    ensures Decide(client, employee, total, lines, msgs).Refused?
  {
  }
}
