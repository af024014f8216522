/** The report table renderer of the reports page (`cargarReporte`): the columns come
    from the first row's keys; each key gets a display label and a classification
    (money, date, numeric or plain) from its name; each body cell gets its text,
    alignment and emphasis from that classification and the cell's runtime value.
    The table is modelled as a view of header and body cells rather than as HTML text. */
module Reports {
  import opened Text
  import opened Wrappers

  /** A value in a report row as the JSON response delivers it. `Num` carries the
      decimal text JavaScript prints for the number; `Undefined` is what `r[k]`
      yields for a key the row does not have. */
  datatype Value = Null | Undefined | Str(s: string) | Num(shown: string)

  datatype Field = Field(key: string, value: Value)

  /** One report row: its fields in the order `Object.keys` lists them. */
  type Row = seq<Field>

  function Keys(r: Row): seq<string> {
    seq(|r|, i requires 0 <= i < |r| => r[i].key)
  }

  /** `r[k]`: the value of the field named `k`, `Undefined` when there is none. */
  function Get(r: Row, k: string): Value {
    if r == [] then Undefined else if r[0].key == k then r[0].value else Get(r[1..], k)
  }

  /** `${v}`: the text a template literal shows for a value. */
  function Shown(v: Value): string {
    match v
    case Null => "null"
    case Undefined => "undefined"
    case Str(s) => s
    case Num(t) => t
  }

  // ---------------------------------------------------------------------------
  // Labels

  /** A label free of all three aggregate markers. Each marker holds a parenthesis and
      an upper-case letter (S, O, G) that such a label may lack. */
  predicate MarkerFree(s: string) {
    ('(' !in s || 'S' !in s) && ('(' !in s || 'O' !in s) && ('(' !in s || 'G' !in s)
  }

  /** `diccionariosReporte[k]`: the display label of a known column name. */
  function Dictionary(k: string): Option<string> {
    match k
    case "nombre" => Some("Producto")
    case "stock" => Some("Stock")
    case "precio_venta" => Some("Precio Venta")
    case "total_venta" => Some("Total Vendido")
    case "id_venta" => Some("Nro. Venta")
    case "fecha_vencimiento" => Some("Fecha de vencimiento")
    case "contacto_telefono" => Some("Teléfono")
    case "lote" => Some("Lote")
    case "estado" => Some("Estado")
    case "cantidad" => Some("Cant.")
    case "medicamento" => Some("Medicamento")
    case "categoria" => Some("Categoría")
    case "proveedor" => Some("Proveedor")
    case "precio_compra" => Some("P. Compra")
    case "ganancia_unitaria" => Some("Ganancia Unit.")
    case "margen_pct" => Some("Margen %")
    case "margen_porcentaje" => Some("Margen %")
    case "ubicacion" => Some("Ubicación")
    case "stock_remanente" => Some("Stock Remanente")
    case "dias" => Some("Días Restantes")
    case "dias_restantes" => Some("Días Restantes")
    case "id_proveedor" => Some("Proveedor")
    case "empleado" => Some("Empleado")
    case "total_ventas" => Some("N° Ventas")
    case "total_monto" => Some("Total Recaudado")
    case "total_dinero" => Some("Total Recaudado")
    case "cliente" => Some("Cliente")
    case "total_compras" => Some("N° Compras")
    case "gastado" => Some("Total Gastado")
    case "total_vendido" => Some("Unidades Vendidas")
    case "mes" => Some("Mes")
    case "num_ventas" => Some("Transacciones")
    case "total_mes" => Some("Total Caja")
    case "ingresos_totales" => Some("Ingresos (Ventas)")
    case "costo_estimado" => Some("Costo Mercadería")
    case "ganancia_bruta" => Some("Ganancia Neta")
    case "productos_vendidos" => Some("Prod. Vendidos")
    case "num_transacciones" => Some("Cant. Ventas (Tickets)")
    case "total_generado" => Some("Dinero Generado")
    case "unidades_vendidas" => Some("Unidades Vendidas")
    case "compras_totales" => Some("Veces que compró")
    case "vence" => Some("Fecha Vencimiento")
    case "precio_promedio" => Some("Precio Promedio")
    case _ => None
  }

  /** The label of a column the dictionary does not know: underscores become spaces,
      then everything is upper-cased. */
  function FallbackLabel(k: string): (r: string)
    ensures |r| == |k|
    ensures '_' !in r
    ensures forall i :: 0 <= i < |r| ==> !IsLowerLetter(r[i])
  {
    ToUpper(ReplaceUnderscores(k))
  }

  /** The three aggregate markers, tried in order; a label that contains the first is
      replaced by `Total`, and no later marker can match a replaced label, so the
      first marker present decides. */
  function NormalizeLabel(caption: string): (r: string)
    ensures Contains(caption, "SUM(") ==> r == "Total"
    ensures !Contains(caption, "SUM(") && Contains(caption, "COUNT(") ==> r == "Cantidad"
    ensures !Contains(caption, "SUM(") && !Contains(caption, "COUNT(") && Contains(caption, "AVG(")
      ==> r == "Promedio"
    ensures !Contains(caption, "SUM(") && !Contains(caption, "COUNT(") && !Contains(caption, "AVG(")
      ==> r == caption
  {
    LacksCharNotContains("Total", "COUNT(", '(');
    LacksCharNotContains("Total", "AVG(", '(');
    LacksCharNotContains("Cantidad", "AVG(", '(');
    var afterSum := if Contains(caption, "SUM(") then "Total" else caption;
    var afterCount := if Contains(afterSum, "COUNT(") then "Cantidad" else afterSum;
    if Contains(afterCount, "AVG(") then "Promedio" else afterCount
  }

  /** A marker-free label contains none of the markers. */
  lemma MarkerFreeHasNoMarker(s: string)
    requires MarkerFree(s)
    ensures !Contains(s, "SUM(") && !Contains(s, "COUNT(") && !Contains(s, "AVG(")
  {
    if '(' in s {
      LacksCharNotContains(s, "SUM(", 'S');
      LacksCharNotContains(s, "COUNT(", 'O');
      LacksCharNotContains(s, "AVG(", 'G');
    } else {
      LacksCharNotContains(s, "SUM(", '(');
      LacksCharNotContains(s, "COUNT(", '(');
      LacksCharNotContains(s, "AVG(", '(');
    }
  }

  /** The header label of column `k`: its dictionary entry when there is one, else the
      fallback label; either is then normalised. A dictionary label free of markers is
      shown as it is. */
  function Label(k: string): (r: string)
    ensures Dictionary(k).Some? && MarkerFree(Dictionary(k).value) ==> r == Dictionary(k).value
    ensures Dictionary(k).None? ==> r == NormalizeLabel(FallbackLabel(k))
  {
    match Dictionary(k)
    case Some(known) =>
      if MarkerFree(known) then MarkerFreeHasNoMarker(known); NormalizeLabel(known)
      else NormalizeLabel(known)
    case None => NormalizeLabel(FallbackLabel(k))
  }

  lemma IdLoteSpaced()
    ensures ReplaceUnderscores("id_lote") == "id lote"
  {
  }

  lemma IdLoteUpper()
    ensures ToUpper("id lote") == "ID LOTE"
  {
  }

  lemma IdLoteMarkerFree()
    ensures MarkerFree("ID LOTE")
  {
  }

  /** A name outside the dictionary is upper-cased with its underscores as spaces. */
  lemma FallbackLabelExample()
    ensures NormalizeLabel(FallbackLabel("id_lote")) == "ID LOTE"
  {
    IdLoteSpaced();
    IdLoteUpper();
    IdLoteMarkerFree();
    MarkerFreeHasNoMarker("ID LOTE");
  }

  /** A summing column outside the dictionary is shown as a total. */
  lemma SumLabel()
    ensures NormalizeLabel(FallbackLabel("sum(x)")) == "Total"
  {
    SumSpaced();
    SumUpper();
    assert "SUM(X)"[0..4] == "SUM(";
    ContainsAt("SUM(X)", "SUM(", 0);
  }

  lemma SumSpaced()
    ensures ReplaceUnderscores("sum(x)") == "sum(x)"
  {
  }

  lemma SumUpper()
    ensures ToUpper("sum(x)") == "SUM(X)"
  {
  }

  // ---------------------------------------------------------------------------
  // Classification by column name (case-sensitive, on the key, not on the label)

  /** A money column: its name holds one of seven fragments or is one of four names. */
  predicate IsMoney(k: string) {
    Contains(k, "precio") || Contains(k, "ganancia") || Contains(k, "gastado") ||
    Contains(k, "monto") || Contains(k, "caja") || Contains(k, "subtotal") ||
    Contains(k, "ingresos") ||
    k == "total_venta" || k == "total_mes" || k == "total_monto" || k == "total_dinero"
  }

  /** A column whose name marks it as a count or quantity. */
  predicate IsNumericName(k: string) {
    Contains(k, "stock") || Contains(k, "cantidad") || Contains(k, "total") ||
    Contains(k, "dias") || k == "num_ventas" || k == "total_ventas"
  }

  /** A column whose values are dates. */
  predicate IsDateKey(k: string) {
    Contains(k, "fecha") || Contains(k, "vencimiento")
  }

  datatype HeaderCell = HeaderCell(caption: string, rightAligned: bool)

  /** The header cell of column `k`: right-aligned by name alone. */
  function HeaderFor(k: string): (h: HeaderCell)
    ensures h.caption == Label(k)
    ensures h.rightAligned <==> IsMoney(k) || IsNumericName(k)
  {
    HeaderCell(Label(k), IsMoney(k) || IsNumericName(k))
  }

  // ---------------------------------------------------------------------------
  // Body cells

  /** A calendar date in UTC, as a parsed `Date` holds it. */
  datatype CalendarDate = CalendarDate(year: int, month: nat, day: nat)

  /** The floating-point and date conversions the renderer calls, taken as given:
      `toFixed2(v)` is `parseFloat(v).toFixed(2)`, and `parseDate(v)` is the UTC
      calendar date of `new Date(v)`, or `None` when that date is invalid. */
  datatype Formatting = Formatting(toFixed2: Value -> string, parseDate: Value -> Option<CalendarDate>)

  /** `toISOString().split("T")[0]`: the date part of the ISO 8601 rendering, with a
      six-digit signed year outside 0000..9999 as ECMAScript prescribes. */
  function IsoDatePart(d: CalendarDate): string {
    var year :=
      if 0 <= d.year <= 9999 then ZeroPad(d.year, 4)
      else (if d.year < 0 then "-" else "+") + ZeroPad(if d.year < 0 then -d.year else d.year, 6);
    year + "-" + ZeroPad(d.month, 2) + "-" + ZeroPad(d.day, 2)
  }

  /** A date with a four-digit year renders as `YYYY-MM-DD`: ten characters, dashes
      at positions 4 and 7, digits everywhere else. */
  lemma IsoDatePartShape(d: CalendarDate)
    requires 0 <= d.year <= 9999 && 1 <= d.month <= 12 && 1 <= d.day <= 31
    ensures var r := IsoDatePart(d);
      |r| == 10 && r[4] == '-' && r[7] == '-' &&
      forall i :: 0 <= i < 10 && i != 4 && i != 7 ==> IsDigit(r[i])
  {
    assert Pow10(4) == 10000 && Pow10(2) == 100;
    NatToStringFits(d.year, 4);
    NatToStringFits(d.month, 2);
    NatToStringFits(d.day, 2);
  }

  /** A rendered body cell: its `class` attribute, whether its text is wrapped in
      `<strong>`, and its text. */
  datatype Cell = Cell(cssClass: string, bold: bool, text: string)

  predicate RightAligned(c: Cell) {
    Contains(c.cssClass, "text-right")
  }

  /** A null cell is shown as a dash before anything else is decided. */
  function Displayed(v: Value): Value {
    if v == Null then Str("-") else v
  }

  /** The money cell's `class` marks it right-aligned and monospaced. */
  lemma MoneyClass()
    ensures Contains("text-right font-mono", "text-right") && Contains("text-right font-mono", "font-mono")
  {
    assert IsPrefix("text-right", "text-right font-mono");
    assert "text-right font-mono"[11..20] == "font-mono";
    ContainsAt("text-right font-mono", "font-mono", 11);
  }

  /** The number cell's `class` marks it right-aligned, not monospaced. */
  lemma NumberClass()
    ensures Contains("text-right", "text-right") && !Contains("text-right", "font-mono")
  {
    assert IsPrefix("text-right", "text-right");
    LacksCharNotContains("text-right", "font-mono", 'f');
  }

  /** An empty `class` marks nothing. */
  lemma PlainClass()
    ensures !Contains("", "text-right") && !Contains("", "font-mono")
  {
    LacksCharNotContains("", "font-mono", 'f');
    LacksCharNotContains("", "text-right", 't');
  }


  /** The body cell for value `raw` in column `k`. Money first (prefixed, bold,
      right-aligned); then dates (the ISO date when the value parses, the value itself
      when it does not); then numbers by runtime type or numeric name (right-aligned);
      everything else plain. */
  function CellFor(k: string, raw: Value, fmt: Formatting): (c: Cell)
    ensures c.bold <==> IsMoney(k)
    ensures RightAligned(c) <==>
      IsMoney(k) || (!IsDateKey(k) && (Displayed(raw).Num? || IsNumericName(k)))
    ensures IsMoney(k) ==> c.text == "S/. " + fmt.toFixed2(Displayed(raw))
    ensures Contains(c.cssClass, "font-mono") <==> IsMoney(k)
    ensures !IsMoney(k) && IsDateKey(k) ==>
      c.text == match fmt.parseDate(Displayed(raw))
                case Some(d) => IsoDatePart(d)
                case None => Shown(Displayed(raw))
    ensures !IsMoney(k) && !IsDateKey(k) ==> c.text == Shown(Displayed(raw))
  {
    MoneyClass();
    NumberClass();
    PlainClass();
    var v := Displayed(raw);
    if IsMoney(k) then
      Cell("text-right font-mono", true, "S/. " + fmt.toFixed2(v))
    else if IsDateKey(k) then
      Cell("", false, match fmt.parseDate(v) case Some(d) => IsoDatePart(d) case None => Shown(v))
    else if v.Num? || IsNumericName(k) then
      Cell("text-right", false, Shown(v))
    else
      Cell("", false, Shown(v))
  }

  /** A null value shows as `-` in every column that is not money, provided (for a
      date column) that `-` does not parse as a date. */
  lemma NullShowsDash(k: string, fmt: Formatting)
    requires !IsMoney(k)
    requires IsDateKey(k) ==> fmt.parseDate(Str("-")) == None
    ensures CellFor(k, Null, fmt).text == "-"
    ensures !RightAligned(CellFor(k, Null, fmt)) <==> !IsNumericName(k) || IsDateKey(k)
  {
  }

  /** Header and body agree on alignment except in two places: a date column's cells
      are never right-aligned even when its name is numeric, and a number in a plainly
      named column is right-aligned under a left-aligned header. */
  lemma HeaderBodyAlignment(k: string, v: Value, fmt: Formatting)
    ensures !IsDateKey(k) && !Displayed(v).Num? ==>
      RightAligned(CellFor(k, v, fmt)) == HeaderFor(k).rightAligned
    ensures IsDateKey(k) && !IsMoney(k) ==> !RightAligned(CellFor(k, v, fmt))
    ensures RightAligned(CellFor(k, v, fmt)) && !HeaderFor(k).rightAligned ==>
      !IsDateKey(k) && Displayed(v).Num?
  {
  }

  // ---------------------------------------------------------------------------
  // The whole report

  /** What the reports endpoint answered: a JSON body with its `estado` and `datos`,
      or a failure of the fetch or of JSON parsing, with its message. */
  datatype Response = Received(estado: string, datos: seq<Row>) | Failed(message: string)

  /** What the results container shows afterwards. */
  datatype ReportView =
    | NoData
    | LoadError(text: string)
    | Table(title: string, header: seq<HeaderCell>, body: seq<seq<Cell>>)

  /** The informational alert shown in place of a table. */
  const NoDataText := "No se encontraron datos para este reporte."

  /** The error alert shown when the request or its parsing throws. */
  function ErrorText(message: string): string {
    "Error al cargar reporte: " + message
  }

  /** The header cells of the columns `keys`, in column order. */
  function HeaderRow(keys: seq<string>): (header: seq<HeaderCell>)
    ensures |header| == |keys|
  {
    if keys == [] then [] else HeaderRow(keys[..|keys| - 1]) + [HeaderFor(keys[|keys| - 1])]
  }

  /** Header cell `j` is the header of column `j`. */
  lemma {:induction false} HeaderRowAt(keys: seq<string>, j: int)
    requires 0 <= j < |keys|
    ensures HeaderRow(keys)[j] == HeaderFor(keys[j])
  {
    if j < |keys| - 1 {
      HeaderRowAt(keys[..|keys| - 1], j);
    }
  }

  lemma HeaderRowCells(keys: seq<string>)
    ensures forall j :: 0 <= j < |keys| ==> HeaderRow(keys)[j] == HeaderFor(keys[j])
  {
    forall j | 0 <= j < |keys|
      ensures HeaderRow(keys)[j] == HeaderFor(keys[j])
    {
      HeaderRowAt(keys, j);
    }
  }

  /** The body cells of row `r` under the columns `keys`, each looked up by name. */
  function BodyRow(r: Row, keys: seq<string>, fmt: Formatting): (cells: seq<Cell>)
    ensures |cells| == |keys|
  {
    if keys == [] then []
    else BodyRow(r, keys[..|keys| - 1], fmt) + [CellFor(keys[|keys| - 1], Get(r, keys[|keys| - 1]), fmt)]
  }

  /** Body cell `j` of a row is that row's value under column `j`, formatted. */
  lemma {:induction false} BodyRowAt(r: Row, keys: seq<string>, fmt: Formatting, j: int)
    requires 0 <= j < |keys|
    ensures BodyRow(r, keys, fmt)[j] == CellFor(keys[j], Get(r, keys[j]), fmt)
  {
    if j < |keys| - 1 {
      BodyRowAt(r, keys[..|keys| - 1], fmt, j);
    }
  }

  /** The body rows of `rows` under the columns `keys`, one per row, in row order. */
  function BodyRows(rows: seq<Row>, keys: seq<string>, fmt: Formatting): (body: seq<seq<Cell>>)
    ensures |body| == |rows|
  {
    if rows == [] then []
    else BodyRows(rows[..|rows| - 1], keys, fmt) + [BodyRow(rows[|rows| - 1], keys, fmt)]
  }

  /** Body row `i` is row `i` rendered. */
  lemma {:induction false} BodyRowsAt(rows: seq<Row>, keys: seq<string>, fmt: Formatting, i: int)
    requires 0 <= i < |rows|
    ensures BodyRows(rows, keys, fmt)[i] == BodyRow(rows[i], keys, fmt)
  {
    if i < |rows| - 1 {
      BodyRowsAt(rows[..|rows| - 1], keys, fmt, i);
    }
  }

  lemma BodyRowsCells(rows: seq<Row>, keys: seq<string>, fmt: Formatting)
    ensures forall i :: 0 <= i < |rows| ==> |BodyRows(rows, keys, fmt)[i]| == |keys|
    ensures forall i, j :: 0 <= i < |rows| && 0 <= j < |keys| ==>
      BodyRows(rows, keys, fmt)[i][j] == CellFor(keys[j], Get(rows[i], keys[j]), fmt)
  {
    forall i | 0 <= i < |rows|
      ensures BodyRows(rows, keys, fmt)[i] == BodyRow(rows[i], keys, fmt)
    {
      BodyRowsAt(rows, keys, fmt, i);
    }
    forall i, j | 0 <= i < |rows| && 0 <= j < |keys|
      ensures BodyRow(rows[i], keys, fmt)[j] == CellFor(keys[j], Get(rows[i], keys[j]), fmt)
    {
      BodyRowAt(rows[i], keys, fmt, j);
    }
  }

  /** The report a response produces: a table only for a successful answer with at
      least one row; its columns are the first row's keys, and every body row has
      exactly one cell per column, looked up by name in that row. */
  function Report(resp: Response, title: string, fmt: Formatting): (v: ReportView)
    ensures v.Table? <==> resp.Received? && resp.estado == "exito" && |resp.datos| > 0
    ensures v.NoData? <==> resp.Received? && !(resp.estado == "exito" && |resp.datos| > 0)
    ensures resp.Failed? ==> v == LoadError(ErrorText(resp.message))
    ensures v.Table? ==> v.title == title
    ensures v.Table? ==>
      var keys := Keys(resp.datos[0]);
      |v.header| == |keys| && |v.body| == |resp.datos| &&
      (forall j :: 0 <= j < |keys| ==> v.header[j] == HeaderFor(keys[j])) &&
      (forall i :: 0 <= i < |v.body| ==> |v.body[i]| == |v.header|) &&
      (forall i, j :: 0 <= i < |v.body| && 0 <= j < |keys| ==>
        v.body[i][j] == CellFor(keys[j], Get(resp.datos[i], keys[j]), fmt))
  {
    match resp
    case Failed(m) => LoadError(ErrorText(m))
    case Received(estado, datos) =>
      if estado == "exito" && |datos| > 0 then
        var keys := Keys(datos[0]);
        HeaderRowCells(keys);
        BodyRowsCells(datos, keys, fmt);
        Table(title, HeaderRow(keys), BodyRows(datos, keys, fmt))
      else NoData
  }

  /** The header loop of `cargarReporte`: one header cell per column, in column order. */
  method RenderHeader(keys: seq<string>) returns (header: seq<HeaderCell>)
    ensures header == HeaderRow(keys)
  {
    header := [];
    var j := 0;
    while j < |keys|
      invariant 0 <= j <= |keys|
      invariant header == HeaderRow(keys[..j])
    {
      assert keys[..j + 1][..j] == keys[..j];
      header := header + [HeaderFor(keys[j])];
      j := j + 1;
    }
    assert keys[..|keys|] == keys;
  }

  /** The inner body loop of `cargarReporte`: one cell per column for row `r`. */
  method RenderRow(r: Row, keys: seq<string>, fmt: Formatting) returns (cells: seq<Cell>)
    ensures cells == BodyRow(r, keys, fmt)
  {
    cells := [];
    var c := 0;
    while c < |keys|
      invariant 0 <= c <= |keys|
      invariant cells == BodyRow(r, keys[..c], fmt)
    {
      assert keys[..c + 1][..c] == keys[..c];
      cells := cells + [CellFor(keys[c], Get(r, keys[c]), fmt)];
      c := c + 1;
    }
    assert keys[..|keys|] == keys;
  }

  /** The outer body loop of `cargarReporte`: one row of cells per data row, in order. */
  method RenderBody(rows: seq<Row>, keys: seq<string>, fmt: Formatting) returns (body: seq<seq<Cell>>)
    ensures body == BodyRows(rows, keys, fmt)
  {
    body := [];
    var i := 0;
    while i < |rows|
      invariant 0 <= i <= |rows|
      invariant body == BodyRows(rows[..i], keys, fmt)
    {
      assert rows[..i + 1][..i] == rows[..i];
      var cells := RenderRow(rows[i], keys, fmt);
      body := body + [cells];
      i := i + 1;
    }
    assert rows[..|rows|] == rows;
  }

  /** `cargarReporte` after the fetch: the header cells, then each row's cells, appended
      in order as the source appends HTML. */
  method RenderReport(resp: Response, title: string, fmt: Formatting) returns (view: ReportView)
    ensures view == Report(resp, title, fmt)
  {
    match resp {
      case Failed(m) =>
        view := LoadError(ErrorText(m));
      case Received(estado, datos) =>
        if estado == "exito" && |datos| > 0 {
          var keys := Keys(datos[0]);
          var header := RenderHeader(keys);
          var body := RenderBody(datos, keys, fmt);
          view := Table(title, header, body);
        } else {
          view := NoData;
        }
    }
  }
}
