/** The report renderer of the older single-file front end: every column is titled by
    its raw name, and every row shows its own values in its own key order, with no
    dictionary, classification or formatting. */
module Legacy {
  import opened Text
  import opened Reports
  import opened Utils

  /** What the results container shows: an alert, or a table of header texts and
      body cell texts. */
  datatype LegacyView = Alert(html: string) | Grid(header: seq<string>, body: seq<seq<string>>)

  const NoDataMessage := "No hay datos"

  function ErrorMessage(message: string): string {
    "Error: " + message
  }

  /** `Object.values(r)` shown through a template literal: one text per field of the row
      itself, in its own order; a null shows as `null`. */
  function RowTexts(r: Row): (texts: seq<string>)
    ensures |texts| == |r|
    ensures forall j :: 0 <= j < |r| ==> texts[j] == Shown(r[j].value)
  {
    seq(|r|, j requires 0 <= j < |r| => Shown(r[j].value))
  }

  function LegacyHeader(keys: seq<string>): (header: seq<string>)
    ensures |header| == |keys|
    ensures forall j :: 0 <= j < |keys| ==> header[j] == FallbackLabel(keys[j])
  {
    seq(|keys|, j requires 0 <= j < |keys| => FallbackLabel(keys[j]))
  }

  /** The legacy report: a table only for a successful answer with rows; its header is
      the first row's keys with underscores as spaces, upper-cased; every body row holds
      that row's own values, so its length is that row's own field count. Otherwise
      an info alert, or an error alert carrying the failure's message. */
  function LegacyReport(resp: Response): (v: LegacyView)
    ensures v.Grid? <==> resp.Received? && resp.estado == "exito" && |resp.datos| > 0
    ensures resp.Failed? ==> v == Alert(AlertMarkup("error", ErrorMessage(resp.message)))
    ensures resp.Received? && !(resp.estado == "exito" && |resp.datos| > 0) ==>
      v == Alert(AlertMarkup("info", NoDataMessage))
    ensures v.Grid? ==>
      |v.header| == |resp.datos[0]| &&
      (forall j :: 0 <= j < |v.header| ==> v.header[j] == FallbackLabel(resp.datos[0][j].key)) &&
      |v.body| == |resp.datos| &&
      (forall i :: 0 <= i < |v.body| ==> v.body[i] == RowTexts(resp.datos[i]))
  {
    match resp
    case Failed(m) => Alert(AlertMarkup("error", ErrorMessage(m)))
    case Received(estado, datos) =>
      if estado == "exito" && |datos| > 0 then
        Grid(LegacyHeader(Keys(datos[0])),
             seq(|datos|, i requires 0 <= i < |datos| => RowTexts(datos[i])))
      else Alert(AlertMarkup("info", NoDataMessage))
  }

  /** The legacy `cargarReporte` after the fetch: the header loop over the first row's
      keys, then one loop per row over that row's values. */
  method RenderLegacyReport(resp: Response) returns (v: LegacyView)
    ensures v == LegacyReport(resp)
  {
    match resp {
      case Failed(m) =>
        v := Alert(AlertMarkup("error", ErrorMessage(m)));
      case Received(estado, datos) =>
        if estado == "exito" && |datos| > 0 {
          var first := datos[0];
          var header: seq<string> := [];
          var j := 0;
          while j < |first|
            invariant 0 <= j <= |first|
            invariant header == LegacyHeader(Keys(first))[..j]
          {
            header := header + [FallbackLabel(first[j].key)];
            j := j + 1;
          }
          var body: seq<seq<string>> := [];
          var i := 0;
          while i < |datos|
            invariant 0 <= i <= |datos|
            invariant |body| == i
            invariant forall x :: 0 <= x < i ==> body[x] == RowTexts(datos[x])
          {
            var r := datos[i];
            var cells: seq<string> := [];
            var c := 0;
            while c < |r|
              invariant 0 <= c <= |r|
              invariant cells == RowTexts(r)[..c]
            {
              cells := cells + [Shown(r[c].value)];
              c := c + 1;
            }
            body := body + [cells];
            i := i + 1;
          }
          v := Grid(header, body);
        } else {
          v := Alert(AlertMarkup("info", NoDataMessage));
        }
    }
  }

  /** Rows are not aligned to the header: a later row with fewer fields than the first
      renders fewer cells than there are column titles. */
  lemma RaggedRows()
    ensures var resp := Received("exito", [
        [Field("id", Num("1")), Field("nombre", Str("A"))],
        [Field("id", Num("2"))]]);
      var v := LegacyReport(resp);
      v.Grid? && |v.header| == 2 && |v.body[1]| == 1
  {
    var resp := Received("exito", [
        [Field("id", Num("1")), Field("nombre", Str("A"))],
        [Field("id", Num("2"))]]);
    assert |resp.datos[1]| == 1;
  }

  /** Nor are values matched to columns by name: a later row whose fields come in
      another order shows them in that order. */
  lemma ValuesFollowRowOrder(a: Field, b: Field, c: Field, d: Field)
    ensures var v := LegacyReport(Received("exito", [[a, b], [d, c]]));
      v.Grid? && v.body[1] == [Shown(d.value), Shown(c.value)]
  {
    var r := [d, c];
    assert RowTexts(r) == [Shown(d.value), Shown(c.value)];
  }

  /** A column the dictionary does not know, whose upper-cased name carries no
      aggregate marker, gets the same title in both renderers; a known one may not. */
  lemma LegacyTitleMatchesFallback(k: string)
    requires Dictionary(k).None? && MarkerFree(FallbackLabel(k))
    ensures LegacyHeader([k])[0] == Label(k)
  {
    MarkerFreeHasNoMarker(FallbackLabel(k));
  }

  /** A null value reads `null` in the legacy table where the newer one shows `-`. */
  lemma NullCellsDiffer(k: string, fmt: Formatting)
    requires !IsMoney(k) && !IsDateKey(k)
    ensures RowTexts([Field(k, Null)])[0] == "null"
    ensures CellFor(k, Null, fmt).text == "-"
  {
  }
}
