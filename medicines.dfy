/** The medicines page: the cached list, the search-and-category filter over it, the
    rendering of each row's status badge and status toggle, and the guards of the
    add-stock dialog. */
module Medicines {
  import opened Text
  import opened Wrappers
  import opened Lists
  import opened Forms

  /** A name field of a medicine as JSON delivers it: missing from the object
      (`undefined`), `null`, or a string. */
  datatype NameField = Absent | Null | Name(s: string)

  /** A medicine as the list endpoint returns it. A missing or null category is
      `None`; the status is always present. */
  datatype Medicine = Medicine(
    id: int,
    medicamento: NameField,
    nombre: NameField,
    categoria: Option<string>,
    estado: string)

  /** A string field is truthy when present and non-empty. */
  predicate Truthy(o: Option<string>) {
    o.Some? && o.value != ""
  }

  predicate NameTruthy(f: NameField) {
    f.Name? && f.s != ""
  }

  /** `m.medicamento || m.nombre`: the first name field when truthy, else the second
      whatever it holds. */
  function DisplayName(m: Medicine): (r: NameField)
    ensures NameTruthy(m.medicamento) ==> r == m.medicamento
    ensures !NameTruthy(m.medicamento) ==> r == m.nombre
  {
    if NameTruthy(m.medicamento) then m.medicamento else m.nombre
  }

  /** `m.categoria || ""`. */
  function CategoryText(m: Medicine): string {
    if Truthy(m.categoria) then m.categoria.value else ""
  }

  // ---------------------------------------------------------------------------
  // Filter

  /** The filter's test: the lower-cased name contains the lower-cased query, and the
      category filter is empty or equals the lower-cased category once lower-cased. */
  predicate Matches(m: Medicine, query: string, cat: string) {
    DisplayName(m).Name? &&
    Contains(ToLower(DisplayName(m).s), ToLower(query)) &&
    (cat == "" || ToLower(CategoryText(m)) == ToLower(cat))
  }

  predicate AllNamed(list: seq<Medicine>) {
    forall i :: 0 <= i < |list| ==> DisplayName(list[i]).Name?
  }

  /** `filtrarMedicamentos`: the matching medicines in list order; `None` when the
      name some medicine shows is `null` or missing, where `toLowerCase` throws before
      any result exists. */
  function FilterMedicines(list: seq<Medicine>, query: string, cat: string): (r: Option<seq<Medicine>>)
    ensures r.Some? <==> AllNamed(list)
    ensures r.Some? ==> forall i :: 0 <= i < |r.value| ==> r.value[i] in list && Matches(r.value[i], query, cat)
    ensures r.Some? ==> forall i :: 0 <= i < |list| && Matches(list[i], query, cat) ==> list[i] in r.value
    ensures r.Some? ==> forall m :: multiset(r.value)[m] == if Matches(m, query, cat) then multiset(list)[m] else 0
  {
    var keep := m => Matches(m, query, cat);
    FilterCounts(list, keep);
    if AllNamed(list) then Some(Filter(list, keep)) else None
  }

  /** The filter keeps the list's order: its result is a subsequence of the list. */
  lemma FilterMedicinesOrdered(list: seq<Medicine>, query: string, cat: string)
    requires AllNamed(list)
    ensures IsSubsequence(FilterMedicines(list, query, cat).value, list)
  {
    FilterIsSubsequence(list, m => Matches(m, query, cat));
  }

  /** An empty query with no category keeps every medicine. */
  lemma EmptyFilterKeepsAll(list: seq<Medicine>)
    requires AllNamed(list)
    ensures FilterMedicines(list, "", "") == Some(list)
  {
    forall i | 0 <= i < |list|
      ensures Matches(list[i], "", "")
    {
      assert IsPrefix("", ToLower(DisplayName(list[i]).s));
    }
    FilterKeepsAll(list, m => Matches(m, "", ""));
  }

  /** Filtering a second time with the same query changes nothing. */
  lemma FilterMedicinesIdempotent(list: seq<Medicine>, query: string, cat: string)
    requires AllNamed(list)
    ensures var once := FilterMedicines(list, query, cat).value;
      FilterMedicines(once, query, cat) == Some(once)
  {
    var p := m => Matches(m, query, cat);
    FilterIdempotent(list, p);
  }

  /** The search ignores case: a medicine whose name contains the query as typed, in
      any letter case, is kept when no category is chosen. */
  lemma NameMatchKept(m: Medicine, query: string)
    requires DisplayName(m).Name? && Contains(DisplayName(m).s, query)
    ensures Matches(m, query, "")
  {
    ContainsToLower(DisplayName(m).s, query);
  }

  // ---------------------------------------------------------------------------
  // Row state

  /** The badge of a status: green for active, red for out of stock, grey otherwise. */
  function Badge(estado: string): (b: string)
    ensures b == "success" <==> estado == "Activo"
    ensures b == "danger" <==> estado == "Agotado"
    ensures b == "secondary" <==> estado != "Activo" && estado != "Agotado"
  {
    if estado == "Activo" then "success" else if estado == "Agotado" then "danger" else "secondary"
  }

  /** The status the row's toggle button requests: an inactive medicine is reactivated,
      every other one (active, out of stock, anything) is deactivated. */
  function ToggleTarget(estado: string): (t: string)
    ensures t == "Activo" <==> estado == "Inactivo"
    ensures t == "Inactivo" <==> estado != "Inactivo"
  {
    if estado == "Inactivo" then "Activo" else "Inactivo"
  }

  /** Toggling twice returns to the start exactly for the two states the toggle moves
      between; an out-of-stock medicine toggled twice comes back active. */
  lemma ToggleTwice(estado: string)
    ensures ToggleTarget(ToggleTarget(estado)) == estado <==> estado == "Activo" || estado == "Inactivo"
    ensures ToggleTarget(ToggleTarget("Agotado")) == "Activo"
  {
  }

  /** The verb of the confirmation question of `alternarEstadoMedicamento`. */
  function ActionWord(target: string): (w: string)
    ensures w == "reactivar" <==> target == "Activo"
    ensures w == "desactivar" <==> target != "Activo"
  {
    if target == "Activo" then "reactivar" else "desactivar"
  }

  /** The question asked before a toggle says `reactivar` exactly for an inactive
      medicine, and the reactivated medicine then shows a green badge. */
  lemma ToggleQuestion(estado: string)
    ensures ActionWord(ToggleTarget(estado)) == "reactivar" <==> estado == "Inactivo"
    ensures estado == "Inactivo" ==> Badge(ToggleTarget(estado)) == "success"
    ensures estado != "Inactivo" ==> Badge(ToggleTarget(estado)) == "secondary"
  {
  }

  // ---------------------------------------------------------------------------
  // Rendering

  /** One table row: the parts of it the code decides (the stock, prices and expiry
      date are copied from the record unchanged and are not modelled). */
  datatype MedicineRow = MedicineRow(
    id: int, name: string, category: string, badge: string, estado: string, toggleTo: string)

  const NoMedicinesText := "No se encontraron medicamentos."
  const LoadErrorText := "Error al cargar."

  datatype MedicinesView = Message(text: string) | Listing(rows: seq<MedicineRow>)

  /** `${med.medicamento || med.nombre}`: the name a template shows; a `null` name
      reads `null` and a missing one `undefined`. */
  function NameText(m: Medicine): (t: string)
    ensures DisplayName(m).Name? ==> t == DisplayName(m).s
    ensures DisplayName(m).Null? ==> t == "null"
    ensures DisplayName(m).Absent? ==> t == "undefined"
  {
    match DisplayName(m)
    case Name(s) => s
    case Null => "null"
    case Absent => "undefined"
  }

  /** The row of one medicine; a missing category shows as `-`. */
  function RowFor(m: Medicine): MedicineRow {
    MedicineRow(m.id, NameText(m),
                if Truthy(m.categoria) then m.categoria.value else "-",
                Badge(m.estado), m.estado, ToggleTarget(m.estado))
  }

  /** `renderMedicamentos`: a message for an empty list, else one row per medicine in
      list order. */
  function MedicinesList(list: seq<Medicine>): (v: MedicinesView)
    ensures v.Message? <==> list == []
    ensures v.Message? ==> v.text == NoMedicinesText
    ensures v.Listing? ==>
      |v.rows| == |list| && forall i :: 0 <= i < |list| ==> v.rows[i] == RowFor(list[i])
  {
    if list == [] then Message(NoMedicinesText)
    else Listing(seq(|list|, i requires 0 <= i < |list| => RowFor(list[i])))
  }

  /** The row loop of `renderMedicamentos`. */
  method RenderMedicines(list: seq<Medicine>) returns (v: MedicinesView)
    ensures v == MedicinesList(list)
  {
    if |list| == 0 {
      return Message(NoMedicinesText);
    }
    var rows: seq<MedicineRow> := [];
    var i := 0;
    while i < |list|
      invariant 0 <= i <= |list|
      invariant |rows| == i
      invariant forall x :: 0 <= x < i ==> rows[x] == RowFor(list[x])
    {
      rows := rows + [RowFor(list[i])];
      i := i + 1;
    }
    v := Listing(rows);
  }

  /** What the list endpoint answered: a JSON body, or a failure of the fetch. */
  datatype ListResponse = Received(estado: string, datos: seq<Medicine>) | Failed(message: string)

  /** The page's state: the last list loaded and what the list container shows. */
  class MedicinesPage {
    var cached: seq<Medicine>
    var view: MedicinesView

    constructor ()
      ensures cached == [] && view == Message(NoMedicinesText)
    {
      cached := [];
      view := Message(NoMedicinesText);
    }

    /** `cargarMedicamentos`: a successful answer replaces the cache and is shown in
        full; otherwise the cache is kept and a message is shown. */
    method Load(resp: ListResponse)
      modifies this
      ensures resp.Received? && resp.estado == "exito" ==>
        cached == resp.datos && view == MedicinesList(resp.datos)
      ensures resp.Received? && resp.estado != "exito" ==>
        cached == old(cached) && view == Message(NoMedicinesText)
      ensures resp.Failed? ==> cached == old(cached) && view == Message(LoadErrorText)
    {
      match resp {
        case Received(estado, datos) =>
          if estado == "exito" {
            cached := datos;
            view := RenderMedicines(cached);
          } else {
            view := Message(NoMedicinesText);
          }
        case Failed(_) =>
          view := Message(LoadErrorText);
      }
    }

    /** `filtrarMedicamentos`: shows the matches of the cached list, which stays as it
        was; when the test throws, nothing changes. */
    method ApplyFilter(query: string, cat: string)
      modifies this
      ensures cached == old(cached)
      ensures AllNamed(cached) ==>
        view == MedicinesList(FilterMedicines(cached, query, cat).value)
      ensures !AllNamed(cached) ==> view == old(view)
    {
      var r := FilterMedicines(cached, query, cat);
      if r.Some? {
        view := RenderMedicines(r.value);
      }
    }
  }

  // ---------------------------------------------------------------------------
  // Add-stock dialog

  /** `calcularCostoStock`: a cost is computed only for a filled, positive quantity. */
  predicate CostShown(quantity: Entry) {
    Filled(quantity) && Positive(quantity)
  }

  /** The cost label; `total` is the two-decimal rendering of quantity times price. */
  function StockCostLabel(quantity: Entry, total: string): (text: string)
    ensures CostShown(quantity) ==> text == "Costo Adicional: S/. " + total
    ensures !CostShown(quantity) ==> text == "Costo Adicional: S/. 0.00"
  {
    "Costo Adicional: S/. " + (if CostShown(quantity) then total else "0.00")
  }

  /** `guardarStock`: the save is refused (a warning, no request) for an empty or
      non-positive quantity. */
  predicate SaveRefused(quantity: Entry) {
    !Filled(quantity) || NonPositive(quantity)
  }

  /** The two guards agree except on a filled quantity that is not a number: there the
      cost reads zero, yet the save goes ahead. */
  lemma StockGuardsAgree(quantity: Entry)
    ensures CostShown(quantity) ==> !SaveRefused(quantity)
    ensures !CostShown(quantity) && !SaveRefused(quantity) <==>
      Filled(quantity) && quantity.number.NaN?
  {
  }
}
