# Pharmacy front end and sales back end — a verified model

This project models in Dafny the logic at the centre of a small pharmacy application.
It has a browser front end (reports, medicines, sales pages and shared helpers), an
older single-file version of that front end, and a Flask sales endpoint over an Oracle
database. The HTML templating, `fetch` calls and DOM writes are stripped away. What is
left are the decisions they wrap, stated as functions, methods and classes with proved
contracts:

- **Reports** (`reports.dfy`, from `src/js/reportes.js`). The report table engine:
  - the columns come from the first row's keys;
  - each key gets a label (dictionary entry or fallback, then aggregate-marker
    normalisation) and a name-based classification (money, date, numeric, plain);
  - each body cell gets its text, alignment and emphasis by that classification and
    its runtime value.
- **Legacy** (`legacy.dfy`, from `src/main.js`). The older report renderer: raw key
  titles, and each row's own values in its own order.
- **Utils** (`utils.dfy`, from `src/js/utils.js` and `src/main.js`):
  - the alert box (class, icon, markup);
  - the backdrop-click rule that closes modal dialogs. Dialogs are objects whose
    `display` the methods update.
- **Medicines** (`medicines.dfy`, from `src/js/medicamentos.js`):
  - the search-and-category filter over the cached list;
  - badges, the status toggle and its confirmation verb;
  - the list rendering, and the page as a class holding the cache;
  - the guards of the add-stock dialog.
- **Sales** (`sales.dfy`, from `src/js/ventas.js`, duplicated in `src/main.js`):
  - the history search and rendering;
  - the medicines offered for sale;
  - the form's detail lines as a class: a counter that numbers lines, add, remove,
    clear and renumber;
  - the checks `procesarVenta` makes before sending a sale, and the payload it builds.
- **SalesApi** (`sales_api.dfy`, from `src/blueprints/ventas.py`):
  - `registrar_venta_completa`: JSON values with Python's truthiness, `in` and `<=`;
    the request checks; per-detail validation numbered from 1; detail inserts in
    order; the Oracle-error-to-status mapping;
  - a `Connection` class whose pending rows reach `committed` only by a commit;
  - the not-found case of `obtener_detalle_venta`.
- **Integration** (`integration.dfy`). The form's payload serialised as the JSON the
  sales handler would receive. It proves that the handler refuses every sale the form
  submits with 400: the front end sends `cliente`/`dni_empleado`, and the handler
  requires `id_cliente`/`id_empleado`. Each side is modelled as written. In the
  application as wired, the handler is never reached: `main.py:17-18` registers only
  the report and management blueprints, not `ventas_bp` (`src/blueprints/ventas.py:5`),
  so the form's POST to `/api/ventas` gets Flask's 404 page, which `res.json()` fails
  to parse, and the page shows that parse error.
- `text.dfy`, `lists.dfy`, `forms.dfy` and `wrappers.dfy` hold the string, filter,
  form-field and option helpers shared by the modules.

Two facts about the report table shape the model:

- Column classification tests the raw key case-sensitively (`k.includes("precio")`
  and the like, `src/js/reportes.js:103-124` and `:142-153`), so `PRECIO` is not
  money.
- A body cell whose key is both a date and numeric by name is shown as a date: the
  date branch (`src/js/reportes.js:158-166`) comes before the numeric branch
  (`src/js/reportes.js:167-176`).

## Model

| member | source | states |
|---|---|---|
| Text.ToLower | src/js/medicamentos.js:165 | `toLowerCase`: same length, each character mapped by the Latin-1 lower-casing of letters |
| Text.ToUpper | src/js/reportes.js:96 | `toUpperCase` on the Latin-1 letters that have a one-character upper case: same length, each such letter upper-cased, so none of them remains |
| Text.ReplaceUnderscores | src/js/reportes.js:96 | `replace(/_/g, " ")`: every underscore becomes a space, all else is kept, none remains |
| Text.ContainsToLower | src/js/medicamentos.js:169-171 | a substring stays a substring after both sides are lower-cased |
| Text.Trim | src/js/ventas.js:103-106 | `trim()`: no longer than the input, no blank at either end, empty exactly when the input is all blanks |
| Text.TrimSlice | src/js/ventas.js:103-106 | the trimmed text is a slice of the input with only blanks before and after it |
| Text.IntToString | src/js/ventas.js:224 | `String(n)`: non-empty digits with a leading minus exactly for negative numbers |
| Text.NatToStringRoundTrip | src/blueprints/ventas.py:237 | the decimal text of a number reads back as that number |
| Lists.FilterIsSubsequence | src/js/medicamentos.js:168 | `Array.prototype.filter` keeps the list's order: its result is a subsequence |
| Lists.FilterCounts | src/js/medicamentos.js:168 | `filter` keeps every occurrence of a passing element and none of a failing one |
| Lists.FilterIdempotent | src/js/medicamentos.js:168 | filtering twice by the same test equals filtering once |
| Reports.FallbackLabel | src/js/reportes.js:96 | the fallback label has the key's length, no underscore and no lower-case letter |
| Reports.NormalizeLabel | src/js/reportes.js:98-100 | `SUM(` gives `Total`, else `COUNT(` gives `Cantidad`, else `AVG(` gives `Promedio`, else the label is kept; the first marker present decides |
| Reports.MarkerFreeHasNoMarker | src/js/reportes.js:98-100 | a label lacking `(` or lacking the marker letters contains none of the three markers |
| Reports.Label | src/js/reportes.js:95-100 | a key outside the dictionary gets its normalised fallback label; a marker-free dictionary label is shown unchanged |
| Reports.FallbackLabelExample | src/js/reportes.js:96 | `id_lote` is titled `ID LOTE` |
| Reports.SumLabel | src/js/reportes.js:96-98 | `sum(x)` is titled `Total` |
| Reports.HeaderFor | src/js/reportes.js:116-128 | the header shows the label and is right-aligned iff the key is money or numeric by name |
| Reports.IsoDatePartShape | src/js/reportes.js:164 | a date with a four-digit year renders as ten characters `YYYY-MM-DD` |
| Reports.Dictionary | src/js/reportes.js:4-71 | the label of each of the 43 known column names |
| Reports.IsMoney | src/js/reportes.js:103-114 | a money column: one of seven name fragments or one of four exact names, case-sensitive |
| Reports.IsNumericName | src/js/reportes.js:116-124 | a count column by name: four fragments or two exact names |
| Reports.IsDateKey | src/js/reportes.js:159-160 | a date column: the name holds `fecha` or `vencimiento` |
| Reports.CellFor | src/js/reportes.js:136-179 | bold and in the `font-mono` class iff money; money text is `S/. ` followed by the two-decimal value; dates show the ISO date or the raw value; other cells show the value as a template does; right-aligned iff money, or not a date and a number by runtime type or by name |
| Reports.NullShowsDash | src/js/reportes.js:138 | a null shows `-` in every non-money column and is right-aligned only under a numeric non-date name |
| Reports.HeaderBodyAlignment | src/js/reportes.js:116-176 | header and body alignment agree except for date columns and numbers under plain names |
| Reports.Report | src/js/reportes.js:81-188 | a table iff the answer is `exito` with rows, titled by the report; header cells follow the first row's keys; every body row has one cell per header cell, looked up by key; a failed request shows `Error al cargar reporte: ` followed by its message, any other answer the no-data alert |
| Reports.RenderHeader | src/js/reportes.js:94-129 | the header loop yields exactly the header row |
| Reports.RenderRow | src/js/reportes.js:135-180 | the cell loop yields one cell per column for the row |
| Reports.HeaderRowAt | src/js/reportes.js:94-129 | header cell `j` is the header of column `j` |
| Reports.BodyRowAt | src/js/reportes.js:135-180 | body cell `j` of a row is that row's value under column `j`, formatted |
| Reports.RenderBody | src/js/reportes.js:133-182 | the outer body loop yields one row of cells per data row, in order |
| Reports.RenderReport | src/js/reportes.js:73-190 | the whole rendering loop yields `Report` |
| Utils.AlertIcon | src/js/utils.js:2-6 | the icon is non-empty exactly for `success`, `error`, `info`, each with its own icon |
| Utils.AlertClass | src/js/utils.js:8-13 | `alert-success` iff `success`, `alert-error` iff `error`, `alert-info` for every other type |
| Utils.AlertMarkup | src/js/utils.js:15 | the markup starts with the class wrapper and icon and ends with the closing tag; its length is theirs plus the message's |
| Utils.AlertMessageRecovered | src/js/utils.js:15 | the message sits in the markup verbatim, unescaped and uncut |
| Utils.AlertMarkupInjective | src/js/utils.js:15 | different messages of one type give different markup |
| Utils.Element.ShowAlert | src/js/utils.js:1-16 | the element's content is replaced by the alert markup |
| Utils.Modal.Close | src/js/utils.js:18-20 | the dialog is hidden |
| Utils.WindowClick | src/js/utils.js:25-32 | each dialog is closed when it is itself the click target and otherwise left as it was |
| Utils.LegacyWindowClick | src/main.js:22-25 | only the edit dialog is watched, closed when it is the target |
| Legacy.RowTexts | src/main.js:456 | one text per field of the row itself, each its value as a template shows it |
| Legacy.LegacyHeader | src/main.js:452 | each title is the key with underscores as spaces, upper-cased |
| Legacy.LegacyReport | src/main.js:449-461 | a grid iff the answer is `exito` with rows; header from the first row's keys; body row `i` is row `i`'s own values; else the info or error alert |
| Legacy.RenderLegacyReport | src/main.js:444-461 | the nested loops yield `LegacyReport` |
| Legacy.RaggedRows | src/main.js:454-457 | a later row with fewer fields renders fewer cells than there are titles |
| Legacy.ValuesFollowRowOrder | src/main.js:456 | values are shown in each row's own key order, not matched to the header |
| Legacy.LegacyTitleMatchesFallback | src/main.js:452 | a key outside the dictionary whose title is marker-free gets the same title in both renderers |
| Legacy.NullCellsDiffer | src/main.js:456 | a null reads `null` in the legacy table and `-` in the newer one |
| Medicines.DisplayName | src/js/medicamentos.js:169 | `medicamento` when truthy, else `nombre` |
| Medicines.Matches | src/js/medicamentos.js:168-174 | the filter test: the shown name lower-cased contains the lower-cased query, and the category filter is empty or equals the lower-cased category |
| Medicines.FilterMedicines | src/js/medicamentos.js:168-174 | a medicine is kept iff its lower-cased name contains the lower-cased query and the category filter is empty or matches; no result (the filter throws) exactly when the name some medicine shows is `null` or missing; each kept medicine appears as often as in the list |
| Medicines.FilterMedicinesOrdered | src/js/medicamentos.js:168-175 | the result is a subsequence of the cached list |
| Medicines.EmptyFilterKeepsAll | src/js/medicamentos.js:171-172 | an empty query with no category keeps every medicine |
| Medicines.FilterMedicinesIdempotent | src/js/medicamentos.js:168-174 | filtering the result again changes nothing |
| Medicines.NameMatchKept | src/js/medicamentos.js:169-171 | a name containing the query as typed is kept whatever the case |
| Medicines.Badge | src/js/medicamentos.js:123-128 | `success` iff `Activo`, `danger` iff `Agotado`, `secondary` otherwise |
| Medicines.ToggleTarget | src/js/medicamentos.js:130-135 | `Activo` is offered iff the status is `Inactivo`, `Inactivo` otherwise |
| Medicines.ToggleTwice | src/js/medicamentos.js:130-135 | toggling twice restores exactly `Activo` and `Inactivo`; `Agotado` comes back `Activo` |
| Medicines.ActionWord | src/js/medicamentos.js:338 | `reactivar` iff the target is `Activo` |
| Medicines.ToggleQuestion | src/js/medicamentos.js:337-341 | the question says `reactivar` exactly for an inactive medicine |
| Medicines.NameText | src/js/medicamentos.js:139 | the shown name is the chosen string, `null` for a null name, `undefined` for a missing one |
| Medicines.MedicinesList | src/js/medicamentos.js:115-160 | a message iff the list is empty, else one row per medicine in order |
| Medicines.RenderMedicines | src/js/medicamentos.js:115-160 | the row loop yields `MedicinesList` |
| Medicines.MedicinesPage.Load | src/js/medicamentos.js:95-113 | a successful answer replaces the cache and shows it; otherwise the cache stays and a message is shown |
| Medicines.MedicinesPage.ApplyFilter | src/js/medicamentos.js:162-176 | the cache is unchanged and the matches are shown |
| Medicines.CostShown | src/js/medicamentos.js:292 | a cost is computed only for a filled positive quantity |
| Medicines.SaveRefused | src/js/medicamentos.js:305 | the save is refused for an empty or non-positive quantity |
| Medicines.StockCostLabel | src/js/medicamentos.js:287-298 | the computed cost only for a filled positive quantity, else `0.00` |
| Medicines.StockGuardsAgree | src/js/medicamentos.js:292-309 | a shown cost implies the save proceeds; they disagree only on filled non-numeric text |
| Sales.SaleMatches | src/js/ventas.js:221-228 | the search test: client, employee or number contains the query, all lower-cased |
| Sales.SearchSales | src/js/ventas.js:221-228 | a sale is kept iff client, employee or number contains the query, all lower-cased, as often as it occurs in the history |
| Sales.SearchSalesOrdered | src/js/ventas.js:221-229 | the result is a subsequence of the history |
| Sales.EmptySearchKeepsAll | src/js/ventas.js:221-228 | an empty query keeps every sale |
| Sales.SearchByNumberFindsSale | src/js/ventas.js:224-226 | searching a sale's number finds it |
| Sales.SalesList | src/js/ventas.js:198-217 | a message iff the history is empty, else one row per sale in order |
| Sales.RenderSales | src/js/ventas.js:198-217 | the row loop yields `SalesList` |
| Sales.SalesHistory.Load | src/js/ventas.js:183-196 | the spinner is shown first; only a successful answer replaces the cache and the spinner with the table; otherwise the cache stays and the spinner remains |
| Sales.SalesHistory.Search | src/js/ventas.js:219-230 | the cache is unchanged and the matches are shown |
| Sales.Sellable | src/js/ventas.js:30 | a medicine is offered iff its status is `Activo`, as often as it occurs in the catalogue |
| Sales.SellableOrdered | src/js/ventas.js:30 | the offered medicines keep the catalogue's order |
| Sales.ProdCaptionInjective | src/js/ventas.js:41 | different positions get different `Prod #n` captions |
| Sales.Renumbered | src/js/ventas.js:37-43 | line `i` is captioned `Prod #(i+1)`, all else unchanged |
| Sales.WithoutLine | src/js/ventas.js:69-71 | removal keeps exactly the other lines |
| Sales.WithoutLineIncreasing | src/js/ventas.js:69-74 | removal keeps the line numbers increasing |
| Sales.SaleForm.LoadAvailable | src/js/ventas.js:25-35 | a successful answer replaces the offered medicines by the active ones |
| Sales.SaleForm.Renumber | src/js/ventas.js:37-43 | captions follow positions afterwards |
| Sales.SaleForm.AddLine | src/js/ventas.js:45-67 | the counter goes up by one and numbers a new last line; line numbers stay unique and increasing |
| Sales.SaleForm.RemoveLine | src/js/ventas.js:69-74 | the line goes, the counter stays, the rest are renumbered |
| Sales.SaleForm.Clear | src/js/ventas.js:176-181 | no lines and the counter at 0 |
| Sales.LinesDistinct | src/js/ventas.js:45-74 | lines of a valid form have distinct numbers and distinct captions |
| Sales.ClientComplete | src/js/ventas.js:103-113 | DNI, first name and paternal surname non-blank after trimming, and an employee chosen |
| Sales.LineAccepted | src/js/ventas.js:133 | a line is accepted when a medicine is chosen and the quantity parses to a non-zero integer |
| Sales.CollectDetails | src/js/ventas.js:120-139 | one payload entry per line in order; `valido` iff every line has a medicine and a non-zero quantity |
| Sales.Decide | src/js/ventas.js:102-145 | refusals in order (missing fields, DNI length, products) with the page's message; submitted iff all pass, with the trimmed client and one detail per line |
| Sales.ProcessSale | src/js/ventas.js:102-145 | the method decides as `Decide` |
| Sales.DniLengthOnly | src/js/ventas.js:114-119 | eight letters pass the DNI check |
| Sales.MaternalSurnameOptional | src/js/ventas.js:103-108 | the maternal surname never decides the outcome |
| Sales.ZeroQuantityRefused | src/js/ventas.js:127-133 | a quantity parsing to 0 refuses the sale |
| SalesApi.PyIn | src/blueprints/ventas.py:16 | `in` raises exactly on values that are not dict, list or string; on a dict it is key membership |
| SalesApi.AllIn | src/blueprints/ventas.py:16 | `all(k in d ...)` raises exactly when there is a key and the value is not iterable |
| SalesApi.AtMostZero | src/blueprints/ventas.py:64-69 | `<= 0` compares numbers and booleans, false for NaN and `Infinity`, true for `-Infinity`, raises on anything else |
| SalesApi.NonFiniteDetailPasses | src/blueprints/ventas.py:59-69 | a keyed detail whose quantity and price are `NaN` or `Infinity` passes validation |
| SalesApi.MapDbError | src/blueprints/ventas.py:106-127 | `ORA-20002`→409, else `ORA-02291`→400, else `ORA-01403`→404, else 500 carrying the message |
| SalesApi.DbErrorStatuses | src/blueprints/ventas.py:106-127 | one of four statuses; 500 iff none of the three codes occurs |
| SalesApi.Precheck | src/blueprints/ventas.py:15-26 | a falsy body or an object missing a key gets 400 with the invalid-JSON message; an object with the keys whose `detalles` is not a non-empty list gets 400 with the details message; a truthy list or string gets 400 when a key fails the `in` test and Flask's 500 otherwise, as does any other truthy non-object; passes iff an object with the four keys and a non-empty `detalles` list |
| SalesApi.WellFormedRequest | src/blueprints/ventas.py:16-26 | an object with the four keys whose `detalles` is a non-empty list |
| SalesApi.RequiredKeysAsPython | src/blueprints/ventas.py:16 | on an object, the generator test equals having the four keys |
| SalesApi.DetailKeysAsPython | src/blueprints/ventas.py:59 | on an object, the generator test equals having the three keys |
| SalesApi.GoodDetail | src/blueprints/ventas.py:59-69 | an object with the three keys whose quantity and price compare above 0 |
| SalesApi.DetailFault | src/blueprints/ventas.py:59-69 | no fault iff an object with the keys and positive quantity and price; a missing key is reported first, then a quantity not above 0, then a price not above 0; a comparison that raises gives the generic failure |
| SalesApi.FaultReply | src/blueprints/ventas.py:129-152 | validation faults get 400, a raising test the generic 500 |
| SalesApi.FaultMessageNamed | src/blueprints/ventas.py:59-69 | every refused detail's message starts `Detalle #n:` with its number |
| SalesApi.FaultMessagesDistinct | src/blueprints/ventas.py:59-69 | the three reasons give three different messages |
| SalesApi.FirstFault | src/blueprints/ventas.py:57-73 | no fault iff every detail is good |
| SalesApi.FirstFaultAt | src/blueprints/ventas.py:57-69 | the first detail that is not good decides, with its own reason |
| SalesApi.DetailRows | src/blueprints/ventas.py:71-73 | one row per detail, in input order |
| SalesApi.FirstInsertError | src/blueprints/ventas.py:81-82 | none iff every insert succeeds; otherwise one of the reported errors |
| SalesApi.FirstInsertErrorIsFirst | src/blueprints/ventas.py:81-82 | the reported error is that of the first failing insert |
| SalesApi.Register | src/blueprints/ventas.py:8-152 | early answers win; 503 without a connection; a header error is mapped by its Oracle code, a header crash is the generic 500; 201 iff request, header, every detail, every insert and the commit succeed, with the sale number and the detail count |
| SalesApi.Transaction | src/blueprints/ventas.py:55-152 | the first bad detail's reply wins, then the first insert error mapped by its Oracle code, then the commit error mapped likewise; created iff every detail is good, every insert and the commit succeed |
| SalesApi.FirstBadDetailReported | src/blueprints/ventas.py:57-69 | the answer is the first bad detail's reason, numbered from 1 |
| SalesApi.RegisterStatuses | src/blueprints/ventas.py:14-152 | the status is one of 201, 400, 404, 409, 500, 503, and 201 only for a registered sale |
| SalesApi.Connection.Write | src/blueprints/ventas.py:82 | a row joins the pending rows; nothing is committed |
| SalesApi.Connection.Commit | src/blueprints/ventas.py:85 | the pending rows are committed |
| SalesApi.Connection.Rollback | src/blueprints/ventas.py:94-100 | the pending rows are dropped, the committed ones kept |
| SalesApi.RegisterSale | src/blueprints/ventas.py:8-152 | answers as `Register`; on 201 the header and every detail are committed in order, otherwise nothing is |
| SalesApi.RunTransaction | src/blueprints/ventas.py:37-152 | answers as `Transaction`; commits all pending rows plus the details, or rolls back |
| SalesApi.ValidateDetails | src/blueprints/ventas.py:56-73 | the loop stops at `FirstFault` and otherwise collects the detail rows |
| SalesApi.InsertDetails | src/blueprints/ventas.py:81-82 | the rows are written in order until the first refused insert |
| SalesApi.FirstInsertErrorSkips | src/blueprints/ventas.py:81-82 | successful inserts do not change which insert fails first |
| SalesApi.LookupSale | src/blueprints/ventas.py:209-269 | 503 without a connection, 404 naming the number for an unknown sale, the sale only when found |
| SalesApi.NotFoundNamesTheSale | src/blueprints/ventas.py:237 | different unknown numbers give different messages |
| Integration.NumberJson | src/js/ventas.js:154 | NaN serialises as `null`, a number as itself |
| Integration.IntegerJson | src/js/ventas.js:135-136 | NaN serialises as `null`, an integer as itself |
| Integration.DetailJson | src/js/ventas.js:134-138 | each detail carries the three keys the back end checks |
| Integration.SaleJson | src/js/ventas.js:146-156 | the body's keys are exactly `cliente`, `dni_empleado`, `total_venta`, `detalles` |
| Integration.SubmittedSaleRefused | src/blueprints/ventas.py:16-20 | the sales handler answers every body the form builds with 400 and the invalid-JSON message, whatever the database would do |
| Integration.FormSaleNeverRegistered | src/js/ventas.js:146-172 | any sale the form decides to submit is never registered by the sales handler |

`src/main.js` repeats three things modelled once here:

- The sale checks of `procesarVenta` (lines 341-370): `Sales.Decide` with
  `Sales.LegacyMessages`.
- The badge mapping (line 132): `Medicines.Badge`.
- The line counter and renumbering (lines 284-318): `Sales.SaleForm`.

## Left out

- Network and browser plumbing is not modelled:
  - `fetch`, response JSON parsing, `setTimeout` reloads and event wiring are not
    modelled. A response enters as a `Received`/`Failed` value.
  - DOM writes are modelled as the views and cells they would show, not as HTML text.
- Floating point and JavaScript number conversions are not modelled:
  - `parseFloat(...).toFixed(2)` and sums are parameters, via
    `Reports.Formatting.toFixed2` and the `total` text of `Medicines.StockCostLabel`.
  - `Number`/`parseInt` of a field are given outcomes carried in `Forms.Entry`.
  - The subtotal and total computation (`calcularTotal`, `actualizarPrecioDetalle`)
    is not modelled.
- JavaScript `Date` parsing, `toLocaleString` and the "Generado" timestamp are not
  modelled. The parse is a parameter (`Formatting.parseDate`); only the
  `toISOString` date part is modelled.
- `src/js/modal_utils.js`, `src/js/dashboard.js`, `src/db.py`,
  `src/blueprints/gestion.py`, `src/blueprints/reportes.py` and `main.py` are not part
  of this model. The warnings that `showMessageModal` or `alert` present are the
  decision values of `Sales.Decide`.
- Database outcomes are parameters, since the database cannot be seen:
  - the Oracle stored procedure and the stock trigger enter as the header outcome, the
    per-insert error and the commit error;
  - a rollback that itself fails is not modelled;
  - `print` logging is not modelled.
- `SalesApi.Unexpected` and `SalesApi.Unhandled` do not model Python's exception text.
  `Unexpected` is the handler's generic 500. `Unhandled` is the 500 page Flask produces
  for an exception before the handler's `try`.
- Routing is not modelled: the sales endpoints are modelled as handlers, although
  `main.py:17-18` does not register their blueprint, so in the application as wired
  the front end's sales requests reach Flask's 404 page instead.
- `SalesApi.Json`: Python's `NaN` and `±Infinity` literals are modelled as `JNaN` and
  `JInf`; a detail carrying them passes validation (`SalesApi.NonFiniteDetailPasses`),
  and what the database then does with such a number is not modelled.
- `obtener_ventas` and the detail query's body are not modelled. Only the
  success/not-found/error outcome of the lookup is.
- `Text.ToUpper`: JavaScript upper-cases `ß` to `SS`, `ÿ` to `Ÿ` and `µ` to `Μ`, which
  lie outside Latin-1 or change the length; the model leaves these three unchanged.
- `Reports.Label`: its first ensures is conditional on the dictionary label being
  marker-free. It is not proved for all 43 entries, though each of them is.
- Other modelling limits:
  - dictionary lookups of inherited object keys such as `constructor` are not
    modelled;
  - letter case mapping outside Latin-1 is not modelled (nor, within it, the three
    letters named under `Text.ToUpper` above);
  - the DNI length is counted in characters, not UTF-16 code units;
  - overlapping asynchronous loads are not modelled.
