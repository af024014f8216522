/** The shared page helpers: the alert box every page writes its outcome into, and the
    rule that closes a modal dialog when its backdrop is clicked. */
module Utils {
  import opened Text

  const SuccessIcon := "<i class=\"fa-solid fa-check-circle\"></i> "
  const ErrorIcon := "<i class=\"fa-solid fa-circle-exclamation\"></i> "
  const InfoIcon := "<i class=\"fa-solid fa-circle-info\"></i> "

  /** The icon that leads an alert: one per known type, nothing for any other type. */
  function AlertIcon(kind: string): (icon: string)
    ensures icon != "" <==> kind == "success" || kind == "error" || kind == "info"
    ensures kind == "success" ==> icon == SuccessIcon
    ensures kind == "error" ==> icon == ErrorIcon
    ensures kind == "info" ==> icon == InfoIcon
  {
    if kind == "success" then SuccessIcon
    else if kind == "error" then ErrorIcon
    else if kind == "info" then InfoIcon
    else ""
  }

  /** The CSS class of an alert: success and error have their own, every other type
      (`info`, `warning`, a typo) is shown as information. */
  function AlertClass(kind: string): (cls: string)
    ensures cls == "alert-success" <==> kind == "success"
    ensures cls == "alert-error" <==> kind == "error"
    ensures cls == "alert-info" <==> kind != "success" && kind != "error"
  {
    if kind == "success" then "alert-success"
    else if kind == "error" then "alert-error"
    else "alert-info"
  }

  function AlertOpen(kind: string): string {
    "<div class=\"alert " + AlertClass(kind) + "\">" + AlertIcon(kind)
  }

  const AlertClose := "</div>"

  /** The markup `mostrarAlerta` writes: the class wrapper, the icon, the message
      verbatim, the closing tag. */
  function AlertMarkup(kind: string, message: string): (html: string)
    ensures IsPrefix(AlertOpen(kind), html)
    ensures |html| == |AlertOpen(kind)| + |message| + |AlertClose|
    ensures html[|html| - |AlertClose|..] == AlertClose
  {
    AlertOpen(kind) + message + AlertClose
  }

  /** The message can be read back out of the markup unchanged: nothing in it is
      escaped, cut or rewritten. */
  lemma AlertMessageRecovered(kind: string, message: string)
    ensures var html := AlertMarkup(kind, message);
      html[|AlertOpen(kind)|..|html| - |AlertClose|] == message
  {
    var html := AlertMarkup(kind, message);
    assert html == AlertOpen(kind) + message + AlertClose;
  }

  /** Alerts of one type with different messages differ. */
  lemma AlertMarkupInjective(kind: string, m1: string, m2: string)
    requires AlertMarkup(kind, m1) == AlertMarkup(kind, m2)
    ensures m1 == m2
  {
    AlertMessageRecovered(kind, m1);
    AlertMessageRecovered(kind, m2);
  }

  /** An element whose content the page replaces. */
  class Element {
    var html: string

    constructor (html: string)
      ensures this.html == html
    {
      this.html := html;
    }

    /** `mostrarAlerta(elemento, mensaje, tipo)`: the alert replaces whatever the
        element showed before. */
    method ShowAlert(kind: string, message: string)
      modifies this
      ensures html == AlertMarkup(kind, message)
    {
      html := AlertMarkup(kind, message);
    }
  }

  /** A modal dialog; only its `style.display` matters here. */
  class Modal {
    var display: string

    constructor (display: string)
      ensures this.display == display
    {
      this.display := display;
    }

    /** `cerrarModal`: hide the dialog. */
    method Close()
      modifies this
      ensures display == "none"
    {
      display := "none";
    }
  }

  /** `window.onclick` of the shared helpers: each of the edit and stock dialogs that
      exists on the page is closed when it is itself the clicked element (its backdrop),
      and left alone otherwise. */
  method WindowClick(editar: Modal?, stock: Modal?, target: object)
    modifies editar, stock
    ensures editar != null && target == editar ==> editar.display == "none"
    ensures stock != null && target == stock ==> stock.display == "none"
    ensures editar != null && target != editar && editar != stock ==>
      editar.display == old(editar.display)
    ensures stock != null && target != stock && stock != editar ==>
      stock.display == old(stock.display)
  {
    if editar != null && target == editar {
      editar.Close();
    }
    if stock != null && target == stock {
      stock.Close();
    }
  }

  /** `window.onclick` of the older single-file front end: only the edit dialog is
      watched. */
  method LegacyWindowClick(editar: Modal?, target: object)
    modifies editar
    ensures editar != null && target == editar ==> editar.display == "none"
    ensures editar != null && target != editar ==> editar.display == old(editar.display)
  {
    if editar != null && target == editar {
      editar.Close();
    }
  }
}
