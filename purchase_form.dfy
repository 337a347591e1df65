/** The new-purchase form: a cart of lines keyed by product id, the lookups
    it relies on, its total, the payload it submits, and the form's state. */
module PurchaseForm {
  import opened Outcomes

  datatype Cliente = Cliente(id: int, nombre: string, apellido: string)

  /** A catalogue entry; `precio` is in cents. */
  datatype Producto = Producto(id: int, nombre: string, precio: int, stock: int)

  /** One line of the cart; `precioUnitario` is in cents. */
  datatype LineItem = LineItem(idProducto: int, nombre: string, cantidad: int, precioUnitario: int)

  datatype FormData = FormData(idCliente: int, medioPago: string, productos: seq<LineItem>)

  datatype PayloadLine = PayloadLine(idProducto: int, cantidad: int)

  /** The body posted to create a purchase. */
  datatype Payload = Payload(idCliente: int, medioPago: string, productos: seq<PayloadLine>)

  /** The request that creates a purchase: where it goes, its method, its
      `Content-Type` header and the payload its JSON body carries. */
  datatype CreateRequest = CreateRequest(url: string, httpMethod: string, contentType: string, body: Payload)

  const InitialFormData: FormData := FormData(0, "EFECTIVO", [])

  const CustomersUrl: string := LocalApiBase + "/customers/all"
  const ProductsUrl: string := LocalApiBase + "/products/all"
  const CreatePurchaseUrl: string := LocalApiBase + "/purchases/create"
  const PostMethod: string := "POST"
  const JsonContentType: string := "application/json"

  const NoClientMessage: string := "Debe seleccionar un cliente"
  const NoProductsMessage: string := "Debe agregar al menos un producto"
  const ClientsFailedMessage: string := "No se pudieron cargar los clientes"
  const ProductsFailedMessage: string := "No se pudieron cargar los productos"
  const SaveFailedMessage: string := "Error al guardar la compra"
  const SubmitFailedMessage: string := "Ocurrió un error al procesar la compra."

  // ---------------------------------------------------------------------
  // The cart as a value

  /** No two lines share a product id. */
  ghost predicate IdsUnique(cart: seq<LineItem>) {
    forall i, j :: 0 <= i < j < |cart| ==> cart[i].idProducto != cart[j].idProducto
  }

  /** Every line asks for at least one unit. */
  ghost predicate QuantitiesPositive(cart: seq<LineItem>) {
    forall i :: 0 <= i < |cart| ==> cart[i].cantidad > 0
  }

  /** The cart invariant: one line per product id, positive quantities. */
  ghost predicate CartValid(cart: seq<LineItem>) {
    IdsUnique(cart) && QuantitiesPositive(cart)
  }

  /** `findIndex` on the cart: the first line for `id`, or -1. */
  function LineIndex(cart: seq<LineItem>, id: int): (k: int)
    ensures -1 <= k < |cart|
    ensures 0 <= k ==> cart[k].idProducto == id
    ensures forall j :: 0 <= j < |cart| && (k < 0 || j < k) ==> cart[j].idProducto != id
  {
    if cart == [] then -1
    else if cart[0].idProducto == id then 0
    else
      var k := LineIndex(cart[1..], id);
      if k < 0 then -1 else k + 1
  }

  /** `findIndex` on the catalogue: the first entry for `id`, or -1. */
  function ProductIndex(catalogue: seq<Producto>, id: int): (k: int)
    ensures -1 <= k < |catalogue|
    ensures 0 <= k ==> catalogue[k].id == id
    ensures forall j :: 0 <= j < |catalogue| && (k < 0 || j < k) ==> catalogue[j].id != id
  {
    if catalogue == [] then -1
    else if catalogue[0].id == id then 0
    else
      var k := ProductIndex(catalogue[1..], id);
      if k < 0 then -1 else k + 1
  }

  /** `find` on the catalogue. */
  function Lookup(catalogue: seq<Producto>, id: int): Option<Producto> {
    var k := ProductIndex(catalogue, id);
    if k < 0 then None else Some(catalogue[k])
  }

  /** `find` succeeds exactly when some entry has the id, and then returns
      an entry of the catalogue with that id. */
  lemma LookupFinds(catalogue: seq<Producto>, id: int)
    ensures Lookup(catalogue, id).Some? <==> exists i :: 0 <= i < |catalogue| && catalogue[i].id == id
    ensures Lookup(catalogue, id).Some? ==> Lookup(catalogue, id).value in catalogue && Lookup(catalogue, id).value.id == id
  {
  }

  /** The line a catalogue entry starts when it is first added. */
  function NewLine(p: Producto, q: int): LineItem {
    LineItem(p.id, p.nombre, q, p.precio)
  }

  /** Adding `q` units of `p`: an existing line for `p.id` grows by `q` and
      nothing else changes; otherwise a new line is appended at the end. */
  function CartAdd(cart: seq<LineItem>, p: Producto, q: int): (r: seq<LineItem>)
    ensures LineIndex(cart, p.id) >= 0 ==>
              |r| == |cart|
              && r[LineIndex(cart, p.id)].cantidad == cart[LineIndex(cart, p.id)].cantidad + q
              && r[LineIndex(cart, p.id)] == cart[LineIndex(cart, p.id)].(cantidad := r[LineIndex(cart, p.id)].cantidad)
              && forall j :: 0 <= j < |cart| && j != LineIndex(cart, p.id) ==> r[j] == cart[j]
    ensures LineIndex(cart, p.id) < 0 ==>
              |r| == |cart| + 1 && r[..|cart|] == cart && r[|cart|] == NewLine(p, q)
  {
    var k := LineIndex(cart, p.id);
    if k >= 0 then cart[k := cart[k].(cantidad := cart[k].cantidad + q)]
    else cart + [NewLine(p, q)]
  }

  /** `filter` dropping every line for `id`. */
  function CartRemove(cart: seq<LineItem>, id: int): (r: seq<LineItem>)
    ensures |r| <= |cart|
    ensures forall l :: l in r <==> l in cart && l.idProducto != id
  {
    if cart == [] then []
    else (if cart[0].idProducto == id then [] else [cart[0]]) + CartRemove(cart[1..], id)
  }

  /** A line's amount in cents. */
  function Subtotal(l: LineItem): int {
    l.precioUnitario * l.cantidad
  }

  /** `calcularTotal`: the `reduce` of price times quantity, from 0, left to right. */
  function CartTotal(cart: seq<LineItem>): int {
    if cart == [] then 0 else CartTotal(cart[..|cart| - 1]) + Subtotal(cart[|cart| - 1])
  }

  /** The submitted lines: product id and quantity of each cart line, in order. */
  function PayloadLines(cart: seq<LineItem>): (r: seq<PayloadLine>)
    ensures |r| == |cart|
    ensures forall i :: 0 <= i < |cart| ==> r[i].idProducto == cart[i].idProducto && r[i].cantidad == cart[i].cantidad
  {
    seq(|cart|, i requires 0 <= i < |cart| => PayloadLine(cart[i].idProducto, cart[i].cantidad))
  }

  /** The checks of `handleSubmit`, client first and cart second, and the
      payload built when both pass. */
  function Validate(f: FormData): (r: Result<Payload, string>)
    ensures r.Success? <==> f.idCliente != 0 && f.productos != []
    ensures f.idCliente == 0 ==> r == Failure(NoClientMessage)
    ensures f.idCliente != 0 && f.productos == [] ==> r == Failure(NoProductsMessage)
    ensures r.Success? ==> r.value.idCliente == f.idCliente && r.value.medioPago == f.medioPago
                           && r.value.productos == PayloadLines(f.productos)
  {
    if f.idCliente == 0 then Failure(NoClientMessage)
    else if |f.productos| == 0 then Failure(NoProductsMessage)
    else Success(Payload(f.idCliente, f.medioPago, PayloadLines(f.productos)))
  }

  /** The submit handler's catch block: no abort check, and its own generic message. */
  function SubmitError(t: Thrown): (m: string)
    ensures HasMessage(t) ==> m == t.message.value
    ensures !HasMessage(t) ==> m == SubmitFailedMessage
  {
    if HasMessage(t) then t.message.value else SubmitFailedMessage
  }

  /** Every cart line carries the name and price of the catalogue entry that
      `find` returns for its id. */
  ghost predicate LinesFromCatalogue(cart: seq<LineItem>, catalogue: seq<Producto>) {
    forall i :: 0 <= i < |cart| ==>
      Lookup(catalogue, cart[i].idProducto).Some?
      && Lookup(catalogue, cart[i].idProducto).value.nombre == cart[i].nombre
      && Lookup(catalogue, cart[i].idProducto).value.precio == cart[i].precioUnitario
  }

  // ---------------------------------------------------------------------
  // Lemmas about the cart

  /** Adding a positive quantity keeps one line per id and positive quantities. */
  lemma CartAddValid(cart: seq<LineItem>, p: Producto, q: int)
    requires CartValid(cart) && q > 0
    ensures CartValid(CartAdd(cart, p, q))
  {
  }

  /** Removing lines keeps one line per id and positive quantities. */
  lemma {:induction false} CartRemoveValid(cart: seq<LineItem>, id: int)
    requires CartValid(cart)
    ensures CartValid(CartRemove(cart, id))
  {
    if cart != [] {
      var rest := CartRemove(cart[1..], id);
      assert CartValid(cart[1..]) by {
        assert forall i :: 0 <= i < |cart[1..]| ==> cart[1..][i] == cart[i + 1];
      }
      CartRemoveValid(cart[1..], id);
      var r := CartRemove(cart, id);
      forall i | 0 <= i < |r| ensures r[i].cantidad > 0 {
        assert r[i] in cart;
      }
      if cart[0].idProducto != id {
        assert r == [cart[0]] + rest;
        forall j | 0 <= j < |rest| ensures rest[j].idProducto != cart[0].idProducto {
          assert rest[j] in cart[1..];
        }
      }
    }
  }

  /** Removing an id no line carries leaves the cart as it was. */
  lemma {:induction false} CartRemoveAbsent(cart: seq<LineItem>, id: int)
    requires LineIndex(cart, id) < 0
    ensures CartRemove(cart, id) == cart
  {
    if cart != [] {
      CartRemoveAbsent(cart[1..], id);
      assert [cart[0]] + cart[1..] == cart;
    }
  }

  /** Removal keeps the order of what remains: it splits over concatenation. */
  lemma {:induction false} CartRemoveAppend(a: seq<LineItem>, b: seq<LineItem>, id: int)
    ensures CartRemove(a + b, id) == CartRemove(a, id) + CartRemove(b, id)
  {
    if a == [] {
      assert a + b == b;
    } else {
      assert (a + b)[1..] == a[1..] + b;
      CartRemoveAppend(a[1..], b, id);
    }
  }

  /** With unique ids, no line after position `k` carries `k`'s id. */
  lemma NoLaterLine(cart: seq<LineItem>, k: int)
    requires IdsUnique(cart) && 0 <= k < |cart|
    ensures LineIndex(cart[k + 1..], cart[k].idProducto) < 0
  {
    var after := cart[k + 1..];
    forall j | 0 <= j < |after| ensures after[j].idProducto != cart[k].idProducto {
      assert after[j] == cart[k + 1 + j];
    }
  }

  /** No line before the first line for `id` carries `id`. */
  lemma NoEarlierLine(cart: seq<LineItem>, id: int)
    requires LineIndex(cart, id) >= 0
    ensures LineIndex(cart[..LineIndex(cart, id)], id) < 0
  {
    var before := cart[..LineIndex(cart, id)];
    forall j | 0 <= j < |before| ensures before[j].idProducto != id {
      assert before[j] == cart[j];
    }
  }

  /** Removing `id` from a cart where exactly the middle line carries it
      leaves the lines around it. */
  lemma CartRemoveMiddle(before: seq<LineItem>, l: LineItem, after: seq<LineItem>)
    requires LineIndex(before, l.idProducto) < 0 && LineIndex(after, l.idProducto) < 0
    ensures CartRemove(before + [l] + after, l.idProducto) == before + after
  {
    var id := l.idProducto;
    var front := before + [l];
    assert CartRemove([l], id) == [] by {
      assert [l][1..] == [];
    }
    CartRemoveAppend(before, [l], id);
    CartRemoveAbsent(before, id);
    assert CartRemove(front, id) == before;
    CartRemoveAppend(front, after, id);
    CartRemoveAbsent(after, id);
  }

  /** In a valid cart, removing an id that is present drops exactly one line. */
  lemma CartRemovePresent(cart: seq<LineItem>, id: int)
    requires CartValid(cart) && LineIndex(cart, id) >= 0
    ensures |CartRemove(cart, id)| == |cart| - 1
  {
    var k := LineIndex(cart, id);
    assert cart == cart[..k] + [cart[k]] + cart[k + 1..];
    NoEarlierLine(cart, id);
    NoLaterLine(cart, k);
    CartRemoveMiddle(cart[..k], cart[k], cart[k + 1..]);
  }

  lemma {:induction false} CartTotalAppend(a: seq<LineItem>, b: seq<LineItem>)
    ensures CartTotal(a + b) == CartTotal(a) + CartTotal(b)
    decreases |b|
  {
    if b == [] {
      assert a + b == a;
    } else {
      assert (a + b)[..|a + b| - 1] == a + b[..|b| - 1];
      CartTotalAppend(a, b[..|b| - 1]);
    }
  }

  lemma CartTotalSingle(l: LineItem)
    ensures CartTotal([l]) == Subtotal(l)
  {
    assert [l][..0] == [];
  }

  /** Replacing one line changes the total by the difference of the two lines. */
  lemma CartTotalUpdate(cart: seq<LineItem>, k: int, l: LineItem)
    requires 0 <= k < |cart|
    ensures CartTotal(cart[k := l]) == CartTotal(cart) - Subtotal(cart[k]) + Subtotal(l)
  {
    var before, after := cart[..k], cart[k + 1..];
    assert cart == before + [cart[k]] + after;
    assert cart[k := l] == before + [l] + after;
    CartTotalAppend(before + [cart[k]], after);
    CartTotalAppend(before, [cart[k]]);
    CartTotalAppend(before + [l], after);
    CartTotalAppend(before, [l]);
    CartTotalSingle(cart[k]);
    CartTotalSingle(l);
  }

  /** Adding `q` units of `p` raises the total by `p.precio * q`, provided
      a line already present for `p.id` carries `p`'s price. */
  lemma CartAddTotal(cart: seq<LineItem>, p: Producto, q: int)
    requires LineIndex(cart, p.id) >= 0 ==> cart[LineIndex(cart, p.id)].precioUnitario == p.precio
    ensures CartTotal(CartAdd(cart, p, q)) == CartTotal(cart) + p.precio * q
  {
    var k := LineIndex(cart, p.id);
    if k >= 0 {
      var l := cart[k];
      CartTotalUpdate(cart, k, l.(cantidad := l.cantidad + q));
      assert p.precio * (l.cantidad + q) == p.precio * l.cantidad + p.precio * q;
    } else {
      CartTotalAppend(cart, [NewLine(p, q)]);
      CartTotalSingle(NewLine(p, q));
    }
  }

  /** Lines taken from the catalogue stay consistent with it through an add
      of an entry that `find` returned. */
  lemma CartAddFromCatalogue(cart: seq<LineItem>, catalogue: seq<Producto>, id: int, q: int)
    requires LinesFromCatalogue(cart, catalogue) && Lookup(catalogue, id).Some?
    ensures LinesFromCatalogue(CartAdd(cart, Lookup(catalogue, id).value, q), catalogue)
  {
  }

  /** Everything `addProducto` keeps, for an entry `find` returned: the
      cart invariant, the catalogue agreement, and the total rising by the
      entry's price times the quantity. */
  lemma CartAddKeeps(cart: seq<LineItem>, catalogue: seq<Producto>, id: int, p: Producto, q: int)
    requires CartValid(cart) && LinesFromCatalogue(cart, catalogue) && q > 0 && Lookup(catalogue, id) == Some(p)
    ensures CartValid(CartAdd(cart, p, q))
    ensures LinesFromCatalogue(CartAdd(cart, p, q), catalogue)
    ensures CartTotal(CartAdd(cart, p, q)) == CartTotal(cart) + p.precio * q
  {
    CartAddValid(cart, p, q);
    CartAddFromCatalogue(cart, catalogue, id, q);
    var k := LineIndex(cart, p.id);
    if k >= 0 {
      assert Lookup(catalogue, cart[k].idProducto).value.precio == cart[k].precioUnitario;
    }
    CartAddTotal(cart, p, q);
  }

  lemma CartRemoveFromCatalogue(cart: seq<LineItem>, catalogue: seq<Producto>, id: int)
    requires LinesFromCatalogue(cart, catalogue)
    ensures LinesFromCatalogue(CartRemove(cart, id), catalogue)
  {
  }

  /** The payload of a valid cart names each product once, with a positive quantity. */
  lemma PayloadLinesValid(cart: seq<LineItem>)
    requires CartValid(cart)
    ensures forall i, j :: 0 <= i < j < |cart| ==> PayloadLines(cart)[i].idProducto != PayloadLines(cart)[j].idProducto
    ensures forall i :: 0 <= i < |cart| ==> PayloadLines(cart)[i].cantidad > 0
  {
  }

  // ---------------------------------------------------------------------
  // The lookups as the component runs them

  /** `productos.find(p => p.id === id)`. */
  method FindProducto(catalogue: seq<Producto>, id: int) returns (r: Option<Producto>)
    ensures r == Lookup(catalogue, id)
  {
    var i := 0;
    while i < |catalogue|
      invariant 0 <= i <= |catalogue|
      invariant forall j :: 0 <= j < i ==> catalogue[j].id != id
    {
      if catalogue[i].id == id {
        return Some(catalogue[i]);
      }
      i := i + 1;
    }
    return None;
  }

  /** `formData.productos.findIndex(p => p.idProducto === id)`. */
  method FindLineIndex(cart: seq<LineItem>, id: int) returns (k: int)
    ensures k == LineIndex(cart, id)
  {
    k := 0;
    while k < |cart|
      invariant 0 <= k <= |cart|
      invariant forall j :: 0 <= j < k ==> cart[j].idProducto != id
    {
      if cart[k].idProducto == id {
        return;
      }
      k := k + 1;
    }
    k := -1;
  }

  /** The cart update of `addProducto`: grow the line `findIndex` locates,
      or append a new line for the entry. */
  method AddLine(cart: seq<LineItem>, p: Producto, q: int) returns (r: seq<LineItem>)
    ensures r == CartAdd(cart, p, q)
  {
    var k := FindLineIndex(cart, p.id);
    if k >= 0 {
      r := cart[k := cart[k].(cantidad := cart[k].cantidad + q)];
    } else {
      r := cart + [NewLine(p, q)];
    }
  }

  // ---------------------------------------------------------------------
  // The form component's state

  class PurchaseFormState {
    var formData: FormData
    var clientes: seq<Cliente>
    var productos: seq<Producto>
    var selectedProductId: int
    var cantidad: int
    var loading: bool
    var error: Option<string>
    var submitting: bool

    /** The cart invariant, the cart's agreement with the catalogue, and an
        empty cart and catalogue until the catalogue has loaded. */
    ghost predicate Valid()
      reads this
    {
      && CartValid(formData.productos)
      && LinesFromCatalogue(formData.productos, productos)
      && (loading ==> productos == [] && formData.productos == [])
    }

    /** The component's initial state. */
    constructor ()
      ensures Valid()
      ensures formData == InitialFormData && clientes == [] && productos == []
      ensures selectedProductId == 0 && cantidad == 1
      ensures loading && error == None && !submitting
    {
      formData := InitialFormData;
      clientes := [];
      productos := [];
      selectedProductId := 0;
      cantidad := 1;
      loading := true;
      error := None;
      submitting := false;
    }

    /** The mount effect, with the network given as `fetchClientes` and
        `fetchProductos`: load the clients, then (only if that succeeded)
        the catalogue; a failure goes through the shared catch block;
        `loading` ends false. Returns the URLs requested, in order. */
    method Load(fetchClientes: string -> FetchOutcome<seq<Cliente>>,
                fetchProductos: string -> FetchOutcome<seq<Producto>>) returns (requested: seq<string>)
      requires Valid() && loading
      modifies this
      ensures Valid() && !loading
      ensures formData == old(formData) && selectedProductId == old(selectedProductId)
      ensures cantidad == old(cantidad) && submitting == old(submitting)
      ensures var c := fetchClientes(CustomersUrl);
              && requested == [CustomersUrl] + (if c.Succeeded? then [ProductsUrl] else [])
              && clientes == (if c.Succeeded? then c.data else old(clientes))
              && (c.NotOk? ==> error == Some(ClientsFailedMessage))
              && (c.Threw? ==> error == Applied(Reported(c.thrown), old(error)))
      ensures var c, p := fetchClientes(CustomersUrl), fetchProductos(ProductsUrl);
              && productos == (if c.Succeeded? && p.Succeeded? then p.data else old(productos))
              && (c.Succeeded? && p.NotOk? ==> error == Some(ProductsFailedMessage))
              && (c.Succeeded? && p.Threw? ==> error == Applied(Reported(p.thrown), old(error)))
              && (c.Succeeded? && p.Succeeded? ==> error == old(error))
    {
      var caught: Option<Thrown> := None;
      requested := [CustomersUrl];
      match fetchClientes(CustomersUrl) {
        case NotOk =>
          caught := Some(FetchError(ClientsFailedMessage));
        case Threw(t) =>
          caught := Some(t);
        case Succeeded(data) =>
          clientes := data;
          requested := requested + [ProductsUrl];
          match fetchProductos(ProductsUrl) {
            case NotOk =>
              caught := Some(FetchError(ProductsFailedMessage));
            case Threw(t) =>
              caught := Some(t);
            case Succeeded(catalogue) =>
              productos := catalogue;
          }
      }
      if caught.Some? {
        var update := Reported(caught.value);
        if update.SetError? {
          error := Some(update.message);
        }
      }
      loading := false;
    }

    /** `handleClienteChange`, with the parsed integer. */
    method SelectCliente(idCliente: int)
      requires Valid()
      modifies this`formData
      ensures Valid() && formData == old(formData).(idCliente := idCliente)
    {
      formData := formData.(idCliente := idCliente);
    }

    /** `handleMedioPagoChange`. */
    method SelectMedioPago(medioPago: string)
      requires Valid()
      modifies this`formData
      ensures Valid() && formData == old(formData).(medioPago := medioPago)
    {
      formData := formData.(medioPago := medioPago);
    }

    /** `handleProductoChange`, with the parsed integer. */
    method SelectProducto(id: int)
      modifies this`selectedProductId
      ensures selectedProductId == id
    {
      selectedProductId := id;
    }

    /** `handleCantidadChange`, with the parsed integer. */
    method SetCantidad(q: int)
      modifies this`cantidad
      ensures cantidad == q
    {
      cantidad := q;
    }

    /** `addProducto`: nothing happens without a selection, with a quantity
        below 1, or when the selection is not in the catalogue; otherwise the
        cart takes `cantidad` units of the selected entry, the total rises by
        its price times `cantidad`, and the selection resets. */
    method AddProducto()
      requires Valid()
      modifies this`formData, this`selectedProductId, this`cantidad
      ensures Valid()
      ensures old(selectedProductId) == 0 || old(cantidad) <= 0 || Lookup(productos, old(selectedProductId)).None? ==>
                formData == old(formData) && selectedProductId == old(selectedProductId) && cantidad == old(cantidad)
      ensures old(selectedProductId) != 0 && old(cantidad) > 0 && Lookup(productos, old(selectedProductId)).Some? ==>
                && formData == old(formData).(productos := CartAdd(old(formData.productos),
                                                                  Lookup(productos, old(selectedProductId)).value,
                                                                  old(cantidad)))
                && CartTotal(formData.productos) == CartTotal(old(formData.productos))
                                                    + Lookup(productos, old(selectedProductId)).value.precio * old(cantidad)
                && selectedProductId == 0 && cantidad == 1
    {
      if selectedProductId == 0 || cantidad <= 0 {
        return;
      }
      var found := FindProducto(productos, selectedProductId);
      if found.None? {
        return;
      }
      TakeProducto(found.value);
    }

    /** The rest of `addProducto` once `find` has returned `p`: the cart
        takes `cantidad` units of `p` and the selection resets. */
    method TakeProducto(p: Producto)
      requires Valid() && cantidad > 0 && Lookup(productos, selectedProductId) == Some(p)
      modifies this`formData, this`selectedProductId, this`cantidad
      ensures Valid()
      ensures formData == old(formData).(productos := CartAdd(old(formData.productos), p, old(cantidad)))
      ensures CartTotal(formData.productos) == CartTotal(old(formData.productos)) + p.precio * old(cantidad)
      ensures selectedProductId == 0 && cantidad == 1
    {
      ghost var cart := formData.productos;
      var updated := AddLine(formData.productos, p, cantidad);
      CartAddKeeps(cart, productos, selectedProductId, p, cantidad);
      assert !loading by {
        assert productos != [];
      }
      formData := formData.(productos := updated);
      selectedProductId := 0;
      cantidad := 1;
    }

    /** `removeProducto`: the cart loses every line for `id` and keeps the
        rest in order. */
    method RemoveProducto(id: int)
      requires Valid()
      modifies this`formData
      ensures Valid()
      ensures formData == old(formData).(productos := CartRemove(old(formData.productos), id))
      ensures LineIndex(old(formData.productos), id) < 0 ==> formData == old(formData)
      ensures LineIndex(old(formData.productos), id) >= 0 ==> |formData.productos| == |old(formData.productos)| - 1
    {
      ghost var cart := formData.productos;
      formData := formData.(productos := CartRemove(formData.productos, id));
      CartRemoveValid(cart, id);
      CartRemoveFromCatalogue(cart, productos, id);
      if LineIndex(cart, id) < 0 {
        CartRemoveAbsent(cart, id);
      } else {
        CartRemovePresent(cart, id);
      }
    }

    /** `handleSubmit`, with the server given as `respond`: a failed check
        sets its message and sends nothing; otherwise the payload is posted
        as JSON to the create endpoint, a created purchase's id is returned
        for navigation, a failure sets the submit handler's message, and
        `submitting` ends false. The cart is never touched. */
    method Submit(respond: CreateRequest -> FetchOutcome<int>) returns (sent: Option<CreateRequest>, navigateTo: Option<int>)
      requires Valid()
      modifies this`error, this`submitting
      ensures Valid()
      ensures Validate(formData).Failure? ==>
                sent == None && navigateTo == None
                && error == Some(Validate(formData).error) && submitting == old(submitting)
      ensures Validate(formData).Success? ==>
                && sent.Some? && !submitting
                && sent.value.url == CreatePurchaseUrl && sent.value.httpMethod == PostMethod
                && sent.value.contentType == JsonContentType && sent.value.body == Validate(formData).value
                && (respond(sent.value).Succeeded? ==> navigateTo == Some(respond(sent.value).data) && error == None)
                && (respond(sent.value).NotOk? ==> navigateTo == None && error == Some(SaveFailedMessage))
                && (respond(sent.value).Threw? ==>
                      navigateTo == None && error == Some(SubmitError(respond(sent.value).thrown)))
    {
      var checked := Validate(formData);
      if checked.Failure? {
        error := Some(checked.error);
        return None, None;
      }
      submitting := true;
      error := None;
      var request := CreateRequest(CreatePurchaseUrl, PostMethod, JsonContentType, checked.value);
      sent := Some(request);
      navigateTo := None;
      match respond(request) {
        case Succeeded(idCompra) =>
          navigateTo := Some(idCompra);
        case NotOk =>
          error := Some(SubmitError(FetchError(SaveFailedMessage)));
        case Threw(t) =>
          error := Some(SubmitError(t));
      }
      submitting := false;
    }
  }
}
