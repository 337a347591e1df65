/** The purchase detail page: the status badge, the displayed total, and the
    state of the request that loads one purchase. */
module PurchaseDetail {
  import opened Outcomes

  const CompletedClass: string := "bg-green-100 text-green-800"
  const CancelledClass: string := "bg-red-100 text-red-800"
  const PendingClass: string := "bg-yellow-100 text-yellow-800"

  const NotFoundMessage: string := "Compra no encontrada"

  /** One line of a stored purchase; `total` is the line amount in cents. */
  datatype PurchaseItem = PurchaseItem(idCompra: int, idProducto: int, cantidad: int, total: int)

  /** The fields of a stored purchase that the views read. */
  datatype Purchase = Purchase(idCompra: int, idCliente: int, estado: string, medioPago: string,
                               productos: seq<PurchaseItem>)

  /** The badge colour for a purchase status: green for a completed purchase,
      red for a cancelled one, yellow for every other status string. */
  function StatusClass(estado: string): (c: string)
    ensures c == CompletedClass <==> estado == "COMPLETADO"
    ensures c == CancelledClass <==> estado == "CANCELADO"
    ensures c == PendingClass <==> estado != "COMPLETADO" && estado != "CANCELADO"
  {
    match estado
    case "COMPLETADO" => CompletedClass
    case "CANCELADO" => CancelledClass
    case _ => PendingClass
  }

  /** The purchase total shown on the page: the `reduce` over the lines'
      `total`, starting from 0 and adding left to right. */
  function PurchaseTotal(items: seq<PurchaseItem>): int {
    if items == [] then 0 else PurchaseTotal(items[..|items| - 1]) + items[|items| - 1].total
  }

  /** The total splits over concatenation, so it is the sum of the lines'
      totals whatever the grouping. */
  lemma {:induction false} PurchaseTotalAppend(a: seq<PurchaseItem>, b: seq<PurchaseItem>)
    ensures PurchaseTotal(a + b) == PurchaseTotal(a) + PurchaseTotal(b)
    decreases |b|
  {
    if b == [] {
      assert a + b == a;
    } else {
      assert (a + b)[..|a + b| - 1] == a + b[..|b| - 1];
      PurchaseTotalAppend(a, b[..|b| - 1]);
    }
  }

  /** A purchase with no lines totals 0; one line totals its own amount. */
  lemma PurchaseTotalSingle(item: PurchaseItem)
    ensures PurchaseTotal([]) == 0
    ensures PurchaseTotal([item]) == item.total
  {
    assert [item][..0] == [];
  }

  /** Lines with non-negative amounts give a non-negative total that bounds
      each line's amount. */
  lemma {:induction false} PurchaseTotalBounds(items: seq<PurchaseItem>)
    requires forall i :: 0 <= i < |items| ==> items[i].total >= 0
    ensures PurchaseTotal(items) >= 0
    ensures forall i :: 0 <= i < |items| ==> items[i].total <= PurchaseTotal(items)
  {
    if items != [] {
      var init := items[..|items| - 1];
      PurchaseTotalBounds(init);
      assert forall i :: 0 <= i < |init| ==> init[i] == items[i];
    }
  }

  function PurchaseUrl(purchaseId: string): string {
    LocalApiBase + "/purchases/" + purchaseId
  }

  /** The state of the `useFetchPurchase` hook. */
  class PurchaseFetch {
    var purchase: Option<Purchase>
    var loading: bool
    var error: Option<string>

    /** The hook's initial state: nothing loaded, loading, no error. */
    constructor ()
      ensures purchase == None && loading && error == None
    {
      purchase := None;
      loading := true;
      error := None;
    }

    /** The try/catch/finally that settles one request: a parsed purchase is
        stored; a response that is not OK throws the "not found" error; a
        thrown value goes through the shared catch block; `loading` ends
        false on every path. Nothing is reset before the request, so a value
        from an earlier run survives where this run does not overwrite it. */
    method Settle(outcome: FetchOutcome<Purchase>)
      modifies this
      ensures !loading
      ensures outcome.Succeeded? ==> purchase == Some(outcome.data) && error == old(error)
      ensures outcome.NotOk? ==> purchase == old(purchase) && error == Some(NotFoundMessage)
      ensures outcome.Threw? ==>
                purchase == old(purchase) && error == Applied(Reported(outcome.thrown), old(error))
    {
      var caught: Option<Thrown> := None;
      match outcome {
        case Succeeded(data) =>
          purchase := Some(data);
        case NotOk =>
          caught := Some(FetchError(NotFoundMessage));
        case Threw(t) =>
          caught := Some(t);
      }
      if caught.Some? {
        var update := Reported(caught.value);
        if update.SetError? {
          error := Some(update.message);
        }
      }
      loading := false;
    }

    /** One run of the effect for `purchaseId`, with the network given as
        `respond`; returns the URL requested. */
    method Run(purchaseId: string, respond: string -> FetchOutcome<Purchase>) returns (url: string)
      modifies this
      ensures url == PurchaseUrl(purchaseId) && !loading
      ensures respond(url).Succeeded? ==> purchase == Some(respond(url).data) && error == old(error)
      ensures respond(url).NotOk? ==> purchase == old(purchase) && error == Some(NotFoundMessage)
      ensures respond(url).Threw? ==>
                purchase == old(purchase) && error == Applied(Reported(respond(url).thrown), old(error))
    {
      url := PurchaseUrl(purchaseId);
      Settle(respond(url));
    }
  }

  /** From the hook's initial state: a response that is not OK shows "not
      found" and no purchase; an abort shows nothing; a thrown value without
      a string message shows the generic message; `loading` ends false. */
  method FirstLoad(outcome: FetchOutcome<Purchase>) returns (purchase: Option<Purchase>, loading: bool, error: Option<string>)
    ensures !loading
    ensures purchase.Some? <==> outcome.Succeeded?
    ensures outcome.Succeeded? ==> purchase == Some(outcome.data) && error == None
    ensures outcome.NotOk? ==> error == Some(NotFoundMessage)
    ensures outcome.Threw? && outcome.thrown.name == Some(AbortErrorName) && HasMessage(outcome.thrown) ==> error == None
    ensures outcome.Threw? && !HasMessage(outcome.thrown) ==> error == Some(UnexpectedError)
    ensures outcome.Threw? && outcome.thrown.name != Some(AbortErrorName) && HasMessage(outcome.thrown) ==>
              error == outcome.thrown.message
  {
    var hook := new PurchaseFetch();
    hook.Settle(outcome);
    purchase, loading, error := hook.purchase, hook.loading, hook.error;
  }
}
