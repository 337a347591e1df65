/** The purchase list page: the state of the request that loads all
    purchases. The page's status badge is `PurchaseDetail.StatusClass`; the
    list file carries an identical copy of that switch. */
module PurchaseList {
  import opened Outcomes
  import opened PurchaseDetail

  const LoadFailedMessage: string := "No se pudieron cargar las compras"

  const PurchasesUrl: string := LocalApiBase + "/purchases/all"

  /** The state kept by the list page's effect. */
  class PurchaseListFetch {
    var purchases: seq<Purchase>
    var loading: bool
    var error: Option<string>

    /** The page's initial state: an empty list, loading, no error. */
    constructor ()
      ensures purchases == [] && loading && error == None
    {
      purchases := [];
      loading := true;
      error := None;
    }

    /** The try/catch/finally that settles the request: a parsed list
        replaces `purchases`; a response that is not OK throws the "could not
        load" error and keeps the list; a thrown value goes through the shared
        catch block, so an abort is never surfaced; `loading` ends false on
        every path. */
    method Settle(outcome: FetchOutcome<seq<Purchase>>)
      modifies this
      ensures !loading
      ensures outcome.Succeeded? ==> purchases == outcome.data && error == old(error)
      ensures outcome.NotOk? ==> purchases == old(purchases) && error == Some(LoadFailedMessage)
      ensures outcome.Threw? ==>
                purchases == old(purchases) && error == Applied(Reported(outcome.thrown), old(error))
    {
      var caught: Option<Thrown> := None;
      match outcome {
        case Succeeded(data) =>
          purchases := data;
        case NotOk =>
          caught := Some(FetchError(LoadFailedMessage));
        case Threw(t) =>
          caught := Some(t);
      }
      if caught.Some? {
        var update := Reported(caught.value);
        if update.SetError? {
          error := Some(update.message);
        }
      }
      loading := false;
    }

    /** The effect's single run on mount, with the network given as `respond`. */
    method Run(respond: string -> FetchOutcome<seq<Purchase>>)
      modifies this
      ensures !loading
      ensures respond(PurchasesUrl).Succeeded? ==>
                purchases == respond(PurchasesUrl).data && error == old(error)
      ensures respond(PurchasesUrl).NotOk? ==>
                purchases == old(purchases) && error == Some(LoadFailedMessage)
      ensures respond(PurchasesUrl).Threw? ==>
                purchases == old(purchases) && error == Applied(Reported(respond(PurchasesUrl).thrown), old(error))
    {
      Settle(respond(PurchasesUrl));
    }
  }

  /** From the page's initial state, every settled request leaves `loading`
      false and never shows an error for an abort; a failed request leaves
      the list empty. */
  method FirstLoad(outcome: FetchOutcome<seq<Purchase>>) returns (purchases: seq<Purchase>, loading: bool, error: Option<string>)
    ensures !loading
    ensures !outcome.Succeeded? ==> purchases == []
    ensures outcome.Succeeded? ==> purchases == outcome.data && error == None
    ensures outcome.NotOk? ==> error == Some(LoadFailedMessage)
    ensures outcome.Threw? && outcome.thrown.name == Some(AbortErrorName) && HasMessage(outcome.thrown) ==> error == None
    ensures outcome.Threw? && outcome.thrown.message.None? ==> error == Some(UnexpectedError)
    ensures outcome.Threw? && outcome.thrown.name != Some(AbortErrorName) && outcome.thrown.message.Some? ==>
              error == outcome.thrown.message
  {
    var page := new PurchaseListFetch();
    page.Settle(outcome);
    purchases, loading, error := page.purchases, page.loading, page.error;
  }
}
