/** The home-page pending-transactions card, `PendTxnList`: it polls the endpoint's
    pending transactions, forgets them when the endpoint changes, and shows a spinner,
    a "no pending transactions" line or a table whose hash column is `0x`-prefixed. */
module PendTxnList {
  import opened Js
  import opened DataService

  const NoPendingText: string := "No Pending Transactions"

  /** The `hash-col` entry of the function map: a hash shown with its `0x` prefix. */
  function FormatHash(hash: string): (shown: string)
    ensures |shown| == |hash| + 2
    ensures shown[..2] == "0x" && shown[2..] == hash
  {
    "0x" + hash
  }

  /** One table row: the formatted hash and the status, as the two columns show them. */
  datatype Row = Row(hash: string, status: string)

  /** What the card body shows. */
  datatype Body = Spinner | Text(text: string) | Table(rows: seq<Row>)

  /** The card body for the current data: spinner while there is none, the no-pending
      line for an empty list, and otherwise one table row per transaction, in order. */
  function Render(data: Option<seq<PendingTxnResult>>): (body: Body)
    ensures body == Spinner <==> data.None?
    ensures body == Text(NoPendingText) <==> data == Some([])
    ensures body.Table? <==> data.Some? && |data.value| > 0
    ensures body.Table? ==>
      |body.rows| == |data.value| &&
      forall i :: 0 <= i < |data.value| ==>
        body.rows[i] == Row(FormatHash(data.value[i].txnHash), data.value[i].status)
  {
    match data
    case None => Spinner
    case Some(txns) =>
      if |txns| > 0 then
        Table(seq(|txns|, i requires 0 <= i < |txns| => Row(FormatHash(txns[i].txnHash), txns[i].status)))
      else Text(NoPendingText)
  }

  /** The card's React state. */
  class PendTxnListView {
    var data: Option<seq<PendingTxnResult>>

    constructor ()
      ensures data == None
    {
      data := None;
    }

    /** The effect on `nodeUrl`: `setData(null)`, so the card shows the spinner again. */
    method UrlChanged()
      modifies this
      ensures data == None
      ensures Render(data) == Spinner
    {
      data := None;
    }
  }

  /** One run of the fetch effect: its `isCancelled` flag and the card it publishes to. */
  class PendTxnFetch {
    var isCancelled: bool
    const view: PendTxnListView

    constructor (view: PendTxnListView)
      ensures !isCancelled && this.view == view
    {
      this.isCancelled := false;
      this.view := view;
    }

    /** The effect body: without a data service nothing is fetched and there is no cleanup. */
    static method Start(view: PendTxnListView, hasDataService: bool) returns (fetch: PendTxnFetch?)
      ensures hasDataService <==> fetch != null
      ensures fetch != null ==> fresh(fetch) && !fetch.isCancelled && fetch.view == view
    {
      if !hasDataService {
        return null;
      }
      fetch := new PendTxnFetch(view);
    }

    /** One call of `getData` completing with what `getLatest5PendingTransactions()`
        settled to: a list, even an empty one, is stored while the run is not cancelled;
        `undefined` and a rejection leave the data as it was. */
    method Complete(received: Settled<Option<seq<PendingTxnResult>>>)
      modifies view
      ensures var published := !isCancelled && received.Resolved? && received.value.Some?;
        (published ==> view.data == received.value) &&
        (!published ==> view.data == old(view.data))
    {
      match received
      case Rejected(_) =>
      case Resolved(receivedData) =>
        if !isCancelled && receivedData.Some? {
          view.data := receivedData;
        }
    }

    /** The cleanup: `isCancelled = true`; the interval is cleared. */
    method Cleanup()
      modifies this
      ensures isCancelled
    {
      isCancelled := true;
    }
  }

  /** An endpoint change followed by the cleanup of the old run: whatever the old run's
      calls complete with afterwards, the card keeps showing the spinner. */
  method StaleListNeverShown(view: PendTxnListView, oldRun: PendTxnFetch, late: seq<Settled<Option<seq<PendingTxnResult>>>>)
    requires oldRun.view == view
    modifies view, oldRun
    ensures oldRun.isCancelled
    ensures view.data == None && Render(view.data) == Spinner
  {
    view.UrlChanged();
    oldRun.Cleanup();
    var i := 0;
    while i < |late|
      invariant 0 <= i <= |late|
      invariant oldRun.isCancelled && view.data == None
    {
      oldRun.Complete(late[i]);
      i := i + 1;
    }
  }

  /** A fetch that goes through the data service: the pending list the node answers, whole. */
  method CompleteFromNode(fetch: PendTxnFetch, node: Node)
    modifies fetch.view
    ensures !fetch.isCancelled && node.getPendingTxns.Ok? ==> fetch.view.data == Some(node.getPendingTxns.result)
    ensures fetch.isCancelled || node.getPendingTxns.Error? ==> fetch.view.data == old(fetch.view.data)
  {
    fetch.Complete(Resolved(GetLatest5PendingTransactions(node)));
  }
}
