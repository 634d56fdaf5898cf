/** The home-page blockchain summary card, `BCInfo`: it keeps the latest chain summary
    and tracks, since the card started watching the current endpoint, the highest
    transaction rate and the highest per-epoch transaction count seen, each with the
    Tx block it was seen on. */
module BCInfo {
  import opened Js
  import opened DataService

  /** `BCInfoState`: the running maxima. A field holding 0 is treated as unset, as
      the code's `!field` tests do. */
  datatype BCInfoState = BCInfoState(
    startTxBlock: Option<int>,
    maxTPS: Option<real>,
    maxTPSTxBlockNum: Option<int>,
    maxTxnCount: Option<int>,
    maxTxnCountTxBlockNum: Option<int>)

  /** `defaultBCInfoState`: nothing tracked yet. */
  const DefaultBCInfoState: BCInfoState := BCInfoState(None, None, None, None, None)

  /** The rule for the rate: the previous maximum is unset or 0, or not above the new rate. */
  predicate TpsReplaced(prev: Option<real>, rate: real) {
    FalsyReal(prev) || prev.value <= rate
  }

  /** The rule for the count: the previous maximum is unset or 0, or not above the new count. */
  predicate TxnCountReplaced(prev: Option<int>, count: int) {
    Falsy(prev) || prev.value <= count
  }

  /** The state update for one summary: a copy of the previous state, then each group
      of fields overwritten when its own condition holds. */
  function Update(prev: BCInfoState, data: BlockchainInfo): (next: BCInfoState)
    ensures Falsy(prev.startTxBlock) ==> next.startTxBlock == Some(data.numTxBlocks - 1)
    ensures !Falsy(prev.startTxBlock) ==> next.startTxBlock == prev.startTxBlock
    ensures TpsReplaced(prev.maxTPS, data.transactionRate) ==>
      next.maxTPS == Some(data.transactionRate) && next.maxTPSTxBlockNum == Some(data.numTxBlocks - 1)
    ensures !TpsReplaced(prev.maxTPS, data.transactionRate) ==>
      next.maxTPS == prev.maxTPS && next.maxTPSTxBlockNum == prev.maxTPSTxBlockNum
    ensures TxnCountReplaced(prev.maxTxnCount, data.numTxnsTxEpoch) ==>
      next.maxTxnCount == Some(data.numTxnsTxEpoch) && next.maxTxnCountTxBlockNum == Some(data.numTxBlocks - 1)
    ensures !TxnCountReplaced(prev.maxTxnCount, data.numTxnsTxEpoch) ==>
      next.maxTxnCount == prev.maxTxnCount && next.maxTxnCountTxBlockNum == prev.maxTxnCountTxBlockNum
  {
    var block := data.numTxBlocks - 1;
    var s0 := prev;
    var s1 := if Falsy(prev.startTxBlock) then s0.(startTxBlock := Some(block)) else s0;
    var s2 := if TpsReplaced(prev.maxTPS, data.transactionRate)
              then s1.(maxTPS := Some(data.transactionRate), maxTPSTxBlockNum := Some(block))
              else s1;
    var s3 := if TxnCountReplaced(prev.maxTxnCount, data.numTxnsTxEpoch)
              then s2.(maxTxnCount := Some(data.numTxnsTxEpoch), maxTxnCountTxBlockNum := Some(block))
              else s2;
    s3
  }

  /** The state after a run of successive summaries, oldest first. */
  function Track(st: BCInfoState, samples: seq<BlockchainInfo>): BCInfoState {
    if samples == [] then st
    else Update(Track(st, samples[..|samples| - 1]), samples[|samples| - 1])
  }

  lemma {:induction false} TrackAppend(st: BCInfoState, xs: seq<BlockchainInfo>, ys: seq<BlockchainInfo>)
    ensures Track(st, xs + ys) == Track(Track(st, xs), ys)
  {
    if ys == [] {
      assert xs + ys == xs;
    } else {
      assert (xs + ys)[..|xs + ys| - 1] == xs + ys[..|ys| - 1];
      TrackAppend(st, xs, ys[..|ys| - 1]);
    }
  }

  /** Once `startTxBlock` holds a nonzero block number, no later summary changes it. */
  lemma {:induction false} StartTxBlockKeptOnceNonzero(st: BCInfoState, samples: seq<BlockchainInfo>)
    requires st.startTxBlock.Some? && st.startTxBlock.value != 0
    ensures Track(st, samples).startTxBlock == st.startTxBlock
  {
    if samples != [] {
      StartTxBlockKeptOnceNonzero(st, samples[..|samples| - 1]);
    }
  }

  /** From the reset state, `startTxBlock` is the block before the first summary's block
      count, unless that is block 0. */
  lemma {:induction false} StartTxBlockFromFirstSample(samples: seq<BlockchainInfo>)
    requires |samples| > 0 && samples[0].numTxBlocks != 1
    ensures Track(DefaultBCInfoState, samples).startTxBlock == Some(samples[0].numTxBlocks - 1)
  {
    var first := Track(DefaultBCInfoState, [samples[0]]);
    assert [samples[0]][..0] == [];
    TrackAppend(DefaultBCInfoState, [samples[0]], samples[1..]);
    assert [samples[0]] + samples[1..] == samples;
    StartTxBlockKeptOnceNonzero(first, samples[1..]);
  }

  /** The code's `!prevState.startTxBlock` also holds for a start of 0: a first summary
      reporting one Tx block records 0, and the next summary records its own block. */
  lemma StartTxBlockZeroIsOverwritten(a: BlockchainInfo, b: BlockchainInfo)
    requires a.numTxBlocks == 1 && b.numTxBlocks != 1
    ensures Track(DefaultBCInfoState, [a, b]).startTxBlock == Some(b.numTxBlocks - 1)
  {
    assert [a, b][..1] == [a];
    assert [a][..0] == [];
    assert Track(DefaultBCInfoState, [a]).startTxBlock == Some(0);
  }

  /** `maxTxnCount` is the largest count seen and its block is that of the last summary
      attaining it. */
  ghost predicate RecordsLastMaxTxnCount(samples: seq<BlockchainInfo>, st: BCInfoState) {
    st.maxTxnCount.Some? &&
    (forall j :: 0 <= j < |samples| ==> samples[j].numTxnsTxEpoch <= st.maxTxnCount.value) &&
    exists k :: 0 <= k < |samples| && samples[k].numTxnsTxEpoch == st.maxTxnCount.value &&
      st.maxTxnCountTxBlockNum == Some(samples[k].numTxBlocks - 1) &&
      forall j :: k < j < |samples| ==> samples[j].numTxnsTxEpoch < st.maxTxnCount.value
  }

  /** The rate counterpart of `RecordsLastMaxTxnCount`. */
  ghost predicate RecordsLastMaxTps(samples: seq<BlockchainInfo>, st: BCInfoState) {
    st.maxTPS.Some? &&
    (forall j :: 0 <= j < |samples| ==> samples[j].transactionRate <= st.maxTPS.value) &&
    exists k :: 0 <= k < |samples| && samples[k].transactionRate == st.maxTPS.value &&
      st.maxTPSTxBlockNum == Some(samples[k].numTxBlocks - 1) &&
      forall j :: k < j < |samples| ==> samples[j].transactionRate < st.maxTPS.value
  }

  /** From the reset state, with counts that are never negative, the tracker holds the
      largest count seen, on the block of the last summary that reached it. */
  lemma {:induction false} TrackedMaxTxnCount(samples: seq<BlockchainInfo>)
    requires |samples| > 0
    requires forall j :: 0 <= j < |samples| ==> samples[j].numTxnsTxEpoch >= 0
    ensures RecordsLastMaxTxnCount(samples, Track(DefaultBCInfoState, samples))
  {
    var n := |samples| - 1;
    var x := samples[n];
    var init := samples[..n];
    var next := Track(DefaultBCInfoState, samples);
    if n == 0 {
      assert init == [];
      assert Track(DefaultBCInfoState, init) == DefaultBCInfoState;
      assert RecordsLastMaxTxnCount(samples, next) by {
        assert samples[0].numTxnsTxEpoch == next.maxTxnCount.value;
      }
    } else {
      TrackedMaxTxnCount(init);
      var st := Track(DefaultBCInfoState, init);
      var m := st.maxTxnCount.value;
      var k :| 0 <= k < |init| && init[k].numTxnsTxEpoch == m &&
               st.maxTxnCountTxBlockNum == Some(init[k].numTxBlocks - 1) &&
               forall j :: k < j < |init| ==> init[j].numTxnsTxEpoch < m;
      assert forall j :: 0 <= j < n ==> samples[j] == init[j];
      if TxnCountReplaced(st.maxTxnCount, x.numTxnsTxEpoch) {
        assert samples[n].numTxnsTxEpoch == next.maxTxnCount.value;
      } else {
        assert samples[k].numTxnsTxEpoch == next.maxTxnCount.value;
      }
    }
  }

  /** The same for the transaction rate, with rates that are never negative. */
  lemma {:induction false} TrackedMaxTps(samples: seq<BlockchainInfo>)
    requires |samples| > 0
    requires forall j :: 0 <= j < |samples| ==> samples[j].transactionRate >= 0.0
    ensures RecordsLastMaxTps(samples, Track(DefaultBCInfoState, samples))
  {
    var n := |samples| - 1;
    var x := samples[n];
    var init := samples[..n];
    var next := Track(DefaultBCInfoState, samples);
    if n == 0 {
      assert init == [];
      assert Track(DefaultBCInfoState, init) == DefaultBCInfoState;
      assert RecordsLastMaxTps(samples, next) by {
        assert samples[0].transactionRate == next.maxTPS.value;
      }
    } else {
      TrackedMaxTps(init);
      var st := Track(DefaultBCInfoState, init);
      var m := st.maxTPS.value;
      var k :| 0 <= k < |init| && init[k].transactionRate == m &&
               st.maxTPSTxBlockNum == Some(init[k].numTxBlocks - 1) &&
               forall j :: k < j < |init| ==> init[j].transactionRate < m;
      assert forall j :: 0 <= j < n ==> samples[j] == init[j];
      if TpsReplaced(st.maxTPS, x.transactionRate) {
        assert samples[n].transactionRate == next.maxTPS.value;
      } else {
        assert samples[k].transactionRate == next.maxTPS.value;
      }
    }
  }

  /** The recorded maximum count never decreases as more summaries arrive. */
  lemma {:induction false} MaxTxnCountNeverDecreases(samples: seq<BlockchainInfo>, i: nat, j: nat)
    requires 0 < i <= j <= |samples|
    requires forall k :: 0 <= k < |samples| ==> samples[k].numTxnsTxEpoch >= 0
    ensures Track(DefaultBCInfoState, samples[..i]).maxTxnCount.Some?
    ensures Track(DefaultBCInfoState, samples[..j]).maxTxnCount.Some?
    ensures Track(DefaultBCInfoState, samples[..i]).maxTxnCount.value <=
            Track(DefaultBCInfoState, samples[..j]).maxTxnCount.value
  {
    var early, late := samples[..i], samples[..j];
    TrackedMaxTxnCount(early);
    TrackedMaxTxnCount(late);
    var st := Track(DefaultBCInfoState, early);
    var k :| 0 <= k < |early| && early[k].numTxnsTxEpoch == st.maxTxnCount.value &&
             st.maxTxnCountTxBlockNum == Some(early[k].numTxBlocks - 1) &&
             forall m :: k < m < |early| ==> early[m].numTxnsTxEpoch < st.maxTxnCount.value;
    assert early[k] == late[k];
  }

  /** The recorded maximum rate never decreases as more summaries arrive. */
  lemma {:induction false} MaxTpsNeverDecreases(samples: seq<BlockchainInfo>, i: nat, j: nat)
    requires 0 < i <= j <= |samples|
    requires forall k :: 0 <= k < |samples| ==> samples[k].transactionRate >= 0.0
    ensures Track(DefaultBCInfoState, samples[..i]).maxTPS.Some?
    ensures Track(DefaultBCInfoState, samples[..j]).maxTPS.Some?
    ensures Track(DefaultBCInfoState, samples[..i]).maxTPS.value <=
            Track(DefaultBCInfoState, samples[..j]).maxTPS.value
  {
    var early, late := samples[..i], samples[..j];
    TrackedMaxTps(early);
    TrackedMaxTps(late);
    var st := Track(DefaultBCInfoState, early);
    var k :| 0 <= k < |early| && early[k].transactionRate == st.maxTPS.value &&
             st.maxTPSTxBlockNum == Some(early[k].numTxBlocks - 1) &&
             forall m :: k < m < |early| ==> early[m].transactionRate < st.maxTPS.value;
    assert early[k] == late[k];
  }

  /** The card's React state: the last summary shown and the tracked maxima. */
  class BCInfoView {
    var data: Option<BlockchainInfo>
    var state: BCInfoState

    /** No maxima are on display while no summary is: neither before the first summary
        nor after an endpoint change. */
    ghost predicate NoStaleMaxima()
      reads this
    {
      data.None? ==> state == DefaultBCInfoState
    }

    constructor ()
      ensures data == None && state == DefaultBCInfoState
      ensures NoStaleMaxima()
    {
      data := None;
      state := DefaultBCInfoState;
    }

    /** `setData(d)` followed by the effect on `data`: the update runs for a summary and
        is skipped for `null`. */
    method SetData(d: Option<BlockchainInfo>)
      modifies this
      ensures data == d
      ensures d.Some? ==> state == Update(old(state), d.value)
      ensures d.None? ==> state == old(state)
    {
      data := d;
      if data.None? {
        return;
      }
      state := Update(state, data.value);
    }

    /** The effect on `nodeUrl`: `setData(null); setState(defaultBCInfoState)`. */
    method UrlChanged()
      modifies this
      ensures data == None && state == DefaultBCInfoState
      ensures NoStaleMaxima()
    {
      SetData(None);
      state := DefaultBCInfoState;
    }
  }

  /** One run of the fetch effect: its `isCancelled` flag and the card it publishes to. */
  class BCInfoFetch {
    var isCancelled: bool
    const view: BCInfoView

    constructor (view: BCInfoView)
      ensures !isCancelled && this.view == view
    {
      this.isCancelled := false;
      this.view := view;
    }

    /** The effect body: without a data service nothing is fetched and there is no cleanup. */
    static method Start(view: BCInfoView, hasDataService: bool) returns (fetch: BCInfoFetch?)
      ensures hasDataService <==> fetch != null
      ensures fetch != null ==> fresh(fetch) && !fetch.isCancelled && fetch.view == view
    {
      if !hasDataService {
        return null;
      }
      fetch := new BCInfoFetch(view);
    }

    /** One call of `getData` completing with what `getBlockchainInfo()` settled to:
        the summary is published only while this run is not cancelled and the summary
        is present; a rejection is only logged. */
    method Complete(received: Settled<Option<BlockchainInfo>>)
      modifies view
      ensures var published := !isCancelled && received.Resolved? && received.value.Some?;
        (published ==> view.data == received.value && view.state == Update(old(view.state), received.value.value)) &&
        (!published ==> view.data == old(view.data) && view.state == old(view.state))
      ensures old(view.NoStaleMaxima()) ==> view.NoStaleMaxima()
    {
      match received
      case Rejected(_) =>
      case Resolved(receivedData) =>
        if !isCancelled && receivedData.Some? {
          view.SetData(receivedData);
        }
    }

    /** The cleanup: `isCancelled = true`; the interval is cleared. */
    method Cleanup()
      modifies this
      ensures isCancelled
    {
      isCancelled := true;
    }
  }

  /** A completion that publishes: it resolved with a summary. */
  predicate Publishes(result: Settled<Option<BlockchainInfo>>) {
    result.Resolved? && result.value.Some?
  }

  /** How many completions of a run publish. */
  function PresentCount(results: seq<Settled<Option<BlockchainInfo>>>): nat {
    if results == [] then 0
    else PresentCount(results[..|results| - 1]) + if Publishes(results[|results| - 1]) then 1 else 0
  }

  /** The summaries a run of completions publishes: the present ones of those that
      resolved, one per publishing completion, in completion order (`PublishedInOrder`). */
  function Published(results: seq<Settled<Option<BlockchainInfo>>>): (out: seq<BlockchainInfo>)
    ensures |out| == PresentCount(results)
  {
    if results == [] then []
    else
      var last := results[|results| - 1];
      var before := Published(results[..|results| - 1]);
      if Publishes(last) then before + [last.value.value] else before
  }

  /** The summary of publishing completion i sits right after those of the publishing
      completions before it, and every published summary comes from some completion. */
  lemma {:induction false} PublishedInOrder(results: seq<Settled<Option<BlockchainInfo>>>)
    ensures forall i :: 0 <= i < |results| && Publishes(results[i]) ==>
      PresentCount(results[..i]) < |Published(results)| &&
      Published(results)[PresentCount(results[..i])] == results[i].value.value
    ensures forall x :: x in Published(results) ==>
      exists i :: 0 <= i < |results| && results[i] == Resolved(Some(x))
  {
    if results != [] {
      var n := |results| - 1;
      PublishedInOrder(results[..n]);
      assert forall i :: 0 <= i < n ==> results[..n][i] == results[i] && results[..n][..i] == results[..i];
      assert results[..n] == results[..n][..n];
    }
  }

  /** One more completion appends its summary, when it has one, to what was published. */
  lemma PublishedStep(results: seq<Settled<Option<BlockchainInfo>>>, i: nat)
    requires i < |results|
    ensures Published(results[..i + 1]) ==
      if Publishes(results[i]) then Published(results[..i]) + [results[i].value.value] else Published(results[..i])
  {
    assert results[..i + 1][..i] == results[..i];
  }

  /** The polling timer of one run that is never cancelled, fed the settled results of
      its calls in the order they complete: the card then shows the last published
      summary and the maxima tracked over all published summaries. */
  method Poll(fetch: BCInfoFetch, results: seq<Settled<Option<BlockchainInfo>>>)
    requires !fetch.isCancelled
    modifies fetch.view
    ensures fetch.view.state == Track(old(fetch.view.state), Published(results))
    ensures Published(results) == [] ==> fetch.view.data == old(fetch.view.data)
    ensures Published(results) != [] ==> fetch.view.data == Some(Published(results)[|Published(results)| - 1])
    ensures old(fetch.view.state) == DefaultBCInfoState && Published(results) != [] &&
            (forall j :: 0 <= j < |Published(results)| ==> Published(results)[j].numTxnsTxEpoch >= 0) ==>
            RecordsLastMaxTxnCount(Published(results), fetch.view.state)
    ensures old(fetch.view.state) == DefaultBCInfoState && Published(results) != [] &&
            (forall j :: 0 <= j < |Published(results)| ==> Published(results)[j].transactionRate >= 0.0) ==>
            RecordsLastMaxTps(Published(results), fetch.view.state)
  {
    var i := 0;
    while i < |results|
      invariant 0 <= i <= |results|
      invariant fetch.view.state == Track(old(fetch.view.state), Published(results[..i]))
      invariant Published(results[..i]) == [] ==> fetch.view.data == old(fetch.view.data)
      invariant Published(results[..i]) != [] ==>
        fetch.view.data == Some(Published(results[..i])[|Published(results[..i])| - 1])
    {
      PublishedStep(results, i);
      fetch.Complete(results[i]);
      i := i + 1;
    }
    assert results[..i] == results;
    var shown := Published(results);
    if old(fetch.view.state) == DefaultBCInfoState && shown != [] {
      if forall j :: 0 <= j < |shown| ==> shown[j].numTxnsTxEpoch >= 0 {
        TrackedMaxTxnCount(shown);
      }
      if forall j :: 0 <= j < |shown| ==> shown[j].transactionRate >= 0.0 {
        TrackedMaxTps(shown);
      }
    }
  }

  /** A fetch that goes through the data service: the summary the node answers, if any. */
  method CompleteFromNode(fetch: BCInfoFetch, node: Node)
    modifies fetch.view
    ensures !fetch.isCancelled && GetBlockchainInfo(node).Some? ==>
      fetch.view.data == GetBlockchainInfo(node) &&
      fetch.view.state == Update(old(fetch.view.state), GetBlockchainInfo(node).value)
    ensures fetch.isCancelled || GetBlockchainInfo(node).None? ==>
      fetch.view.data == old(fetch.view.data) && fetch.view.state == old(fetch.view.state)
  {
    fetch.Complete(Resolved(GetBlockchainInfo(node)));
  }

  /** After the cleanup of a run, a call of that run that completes later changes nothing. */
  method LateCompletionIsDiscarded(fetch: BCInfoFetch, late: Settled<Option<BlockchainInfo>>)
    modifies fetch, fetch.view
    ensures fetch.isCancelled
    ensures fetch.view.data == old(fetch.view.data) && fetch.view.state == old(fetch.view.state)
  {
    fetch.Cleanup();
    fetch.Complete(late);
  }
}
