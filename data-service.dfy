/** The explorer's `DataService`: every method issues one or more RPC calls through
    the zilliqa-js client and reshapes the answers. The client is an oracle here: a
    `Node` value holds the answer the endpoint gives to each call, and every method
    is a function from those answers to what the method resolves with. */
module DataService {
  import opened Js

  const MainnetUrl: string := "https://api.zilliqa.com/"
  const NotContractMessage: string := "Address not contract address"

  /** The zilliqa-js client, bound to one endpoint. */
  datatype Zilliqa = Zilliqa(url: string)

  /** The service object: the endpoint it talks to and its client. */
  datatype DataService = DataService(nodeUrl: string, zilliqa: Zilliqa)

  /** `new DataService(nodeUrl)`: a null or empty URL selects the mainnet endpoint,
      any other URL is used as given; the client is bound to the same URL. */
  function New(nodeUrl: Option<string>): (ds: DataService)
    ensures ds.zilliqa.url == ds.nodeUrl
    ensures !TruthyString(nodeUrl) ==> ds.nodeUrl == MainnetUrl
    ensures TruthyString(nodeUrl) ==> ds.nodeUrl == nodeUrl.value
  {
    if TruthyString(nodeUrl) then DataService(nodeUrl.value, Zilliqa(nodeUrl.value))
    else DataService(MainnetUrl, Zilliqa(MainnetUrl))
  }

  // ---------------------------------------------------------------------------
  // What the node sends back
  // ---------------------------------------------------------------------------

  /** A JSON-RPC answer: a `result`, or an `error` object carrying a message. A call
      whose promise rejects (transport failure) is folded into `Error` as well. */
  datatype Response<+T> = Ok(result: T) | Error(message: string)

  /** `if (response.error !== undefined) throw new Error(response.error.message);
      return response.result`. */
  function Check<T>(r: Response<T>): (p: Settled<T>)
    ensures p.Resolved? <==> r.Ok?
    ensures p.Resolved? ==> p.value == r.result
    ensures p.Rejected? ==> p.reason == r.message
  {
    match r
    case Ok(v) => Resolved(v)
    case Error(m) => Rejected(m)
  }

  /** Block header; `BlockNum` is a decimal string. Fields the code never reads are left out. */
  datatype BlockHeader = BlockHeader(blockNum: string, timestamp: string)
  datatype DsBlock = DsBlock(header: BlockHeader, signature: string)
  datatype TxBlock = TxBlock(header: BlockHeader, body: string)

  /** One entry of a block listing page, and the page itself. */
  datatype BlockShort = BlockShort(blockNum: int, hash: string)
  datatype BlockList = BlockList(data: seq<BlockShort>, maxPages: int)

  datatype TxList = TxList(txnHashes: seq<string>, number: int)
  datatype Transaction = Transaction(senderAddress: string, toAddr: string, amount: int)
  datatype PendingTxnResult = PendingTxnResult(txnHash: string, status: string)
  datatype InitParam = InitParam(vname: string, valueType: string, value: string)
  datatype AccData = AccData(balance: int, nonce: int)
  /** A deployed contract; its `state` is opaque JSON text here. */
  datatype AccContract = AccContract(address: string, state: string)

  /** The blockchain summary, with its count fields already parsed to numbers. */
  datatype BlockchainInfo = BlockchainInfo(numTxBlocks: int, transactionRate: real, numTxnsTxEpoch: int)

  /** The answers of the endpoint the client is bound to, call by call. */
  datatype Node = Node(
    getBlockChainInfo: Response<Option<BlockchainInfo>>,
    getNumDSBlocks: Response<string>,
    getNumTxBlocks: Response<string>,
    getDSBlock: int -> Response<DsBlock>,
    getDSBlockListing: int -> Response<BlockList>,
    getTxBlock: int -> Response<TxBlock>,
    getTxBlockListing: int -> Response<BlockList>,
    getRecentTransactions: Response<TxList>,
    getTransaction: string -> Response<Transaction>,
    getTransactionsForTxBlock: int -> Response<seq<seq<string>>>,
    getPendingTxns: Response<seq<PendingTxnResult>>,
    getContractAddressFromTransactionID: string -> Response<string>,
    getBalance: string -> Response<AccData>,
    getSmartContracts: string -> Response<seq<AccContract>>,
    getSmartContractCode: string -> Response<string>,
    getSmartContractInit: string -> Response<seq<InitParam>>,
    getSmartContractState: string -> Response<string>)

  // ---------------------------------------------------------------------------
  // What the service hands back (the shapes of `typings/api.d.ts`)
  // ---------------------------------------------------------------------------

  datatype DsBlockObjWithHash = DsBlockObjWithHash(block: DsBlock, hash: string)
  datatype MappedDSBlockListing = MappedDSBlockListing(data: seq<DsBlockObjWithHash>, maxPages: int)
  datatype MappedTxBlockListing = MappedTxBlockListing(data: seq<TxBlock>, maxPages: int)
  /** `txnHashes` is whatever `getTransactionsForTxBlock` gave, `undefined` included. */
  datatype TxBlockObjWithTxnHashes = TxBlockObjWithTxnHashes(block: TxBlock, txnHashes: Option<seq<string>>)
  datatype TransactionWithTxnHash = TransactionWithTxnHash(txn: Transaction, hash: string)
  datatype TransactionDetails = TransactionDetails(txn: Transaction, hash: string, contractAddr: Option<string>)
  datatype ContractData = ContractData(code: string, initParams: seq<InitParam>, state: string)

  // ---------------------------------------------------------------------------
  // Blockchain-related
  // ---------------------------------------------------------------------------

  /** `getBlockchainInfo`: the result is read without looking at the error field, so an
      error answer gives `undefined` as well. */
  function GetBlockchainInfo(node: Node): (r: Option<BlockchainInfo>)
    ensures node.getBlockChainInfo.Error? ==> r.None?
    ensures node.getBlockChainInfo.Ok? ==> r == node.getBlockChainInfo.result
  {
    match node.getBlockChainInfo
    case Ok(info) => info
    case Error(_) => None
  }

  // ---------------------------------------------------------------------------
  // DS blocks
  // ---------------------------------------------------------------------------

  /** How the two block-count methods read their answer: an error gives `undefined`, and
      a result goes through `parseInt(result, 10)`, whose NaN is the inner `None`. */
  function ParsedCount(answer: Response<string>): Option<Option<nat>> {
    match answer
    case Error(_) => None
    case Ok(count) => Some(ParseInt(count))
  }

  /** `getNumDSBlocks`: `undefined` iff the call errs; NaN iff the answer does not start
      with a digit; otherwise the decimal value of the answer's leading digits. */
  function GetNumDSBlocks(node: Node): (r: Option<Option<nat>>)
    ensures r.Some? <==> node.getNumDSBlocks.Ok?
    ensures r.Some? ==>
      var count := node.getNumDSBlocks.result;
      (r.value.None? <==> count == [] || !IsDigit(count[0])) &&
      (AllDigits(count) && count != [] ==> r.value == Some(DecimalValue(count)))
  {
    ParsedCount(node.getNumDSBlocks)
  }

  /** A node that answers with the decimal spelling of n gives the count n back. */
  lemma {:induction false} NumDSBlocksReadsDecimalCount(node: Node, n: nat)
    requires node.getNumDSBlocks == Ok(NatToString(n))
    ensures GetNumDSBlocks(node) == Some(Some(n))
  {
    ParseIntNatToString(n);
  }

  /** The block the node answers for `blockNum`, kept only if its header names that block. */
  function GetDSBlockDetails(node: Node, blockNum: int): (r: Option<DsBlock>)
    ensures r.Some? <==>
      node.getDSBlock(blockNum).Ok? && ParseInt(node.getDSBlock(blockNum).result.header.blockNum) == Some(blockNum)
    ensures r.Some? ==> r.value == node.getDSBlock(blockNum).result
  {
    match node.getDSBlock(blockNum)
    case Error(_) => None
    case Ok(block) =>
      if ParseInt(block.header.blockNum) != Some(blockNum) then None  // 'Invalid DS Block Number'
      else Some(block)
  }

  /** The detail call made for one listing entry. */
  function FetchDSBlock(node: Node): BlockShort -> Settled<DsBlock> {
    (b: BlockShort) => Check(node.getDSBlock(b.blockNum))
  }

  /** `getLatest5DSBlocks`: the details of the first five entries of listing page 1. */
  function GetLatest5DSBlocks(node: Node): (r: Option<seq<DsBlock>>)
    ensures r.Some? <==>
      node.getDSBlockListing(1).Ok? &&
      forall i :: 0 <= i < Min(5, |node.getDSBlockListing(1).result.data|) ==>
        node.getDSBlock(node.getDSBlockListing(1).result.data[i].blockNum).Ok?
    ensures r.Some? ==>
      var index := node.getDSBlockListing(1).result.data;
      |r.value| == Min(5, |index|) &&
      forall i :: 0 <= i < |r.value| ==> r.value[i] == node.getDSBlock(index[i].blockNum).result
  {
    match node.getDSBlockListing(1)
    case Error(_) => None
    case Ok(page) =>
      var latest := SliceFromStart(page.data, 5);
      Caught(All(latest, FetchDSBlock(node)))
  }

  /** The detail of one listing entry with the entry's hash attached. */
  function FetchDSBlockWithHash(node: Node): BlockShort -> Settled<DsBlockObjWithHash> {
    (b: BlockShort) =>
      match node.getDSBlock(b.blockNum)
      case Error(m) => Rejected(m)
      case Ok(block) => Resolved(DsBlockObjWithHash(block, b.hash))
  }

  /** `getDSBlocksListing(pageNum)`: index page merged with the detail of every entry.
      There is no try/catch, so any failing call rejects the whole page. The
      detail's own block number is not compared with the entry's. */
  function GetDSBlocksListing(node: Node, pageNum: int): (r: Settled<MappedDSBlockListing>)
    ensures r.Resolved? <==>
      node.getDSBlockListing(pageNum).Ok? &&
      forall i :: 0 <= i < |node.getDSBlockListing(pageNum).result.data| ==>
        node.getDSBlock(node.getDSBlockListing(pageNum).result.data[i].blockNum).Ok?
    ensures r.Resolved? ==>
      var index := node.getDSBlockListing(pageNum).result;
      r.value.maxPages == index.maxPages &&
      |r.value.data| == |index.data| &&
      forall i :: 0 <= i < |index.data| ==>
        r.value.data[i] == DsBlockObjWithHash(node.getDSBlock(index.data[i].blockNum).result, index.data[i].hash)
    ensures r.Rejected? ==>
      (node.getDSBlockListing(pageNum).Error? && r.reason == node.getDSBlockListing(pageNum).message) ||
      (node.getDSBlockListing(pageNum).Ok? &&
       exists i :: 0 <= i < |node.getDSBlockListing(pageNum).result.data| &&
         node.getDSBlock(node.getDSBlockListing(pageNum).result.data[i].blockNum) == Error(r.reason))
  {
    match node.getDSBlockListing(pageNum)
    case Error(m) => Rejected(m)
    case Ok(page) =>
      match All(page.data, FetchDSBlockWithHash(node))
      case Rejected(m) => Rejected(m)
      case Resolved(blocks) => Resolved(MappedDSBlockListing(blocks, page.maxPages))
  }

  /** When page 1 of the listing resolves, the latest five DS blocks are its first
      five blocks, without their hashes. */
  lemma Latest5DSBlocksArePage1Prefix(node: Node)
    requires GetDSBlocksListing(node, 1).Resolved?
    ensures var page := GetDSBlocksListing(node, 1).value.data;
      GetLatest5DSBlocks(node).Some? &&
      |GetLatest5DSBlocks(node).value| == Min(5, |page|) &&
      forall i :: 0 <= i < |GetLatest5DSBlocks(node).value| ==> GetLatest5DSBlocks(node).value[i] == page[i].block
  {
  }

  // ---------------------------------------------------------------------------
  // Tx blocks
  // ---------------------------------------------------------------------------

  /** `getNumTxBlocks`: read as `getNumDSBlocks` reads its answer. */
  function GetNumTxBlocks(node: Node): (r: Option<Option<nat>>)
    ensures r.Some? <==> node.getNumTxBlocks.Ok?
    ensures r.Some? ==>
      var count := node.getNumTxBlocks.result;
      (r.value.None? <==> count == [] || !IsDigit(count[0])) &&
      (AllDigits(count) && count != [] ==> r.value == Some(DecimalValue(count)))
  {
    ParsedCount(node.getNumTxBlocks)
  }

  lemma {:induction false} NumTxBlocksReadsDecimalCount(node: Node, n: nat)
    requires node.getNumTxBlocks == Ok(NatToString(n))
    ensures GetNumTxBlocks(node) == Some(Some(n))
  {
    ParseIntNatToString(n);
  }

  /** `getTransactionsForTxBlock`: the per-shard hash lists of the block, flattened. */
  function GetTransactionsForTxBlock(node: Node, blockNum: int): (r: Option<seq<string>>)
    ensures r.Some? <==> node.getTransactionsForTxBlock(blockNum).Ok?
    ensures r.Some? ==>
      var shards := node.getTransactionsForTxBlock(blockNum).result;
      |r.value| == TotalLength(shards) &&
      forall i, j :: 0 <= i < |shards| && 0 <= j < |shards[i]| ==> OrderKept(r.value, shards, i, j)
  {
    match node.getTransactionsForTxBlock(blockNum)
    case Error(_) => None
    case Ok(shards) =>
      FlatOrder(shards);
      Some(Flat(shards))
  }

  /** `getTxBlockDetails`: the block, kept only if its header names the requested block,
      with the block's transaction hashes attached. */
  function GetTxBlockDetails(node: Node, blockNum: int): (r: Option<TxBlockObjWithTxnHashes>)
    ensures r.Some? <==>
      node.getTxBlock(blockNum).Ok? && ParseInt(node.getTxBlock(blockNum).result.header.blockNum) == Some(blockNum)
    ensures r.Some? ==>
      r.value.block == node.getTxBlock(blockNum).result &&
      r.value.txnHashes == GetTransactionsForTxBlock(node, blockNum)
  {
    match node.getTxBlock(blockNum)
    case Error(_) => None
    case Ok(block) =>
      if ParseInt(block.header.blockNum) != Some(blockNum) then None  // 'Invalid Tx Block Number'
      else Some(TxBlockObjWithTxnHashes(block, GetTransactionsForTxBlock(node, blockNum)))
  }

  /** A node that labels block n with the decimal spelling of n passes both block-number checks. */
  lemma {:induction false} WellLabelledBlocksPassCheck(node: Node, n: nat)
    requires node.getDSBlock(n).Ok? && node.getDSBlock(n).result.header.blockNum == NatToString(n)
    requires node.getTxBlock(n).Ok? && node.getTxBlock(n).result.header.blockNum == NatToString(n)
    ensures GetDSBlockDetails(node, n) == Some(node.getDSBlock(n).result)
    ensures GetTxBlockDetails(node, n).Some? && GetTxBlockDetails(node, n).value.block == node.getTxBlock(n).result
  {
    ParseIntNatToString(n);
  }

  function FetchTxBlock(node: Node): BlockShort -> Settled<TxBlock> {
    (b: BlockShort) => Check(node.getTxBlock(b.blockNum))
  }

  /** `getLatest5TxBlocks`: the details of the first five entries of listing page 1. */
  function GetLatest5TxBlocks(node: Node): (r: Option<seq<TxBlock>>)
    ensures r.Some? <==>
      node.getTxBlockListing(1).Ok? &&
      forall i :: 0 <= i < Min(5, |node.getTxBlockListing(1).result.data|) ==>
        node.getTxBlock(node.getTxBlockListing(1).result.data[i].blockNum).Ok?
    ensures r.Some? ==>
      var index := node.getTxBlockListing(1).result.data;
      |r.value| == Min(5, |index|) &&
      forall i :: 0 <= i < |r.value| ==> r.value[i] == node.getTxBlock(index[i].blockNum).result
  {
    match node.getTxBlockListing(1)
    case Error(_) => None
    case Ok(page) =>
      var latest := SliceFromStart(page.data, 5);
      Caught(All(latest, FetchTxBlock(node)))
  }

  /** `getTxBlocksListing(pageNum)`: index page merged with the detail of every entry;
      any failure is caught and gives `undefined`. No hash is attached. */
  function GetTxBlocksListing(node: Node, pageNum: int): (r: Option<MappedTxBlockListing>)
    ensures r.Some? <==>
      node.getTxBlockListing(pageNum).Ok? &&
      forall i :: 0 <= i < |node.getTxBlockListing(pageNum).result.data| ==>
        node.getTxBlock(node.getTxBlockListing(pageNum).result.data[i].blockNum).Ok?
    ensures r.Some? ==>
      var index := node.getTxBlockListing(pageNum).result;
      r.value.maxPages == index.maxPages &&
      |r.value.data| == |index.data| &&
      forall i :: 0 <= i < |index.data| ==> r.value.data[i] == node.getTxBlock(index.data[i].blockNum).result
  {
    match node.getTxBlockListing(pageNum)
    case Error(_) => None
    case Ok(page) =>
      match All(page.data, FetchTxBlock(node))
      case Rejected(_) => None
      case Resolved(blocks) => Some(MappedTxBlockListing(blocks, page.maxPages))
  }

  /** When page 1 of the listing is available, the latest five Tx blocks are its first five. */
  lemma Latest5TxBlocksArePage1Prefix(node: Node)
    requires GetTxBlocksListing(node, 1).Some?
    ensures GetLatest5TxBlocks(node) == Some(SliceFromStart(GetTxBlocksListing(node, 1).value.data, 5))
  {
    var index := node.getTxBlockListing(1).result.data;
    assert forall i :: 0 <= i < Min(5, |index|) ==> node.getTxBlock(index[i].blockNum).Ok?;
    var page := GetTxBlocksListing(node, 1).value.data;
    var latest := GetLatest5TxBlocks(node).value;
    assert |latest| == |SliceFromStart(page, 5)|;
    assert forall i :: 0 <= i < |latest| ==> latest[i] == SliceFromStart(page, 5)[i];
    assert latest == SliceFromStart(page, 5);
  }

  // ---------------------------------------------------------------------------
  // Transactions
  // ---------------------------------------------------------------------------

  function FetchTransactionWithHash(node: Node): string -> Settled<TransactionWithTxnHash> {
    (h: string) =>
      match node.getTransaction(h)
      case Error(m) => Rejected(m)
      case Ok(txn) => Resolved(TransactionWithTxnHash(txn, h))
  }

  /** `getLatest5ValidatedTransactions`: the first five recent hashes, each paired with its transaction. */
  function GetLatest5ValidatedTransactions(node: Node): (r: Option<seq<TransactionWithTxnHash>>)
    ensures r.Some? <==>
      node.getRecentTransactions.Ok? &&
      forall i :: 0 <= i < Min(5, |node.getRecentTransactions.result.txnHashes|) ==>
        node.getTransaction(node.getRecentTransactions.result.txnHashes[i]).Ok?
    ensures r.Some? ==>
      var hashes := node.getRecentTransactions.result.txnHashes;
      |r.value| == Min(5, |hashes|) &&
      forall i :: 0 <= i < |r.value| ==>
        r.value[i] == TransactionWithTxnHash(node.getTransaction(hashes[i]).result, hashes[i])
  {
    match node.getRecentTransactions
    case Error(_) => None
    case Ok(list) =>
      var latest := SliceFromStart(list.txnHashes, 5);
      Caught(All(latest, FetchTransactionWithHash(node)))
  }

  /** `getTransactionsWithHash`: every given hash paired with its transaction, in order;
      any failed lookup gives `undefined` for the whole list. */
  function GetTransactionsWithHash(node: Node, hashes: seq<string>): (r: Option<seq<TransactionWithTxnHash>>)
    ensures r.Some? <==> forall i :: 0 <= i < |hashes| ==> node.getTransaction(hashes[i]).Ok?
    ensures r.Some? ==>
      |r.value| == |hashes| &&
      forall i :: 0 <= i < |hashes| ==>
        r.value[i] == TransactionWithTxnHash(node.getTransaction(hashes[i]).result, hashes[i])
  {
    Caught(All(hashes, FetchTransactionWithHash(node)))
  }

  /** `getRecentTransactions`: the node's recent-transactions list, or `undefined` on error. */
  function GetRecentTransactions(node: Node): (r: Option<TxList>)
    ensures r.Some? <==> node.getRecentTransactions.Ok?
    ensures r.Some? ==> r.value == node.getRecentTransactions.result
  {
    match node.getRecentTransactions
    case Error(_) => None
    case Ok(list) => Some(list)
  }

  /** The latest validated transactions are `getTransactionsWithHash` of the first five
      recent hashes. */
  lemma {:induction false} Latest5ValidatedAreFirstRecentWithHash(node: Node)
    requires GetRecentTransactions(node).Some?
    ensures GetLatest5ValidatedTransactions(node) ==
      GetTransactionsWithHash(node, SliceFromStart(GetRecentTransactions(node).value.txnHashes, 5))
  {
  }

  /** `getLatest5PendingTransactions`: despite its name, the whole pending list, untruncated. */
  function GetLatest5PendingTransactions(node: Node): (r: Option<seq<PendingTxnResult>>)
    ensures r.Some? <==> node.getPendingTxns.Ok?
    ensures r.Some? ==> |r.value| == |node.getPendingTxns.result| && r.value == node.getPendingTxns.result
  {
    match node.getPendingTxns
    case Error(_) => None
    case Ok(txns) => Some(txns)
  }

  /** `getContractAddrFromTransaction`: the address of the contract a transaction
      created; every failure is caught and gives `undefined`. */
  function GetContractAddrFromTransaction(node: Node, txnHash: string): (r: Option<string>)
    ensures r.Some? <==> node.getContractAddressFromTransactionID(txnHash).Ok?
    ensures r.Some? ==> r.value == node.getContractAddressFromTransactionID(txnHash).result
  {
    Caught(Check(node.getContractAddressFromTransactionID(txnHash)))
  }

  /** `getTransactionDetails(txnHash)`: the transaction, looked up without the two-character
      `0x` prefix, carrying the hash as given and, when the lookup yields a non-empty
      address, the address of the contract it created. */
  function GetTransactionDetails(node: Node, txnHash: string): (r: Option<TransactionDetails>)
    ensures r.Some? <==> node.getTransaction(Substring(txnHash, 2)).Ok?
    ensures r.Some? ==>
      var addr := GetContractAddrFromTransaction(node, Substring(txnHash, 2));
      r.value.txn == node.getTransaction(Substring(txnHash, 2)).result &&
      r.value.hash == txnHash &&
      (r.value.contractAddr.Some? <==> TruthyString(addr)) &&
      (r.value.contractAddr.Some? ==> r.value.contractAddr == addr)
  {
    var bare := Substring(txnHash, 2);
    match node.getTransaction(bare)
    case Error(_) => None
    case Ok(txn) =>
      var contractAddr := GetContractAddrFromTransaction(node, bare);
      if TruthyString(contractAddr) then Some(TransactionDetails(txn, txnHash, contractAddr))
      else Some(TransactionDetails(txn, txnHash, None))
  }

  // ---------------------------------------------------------------------------
  // Accounts
  // ---------------------------------------------------------------------------

  /** `getAccData`: the balance and nonce of an address, or `undefined` on error. */
  function GetAccData(node: Node, accAddr: string): (r: Option<AccData>)
    ensures r.Some? <==> node.getBalance(accAddr).Ok?
    ensures r.Some? ==> r.value == node.getBalance(accAddr).result
  {
    match node.getBalance(accAddr)
    case Error(_) => None
    case Ok(acc) => Some(acc)
  }

  /** `getAccContracts`: the contracts an address deployed, or `undefined` on error. */
  function GetAccContracts(node: Node, accAddr: string): (r: Option<seq<AccContract>>)
    ensures r.Some? <==> node.getSmartContracts(accAddr).Ok?
    ensures r.Some? ==> |r.value| == |node.getSmartContracts(accAddr).result| && r.value == node.getSmartContracts(accAddr).result
  {
    match node.getSmartContracts(accAddr)
    case Error(_) => None
    case Ok(contracts) => Some(contracts)
  }

  // ---------------------------------------------------------------------------
  // Contracts
  // ---------------------------------------------------------------------------

  /** `initParams.filter(x => x.vname === name)[0]`. */
  function InitParamNamed(params: seq<InitParam>, name: string): (r: Option<InitParam>)
    ensures r.None? <==> forall i :: 0 <= i < |params| ==> params[i].vname != name
    ensures r.Some? ==> exists k :: 0 <= k < |params| && params[k] == r.value && params[k].vname == name &&
                                    forall j :: 0 <= j < k ==> params[j].vname != name
  {
    FirstWhere(params, (x: InitParam) => x.vname == name)
  }

  /** The creation block the contract records: its first `_creation_block` parameter,
      read by `parseInt` without a radix, so a `0x` prefix reads hexadecimal; NaN (None)
      when missing or not a number. A transaction-block lookup for
      NaN never succeeds (no header parses to NaN), so NaN ends the search. */
  function CreationBlock(contractData: ContractData): Option<nat> {
    match InitParamNamed(contractData.initParams, "_creation_block")
    case None => None
    case Some(p) => ParseIntNoRadix(p.value)
  }

  /** The contract's own address as recorded by its first `_this_address` parameter. */
  function ThisAddress(contractData: ContractData): Option<string> {
    match InitParamNamed(contractData.initParams, "_this_address")
    case None => None
    case Some(p) => Some(p.value)
  }

  /** `'0x' + contractAddr` for every transaction of the creation block, in order. */
  function CreatedAddresses(node: Node, txnHashes: seq<string>): (addrs: seq<string>)
    ensures |addrs| == |txnHashes|
    ensures forall i :: 0 <= i < |txnHashes| ==>
      addrs[i] == "0x" + Str(GetContractAddrFromTransaction(node, txnHashes[i]))
  {
    seq(|txnHashes|, i requires 0 <= i < |txnHashes| => "0x" + Str(GetContractAddrFromTransaction(node, txnHashes[i])))
  }

  /** `getTxnIdFromContractData`: the hash of the transaction in the contract's creation
      block whose created address, prefixed with `0x`, equals the recorded `_this_address`
      exactly; `0xundefined` when none does. */
  function GetTxnIdFromContractData(node: Node, contractData: ContractData): (r: Option<string>)
    ensures CreationBlock(contractData).None? || ThisAddress(contractData).None? ==> r.None?
    ensures CreationBlock(contractData).Some? && GetTxBlockDetails(node, CreationBlock(contractData).value).None? ==> r.None?
    ensures r.Some? ==>
      CreationBlock(contractData).Some? && ThisAddress(contractData).Some? &&
      var block := GetTxBlockDetails(node, CreationBlock(contractData).value);
      block.Some? && block.value.txnHashes.Some? &&
      var hashes := block.value.txnHashes.value;
      var addrs := CreatedAddresses(node, hashes);
      (exists k :: 0 <= k < |hashes| && r.value == "0x" + hashes[k] && addrs[k] == ThisAddress(contractData).value &&
                   forall j :: 0 <= j < k ==> addrs[j] != ThisAddress(contractData).value) ||
      (r.value == "0xundefined" && ThisAddress(contractData).value !in addrs)
  {
    match CreationBlock(contractData)
    case None => None
    case Some(blockNum) =>
      match GetTxBlockDetails(node, blockNum)
      case None => None
      case Some(block) =>
        match block.txnHashes
        case None => None  // `.map` of undefined throws
        case Some(hashes) =>
          var addrs := CreatedAddresses(node, hashes);
          match ThisAddress(contractData)
          case None => None
          case Some(self) =>
            var k := IndexOf(addrs, self);
            Some("0x" + (if k >= 0 then hashes[k] else "undefined"))
  }

  /** The searched transaction is found: the first one whose created address matches. */
  lemma {:induction false} ContractOriginIsFirstMatch(node: Node, contractData: ContractData, hashes: seq<string>, k: int)
    requires CreationBlock(contractData).Some? && ThisAddress(contractData).Some?
    requires GetTxBlockDetails(node, CreationBlock(contractData).value).Some?
    requires GetTxBlockDetails(node, CreationBlock(contractData).value).value.txnHashes == Some(hashes)
    requires 0 <= k < |hashes|
    requires "0x" + Str(GetContractAddrFromTransaction(node, hashes[k])) == ThisAddress(contractData).value
    requires forall j :: 0 <= j < k ==> "0x" + Str(GetContractAddrFromTransaction(node, hashes[j])) != ThisAddress(contractData).value
    ensures GetTxnIdFromContractData(node, contractData) == Some("0x" + hashes[k])
  {
  }

  /** No transaction matches: the result is the string `0xundefined`, not `undefined`. */
  lemma {:induction false} ContractOriginMissingGivesUndefinedText(node: Node, contractData: ContractData, hashes: seq<string>)
    requires CreationBlock(contractData).Some? && ThisAddress(contractData).Some?
    requires GetTxBlockDetails(node, CreationBlock(contractData).value).Some?
    requires GetTxBlockDetails(node, CreationBlock(contractData).value).value.txnHashes == Some(hashes)
    requires forall j :: 0 <= j < |hashes| ==> "0x" + Str(GetContractAddrFromTransaction(node, hashes[j])) != ThisAddress(contractData).value
    ensures GetTxnIdFromContractData(node, contractData) == Some("0xundefined")
  {
  }

  /** `getContractData`: code, init parameters and state, all three or `undefined`. */
  function GetContractData(node: Node, contractAddr: string): (r: Option<ContractData>)
    ensures r.Some? <==>
      node.getSmartContractCode(contractAddr).Ok? &&
      node.getSmartContractInit(contractAddr).Ok? &&
      node.getSmartContractState(contractAddr).Ok?
    ensures r.Some? ==> r.value == ContractData(node.getSmartContractCode(contractAddr).result,
                                                node.getSmartContractInit(contractAddr).result,
                                                node.getSmartContractState(contractAddr).result)
  {
    match node.getSmartContractCode(contractAddr)
    case Error(_) => None
    case Ok(code) =>
      match node.getSmartContractInit(contractAddr)
      case Error(_) => None
      case Ok(init) =>
        match node.getSmartContractState(contractAddr)
        case Error(_) => None
        case Ok(state) => Some(ContractData(code, init, state))
  }

  // ---------------------------------------------------------------------------
  // Util
  // ---------------------------------------------------------------------------

  /** `isIsolatedServer`: an endpoint that answers the chain-info call with a result is
      not an isolated server; an error answer gives `undefined`. */
  function IsIsolatedServer(node: Node): (r: Option<bool>)
    ensures r.None? <==> node.getBlockChainInfo.Error?
    ensures r == Some(false) <==> node.getBlockChainInfo.Ok? && node.getBlockChainInfo.result.Some?
    ensures r == Some(true) <==> node.getBlockChainInfo.Ok? && node.getBlockChainInfo.result.None?
  {
    match node.getBlockChainInfo
    case Error(_) => None
    case Ok(info) => if info.Some? then Some(false) else Some(true)
  }

  /** `isContractAddr`: true when the init call succeeds, false when it fails with exactly
      'Address not contract address', `undefined` for any other failure. */
  function IsContractAddr(node: Node, addr: string): (r: Option<bool>)
    ensures r == Some(true) <==> node.getSmartContractInit(addr).Ok?
    ensures r == Some(false) <==> node.getSmartContractInit(addr) == Error(NotContractMessage)
    ensures r.None? <==> node.getSmartContractInit(addr).Error? && node.getSmartContractInit(addr).message != NotContractMessage
  {
    match node.getSmartContractInit(addr)
    case Ok(_) => Some(true)
    case Error(m) => if m == NotContractMessage then Some(false) else None  // 'Invalid Address'
  }
}
