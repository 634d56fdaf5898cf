# Zilliqa block explorer: data service and dashboard cards, in Dafny

This project models the decision logic of a React block explorer for the Zilliqa
chain:

- `DataService` (`data-service.dfy`). Each method makes RPC calls through the
  zilliqa-js client and reshapes the answers. The client is an oracle: a `Node`
  value holds the answer the endpoint gives to each call, keyed by the call's
  argument. Every method is a function from those answers to the method's result.
  A method that catches its errors returns `Option` (`None` is `undefined`).
  `getDSBlocksListing` has no try/catch, so it returns a `Settled` value that
  rejects.
- The JavaScript semantics these methods rely on (`js.dfy`): `parseInt(s, 10)`,
  `parseInt(s)` without a radix,
  `slice(0, n)`, `substring`, `flat()`, `filter(...)[0]`, `indexOf`, string
  concatenation with `undefined`, truthiness, and `Promise.all` (map in order, and
  the whole call fails if any element fails).
- The blockchain summary card, `BCInfo` (`bcinfo.dfy`). `Update` is the pure
  running-maximum rule, and the lemmas are about `Track`, its fold over successive
  summaries. The card's React state is a class, `BCInfoView`. Each run of the
  fetch effect is another class, `BCInfoFetch`, with its own `isCancelled` flag.
  A run publishes to the card only while it is not cancelled.
- The pending-transactions card, `PendTxnList` (`pend-txn-list.dfy`): the same
  lifecycle, plus the `hash-col` formatter and the choice between spinner,
  "No Pending Transactions" text and table.

Some behaviour is modelled as the code has it, even where it looks unintended:

- The contract-origin search compares `'0x' + address` with `_this_address`
  exactly, so case counts.
- When nothing matches, the search returns the string `0xundefined`, not a
  not-found value.
- `getDSBlocksListing` does not re-check a detail's block number.
- `getLatest5PendingTransactions` does not truncate its list.
- Polling does not skip a tick while the previous call is still in flight.
- A recorded `startTxBlock` of 0 counts as unset, so the next summary overwrites
  it (`StartTxBlockZeroIsOverwritten`).

## Model

| member | source | states |
|---|---|---|
| `DataService.New` | src/services/dataService.tsx:66-75 | A null or empty URL selects `https://api.zilliqa.com/`; any other URL is kept as given. The client gets the same URL as `nodeUrl`. |
| `DataService.GetBlockchainInfo` | src/services/dataService.tsx:81-88 | Gives the chain summary from a result. An error answer gives `undefined`. |
| `DataService.GetNumDSBlocks` | src/services/dataService.tsx:94-105 | `undefined` iff the call errs. Otherwise NaN iff the answer does not start with a digit, and the answer's decimal value when it is all digits. |
| `DataService.NumDSBlocksReadsDecimalCount` | src/services/dataService.tsx:101 | A node that answers with n's decimal spelling gives the count n. |
| `DataService.GetDSBlockDetails` | src/services/dataService.tsx:107-120 | Gives a block iff the call succeeds and `parseInt(header.BlockNum)` equals the requested number. The block is then the node's answer, unchanged. |
| `DataService.GetLatest5DSBlocks` | src/services/dataService.tsx:122-143 | Defined iff page 1 and the details of its first min(5, n) entries all succeed. Then it holds exactly those details, in index order. |
| `DataService.GetDSBlocksListing` | src/services/dataService.tsx:145-168 | Resolves iff the index and every detail call succeed. Then it has the index's length and order, element i is the detail of entry i's `BlockNum` with entry i's `Hash`, and `maxPages` is copied. Otherwise it rejects with the message of a failing call, and no partial page is returned. |
| `DataService.Latest5DSBlocksArePage1Prefix` | src/services/dataService.tsx:122-168 | When page 1 of the listing resolves, the latest five DS blocks are its first min(5, n) blocks. |
| `DataService.GetNumTxBlocks` | src/services/dataService.tsx:174-185 | `undefined` iff the call errs. Otherwise NaN iff the answer does not start with a digit, and the answer's decimal value when it is all digits. |
| `DataService.NumTxBlocksReadsDecimalCount` | src/services/dataService.tsx:181 | A node that answers with n's decimal spelling gives the count n. |
| `DataService.GetTransactionsForTxBlock` | src/services/dataService.tsx:304-315 | Defined iff the call succeeds. Then its length is the sum of the inner lengths, and element j of shard list i sits at that list's offset plus j. |
| `DataService.GetTxBlockDetails` | src/services/dataService.tsx:187-202 | Gives a block iff the call succeeds and the header's block number parses to the requested one. The block carries whatever `getTransactionsForTxBlock` gave, `undefined` included. |
| `DataService.WellLabelledBlocksPassCheck` | src/services/dataService.tsx:110-198 | A node that labels block n with n's decimal spelling passes both block-number checks. |
| `DataService.GetLatest5TxBlocks` | src/services/dataService.tsx:204-225 | Defined iff page 1 and the details of its first min(5, n) entries succeed. Then it holds exactly those details, in order. |
| `DataService.GetTxBlocksListing` | src/services/dataService.tsx:227-250 | Defined iff the index and every detail succeed. Then it has the same length and order as the index, element i is entry i's block, and `maxPages` is copied. Any failure gives `undefined`. |
| `DataService.Latest5TxBlocksArePage1Prefix` | src/services/dataService.tsx:204-250 | When listing page 1 is available, the latest five Tx blocks are `slice(0, 5)` of its blocks. |
| `DataService.GetLatest5ValidatedTransactions` | src/services/dataService.tsx:256-275 | Defined iff the recent-transactions call and the first min(5, n) transaction lookups succeed. Then element i pairs hash i with its transaction, in order. |
| `DataService.GetTransactionsWithHash` | src/services/dataService.tsx:317-329 | Defined iff every hash's transaction lookup succeeds. Then it has one entry per hash, in order, pairing the hash with its transaction. |
| `DataService.GetRecentTransactions` | src/services/dataService.tsx:331-342 | The node's recent-transactions list iff the call succeeds, and `undefined` otherwise. |
| `DataService.Latest5ValidatedAreFirstRecentWithHash` | src/services/dataService.tsx:256-275 | When the recent-transactions call succeeds, the latest validated transactions are `getTransactionsWithHash` of its first five hashes. |
| `DataService.GetAccData` | src/services/dataService.tsx:361-372 | The address's balance and nonce iff the call succeeds, and `undefined` otherwise. |
| `DataService.GetAccContracts` | src/services/dataService.tsx:374-385 | The address's whole contract list iff the call succeeds, and `undefined` otherwise. |
| `DataService.GetLatest5PendingTransactions` | src/services/dataService.tsx:344-355 | On success it gives the whole pending list, with the same length and no truncation. An error gives `undefined`. |
| `DataService.GetContractAddrFromTransaction` | src/services/dataService.tsx:391-402 | Gives the created address iff the call succeeds, and `undefined` otherwise. |
| `DataService.GetTransactionDetails` | src/services/dataService.tsx:287-302 | Defined iff lookup without the first two characters succeeds. It carries the hash as given. It has a contract address iff the address lookup yields a non-empty string, and then it is that address. |
| `DataService.InitParamNamed` | src/services/dataService.tsx:408 | `filter(...)[0]`: the first init parameter with that name, or `undefined` iff none has it. |
| `DataService.CreatedAddresses` | src/services/dataService.tsx:410-413 | One entry per transaction hash, in order: `'0x'` plus the created address, or `'0xundefined'` when the lookup failed. |
| `DataService.GetTxnIdFromContractData` | src/services/dataService.tsx:404-419 | It is `undefined` when either init param is missing, when the creation block does not parse, when the block lookup fails, or when the block's transaction-hash lookup fails (`.map` of `undefined` throws). Otherwise it is `'0x'` plus the first hash whose created address equals `_this_address`, or `'0xundefined'` when none does. |
| `DataService.ContractOriginIsFirstMatch` | src/services/dataService.tsx:410-415 | When hash k is the first whose `'0x' + address` equals `_this_address` exactly, the result is `'0x' + hash k`. |
| `DataService.ContractOriginMissingGivesUndefinedText` | src/services/dataService.tsx:414-415 | When no transaction matches, the result is the string `'0xundefined'`, not `undefined`. |
| `DataService.GetContractData` | src/services/dataService.tsx:421-442 | Defined iff the code, init and state calls all succeed. It then holds their three results. |
| `DataService.IsIsolatedServer` | src/services/dataService.tsx:450-464 | It is `undefined` iff the call errs. It is false iff the result is present, and true iff the result is missing. |
| `DataService.IsContractAddr` | src/services/dataService.tsx:468-480 | True iff the init call succeeds. False iff it fails with exactly `'Address not contract address'`. `undefined` iff it fails with any other message. |
| `Js.ParseInt` | src/services/dataService.tsx:114 | NaN iff the string does not start with a digit. On an all-digit string it is that string's decimal value. |
| `Js.ParseIntNatToString` | src/services/dataService.tsx:194 | Parsing a number's decimal spelling gives the number back. |
| `Js.ParseIntIgnoresTrailingText` | src/services/dataService.tsx:114 | `parseInt` reads only the leading run of digits and ignores the text after it. |
| `Js.ParseIntNoRadix` | src/services/dataService.tsx:408 | Without a `0x` or `0X` prefix it reads as `parseInt(s, 10)`. After the prefix it is NaN iff no hexadecimal digit follows. When every character after the prefix is a hexadecimal digit, it is their value. |
| `Js.ParseIntNoRadixIgnoresTrailingText` | src/services/dataService.tsx:408 | After the `0x` prefix only the leading run of hexadecimal digits is read, and the text after it is ignored. |
| `Js.ParseIntNoRadixNatToString` | src/services/dataService.tsx:408 | A decimal spelling reads back as its number without a radix too. |
| `Js.Flat` | src/services/dataService.tsx:311 | The length of `flat()` is the sum of the inner lengths. |
| `Js.FlatAt` | src/services/dataService.tsx:311 | `flat()` keeps order: element j of inner list i lands at the total length of the lists before i, plus j. |
| `Js.FlatOrder` | src/services/dataService.tsx:311 | `FlatAt` for every position at once. |
| `Js.FirstWhere` | src/services/dataService.tsx:408 | `filter(p)[0]` is `undefined` iff no element passes. Otherwise it is the element at the first passing position. |
| `Js.IndexOf` | src/services/dataService.tsx:414 | It is -1 iff the value is absent. Otherwise it is the first position that holds the value. |
| `Js.All` | src/services/dataService.tsx:154-163 | `Promise.all(xs.map(f))` resolves iff every call resolves, with the results in order. Otherwise it rejects with the reason of a rejecting element. |
| `Js.SliceFromStart` | src/services/dataService.tsx:130 | `slice(0, n)` has min(n, length) elements, each equal to the element at the same position. |
| `Js.Substring` | src/services/dataService.tsx:291 | `substring(2)` drops the first two characters, or gives "" when the string is shorter. |
| `Js.Caught` | src/services/dataService.tsx:140-142 | A caught rejection becomes `undefined`. A resolved value passes through. |
| `Js.Str` | src/services/dataService.tsx:412 | `'' + x` spells an undefined `x` as `undefined`. |
| `BCInfo.Update` | src/components/HomePage/Dashboard/BCInfo/BCInfo.tsx:43-56 | `startTxBlock` is set only when unset or 0. Each maximum and its block move together, and only when the previous maximum is unset or 0 or is `<=` the new value. Every other field keeps its previous value. |
| `BCInfo.StartTxBlockKeptOnceNonzero` | src/components/HomePage/Dashboard/BCInfo/BCInfo.tsx:45-46 | Once `startTxBlock` holds a nonzero value, no sequence of later summaries changes it. |
| `BCInfo.StartTxBlockFromFirstSample` | src/components/HomePage/Dashboard/BCInfo/BCInfo.tsx:45-46 | From the reset state, `startTxBlock` is the first summary's block count minus one, unless that is 0. |
| `BCInfo.StartTxBlockZeroIsOverwritten` | src/components/HomePage/Dashboard/BCInfo/BCInfo.tsx:45-46 | A recorded start of 0 counts as unset, so the next summary's block replaces it. |
| `BCInfo.TrackedMaxTxnCount` | src/components/HomePage/Dashboard/BCInfo/BCInfo.tsx:51-54 | From the reset state, with counts never negative: `maxTxnCount` is the largest count seen, and its block is that of the last summary attaining it. |
| `BCInfo.TrackedMaxTps` | src/components/HomePage/Dashboard/BCInfo/BCInfo.tsx:47-50 | The same for `maxTPS`, with rates never negative: ties move the block to the latest summary. |
| `BCInfo.MaxTxnCountNeverDecreases` | src/components/HomePage/Dashboard/BCInfo/BCInfo.tsx:51-54 | Over longer runs of summaries, the recorded maximum count never decreases. |
| `BCInfo.MaxTpsNeverDecreases` | src/components/HomePage/Dashboard/BCInfo/BCInfo.tsx:47-50 | Over longer runs of summaries, the recorded maximum rate never decreases. |
| `BCInfo.BCInfoView.constructor` | src/components/HomePage/Dashboard/BCInfo/BCInfo.tsx:35-36 | The card starts with no summary and the default state. |
| `BCInfo.BCInfoView.SetData` | src/components/HomePage/Dashboard/BCInfo/BCInfo.tsx:40-57 | Storing a summary runs the update on it. Storing null leaves the tracker unchanged. |
| `BCInfo.BCInfoView.UrlChanged` | src/components/HomePage/Dashboard/BCInfo/BCInfo.tsx:38 | A URL change sets the data to null and all five tracker fields to null. |
| `BCInfo.BCInfoFetch.constructor` | src/components/HomePage/Dashboard/BCInfo/BCInfo.tsx:61 | A new run starts not cancelled. |
| `BCInfo.BCInfoFetch.Start` | src/components/HomePage/Dashboard/BCInfo/BCInfo.tsx:60-62 | A run exists iff a data service exists. |
| `BCInfo.BCInfoFetch.Complete` | src/components/HomePage/Dashboard/BCInfo/BCInfo.tsx:65-74 | A result is stored, and the tracker updated, iff the run is not cancelled and the result resolved to a summary. Otherwise nothing changes. It never shows maxima without a summary. |
| `BCInfo.BCInfoFetch.Cleanup` | src/components/HomePage/Dashboard/BCInfo/BCInfo.tsx:79-82 | Cleanup sets `isCancelled`. |
| `BCInfo.Published` | src/components/HomePage/Dashboard/BCInfo/BCInfo.tsx:66-70 | A run publishes exactly as many summaries as it has completions that resolved with a summary. |
| `BCInfo.PublishedInOrder` | src/components/HomePage/Dashboard/BCInfo/BCInfo.tsx:66-70 | In completion order: the summary of publishing completion i comes right after those of the publishing completions before it. Each published summary comes from some result. |
| `BCInfo.Poll` | src/components/HomePage/Dashboard/BCInfo/BCInfo.tsx:75-78 | For an uncancelled run fed completions in order, the tracker is the fold of `Update` over the published summaries, and the data is the last one published. From reset, with counts and rates never negative, the maxima are the largest values, each on its last block. |
| `BCInfo.CompleteFromNode` | src/components/HomePage/Dashboard/BCInfo/BCInfo.tsx:67-69 | A call through `getBlockchainInfo` publishes the node's summary. It changes nothing when the run is cancelled, the node errs, or the result holds no summary. |
| `BCInfo.LateCompletionIsDiscarded` | src/components/HomePage/Dashboard/BCInfo/BCInfo.tsx:79-82 | After cleanup, a later completion changes neither the data nor the tracker. |
| `PendTxnList.FormatHash` | src/components/HomePage/Dashboard/PendTxnList/PendTxnList.tsx:30 | `hash-col` gives `'0x'` followed by the hash, two characters longer. |
| `PendTxnList.Render` | src/components/HomePage/Dashboard/PendTxnList/PendTxnList.tsx:79-86 | Spinner iff the data is null. `'No Pending Transactions'` iff the list is empty. A table iff the list is non-empty, with one row per transaction in order and the hash formatted. |
| `PendTxnList.PendTxnListView.constructor` | src/components/HomePage/Dashboard/PendTxnList/PendTxnList.tsx:27 | The card starts with no data. |
| `PendTxnList.PendTxnListView.UrlChanged` | src/components/HomePage/Dashboard/PendTxnList/PendTxnList.tsx:25 | A URL change sets the data to null, so the spinner shows. |
| `PendTxnList.PendTxnFetch.constructor` | src/components/HomePage/Dashboard/PendTxnList/PendTxnList.tsx:47 | A new run starts not cancelled. |
| `PendTxnList.PendTxnFetch.Start` | src/components/HomePage/Dashboard/PendTxnList/PendTxnList.tsx:46-48 | A run exists iff a data service exists. |
| `PendTxnList.PendTxnFetch.Complete` | src/components/HomePage/Dashboard/PendTxnList/PendTxnList.tsx:51-60 | When not cancelled, a list is stored, even an empty one. `undefined`, a rejection or a cancelled run leave the data unchanged. |
| `PendTxnList.PendTxnFetch.Cleanup` | src/components/HomePage/Dashboard/PendTxnList/PendTxnList.tsx:65-68 | Cleanup sets `isCancelled`. |
| `PendTxnList.StaleListNeverShown` | src/components/HomePage/Dashboard/PendTxnList/PendTxnList.tsx:25-68 | After a URL change and the old run's cleanup, no number of late completions shows anything but the spinner. |
| `PendTxnList.CompleteFromNode` | src/components/HomePage/Dashboard/PendTxnList/PendTxnList.tsx:53-55 | A call through the data service stores the node's whole pending list, or changes nothing when the run is cancelled or the node errs. |

## Left out

- The zilliqa-js client and HTTP transport are foreign code. `Node` stands for the endpoint's answers, with one fixed answer per call and argument. A rejected call and an error answer are both `Error(message)`.
- `getTransactionOwner` is left out: it relies on `hexAddrToZilAddr`, and `src/utils/Utils` is not part of this model.
- `getISInfo` is work in progress and issues a raw `fetch`. It is not modelled.
- Timers (`setInterval`, `refreshRate`) and real concurrency are left out. A run's calls complete in the order they are given. The code does not skip overlapping ticks, so late results can arrive in any order, and `Poll` takes that order as input.
- Js.All: when several calls fail, the rejection reason is that of the lowest index, not the earliest in time. The contracts only promise the message of some failing call.
- Js.ParseInt: leading blanks and signs are not modelled. Such strings read as NaN, where JavaScript skips the blanks and reads the sign. A `0x` prefix reads as 0, as `parseInt(s, 10)` does.
- DataService.GetTxnIdFromContractData: the radix-less `parseInt` of `_creation_block` reads a `0x` prefix as hexadecimal, through `Js.ParseIntNoRadix`, and shares its gap below.
- Js.ParseIntNoRadix: leading blanks and signs are not modelled. Such strings read as NaN, where JavaScript skips the blanks and reads the sign (`-0x1F` is -31).
- `BlockchainInfo` carries `NumTxBlocks` and `NumTxnsTxEpoch` already parsed to integers, and `TransactionRate` as a real. NaN from an unparsable count is not modelled.
- Number formatting (`toFixed`, `toLocaleString`) and all JSX rendering are left out, except the PendTxnList body choice.
- Block, transaction and contract-state fields the code never reads are left out. So are `console.log` calls.
- Truthiness covers only present versus absent values. For `isIsolatedServer`, a present but falsy result (0, "", false) is not modelled.
- `src/services/userPrefProvider.tsx` is left out as I/O. `Layout.tsx`, `DisplayTable.tsx` and `Searchbar.tsx` are left out as UI glue. `DisplayTable`'s `processMap` lookup appears only as the `hash-col` formatting inside `Render`.
- BCInfo.TrackedMaxTxnCount and BCInfo.TrackedMaxTps require values that are never negative. When a negative value arrives after a recorded maximum of 0, that 0 counts as unset and the smaller value replaces it. For example, counts 0 then -5 end with a maximum of -5.
