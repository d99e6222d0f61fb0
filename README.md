# NFT-gated transaction relay — Dafny model

This project models the core of a small JSON-RPC relay written in Go
(`project/main.go`). The relay serves three methods:

- `mintNFT(player, tokenURI)` builds, signs and broadcasts a call to the
  NFT contract's `awardItem`.
- `balanceOf(address)` reports an address's NFT balance. It answers from
  a process-wide LRU cache of 100 entries, and on a miss asks the ledger
  and caches the decoded answer.
- `sendEther(sender, receiver, amount)` transfers value. It first looks up
  the sender's NFT balance (cache or ledger) and refuses with "user does not
  own an NFT" unless that balance is positive.

Everything the relay hands to go-ethereum is an oracle: ABI parsing,
packing and unpacking, `HexToAddress`, the ledger client's
`CallContract`, `SuggestGasPrice` and `SendTransaction`, `SignTx` with the
process key, and the transaction hash. These are the function fields of
`Ethereum.Env`, one `Env` per request. ABI parsing, packing and
unpacking, the contract call, the gas price, signing and the broadcast
can fail; address decoding and the hash cannot. The model pins
down the relay's own logic around them:

- which external calls happen and in what order (a ghost `log` of `Event`s);
- when the cache changes and when it does not;
- which error text ends each path;
- which fields each built transaction has;
- what the response carries.

Layout, one module per file:

- `wrappers.dfy`: `Option`, `Result` (a Go value-or-error pair), `Outcome` (a Go call that returns only an error) and `HasPrefix`.
- `ethereum.dfy`: addresses, transactions, the event log, the oracle record, the NFT contract address and the chain id 11155111.
- `lru.dfy`: the cache. It holds a `map<string, nat>` with capacity 100. `Stored` is the relation one `Add` establishes.
- `decimal.dfy`: `big.Int.String()` for balances, with its inverse.
- `rpc.dfy`: the request and response envelope, routing, and the minimum parameter counts.
- `flows.dfy`: each flow as a function of the cache contents and the oracles. A flow gives its result, its calls and its single cache write.
- `server.dfy`: class `Relay`. Its methods follow `main.go` statement by statement and are proved equal to the `flows.dfy` functions.
- `traces.dfy`: lemmas over a run of successive requests.

Points of the code's behaviour that the model keeps as written:

- The gate's message is "user does not own an NFT" (main.go:202).
- The routing errors are "Method not found" (main.go:125) and "Invalid parameters" (main.go:85, 98, 110).
- Only too-few parameters are rejected (the checks use `<`). Extra parameters are accepted.
- The cache key is the raw parameter string, not the decoded address (main.go:161, 192).
- A sender refused by the gate after a fresh lookup still has that balance cached (main.go:192, 201-203).
- The nonces are the fixed constants 15 for a mint (main.go:146) and 19 for a transfer (main.go:215).

## Model

| member | source | states |
|---|---|---|
| `Lru.Cache.constructor` | project/main.go:55 | the cache starts empty |
| `Lru.Cache.Get` | project/main.go:161-163 | a hit returns the stored balance and a miss reports absence; no entry changes |
| `Lru.Cache.Add` | project/main.go:192 | the key maps to the value; no other entry changes; exactly one other entry is evicted iff the key is new and 100 entries are held; the bound of 100 is kept |
| `Lru.StoredBounded` | project/main.go:55 | an `Add` never takes the cache past 100 entries |
| `Lru.StoredLookup` | project/main.go:161-192 | after an `Add` the raw key is found with its value; a different string stays absent even if it names the same address |
| `Decimal.ToDecimal` | project/main.go:107 | the balance text is non-empty digits, with a leading '0' only for the balance 0 ("0") |
| `Decimal.ValueOfToDecimal` | project/main.go:107 | reading the decimal text back gives the balance |
| `Decimal.ToDecimalInjective` | project/main.go:107 | distinct balances give distinct texts |
| `Rpc.SendResult` | project/main.go:229-237 | version "2.0", the request id, and a result payload only |
| `Rpc.SendError` | project/main.go:239-247 | version "2.0", the request id, and an error payload {"message": msg} only |
| `Rpc.Route` | project/main.go:82-126 | an unknown method iff "Method not found"; a known method with fewer than 2/1/3 parameters (mintNFT/balanceOf/sendEther) iff "Invalid parameters"; at least that many reach the flow |
| `Rpc.BalanceKey` | project/main.go:96-117 | exactly balanceOf and sendEther look up a balance, keyed by their first parameter's raw string |
| `Flows.FetchBalance` | project/main.go:165-190 | the ledger is called (once, at the NFT contract, with the packed call) iff ABI parsing and packing succeed; a balance is returned iff the ledger reports one, and it is that decoded value; a parse, pack, call or unpack failure ends in exactly its own prefix followed by the library's error text; no cache write |
| `Flows.Lookup` | project/main.go:160-194 | a hit returns the cached value with no call and no write; a miss has the fetch's result and calls; the cache is written iff a miss succeeds, under the raw string, with the returned balance; only ledger reads happen |
| `Flows.Authorize` | project/main.go:201-203 | allowed iff the balance is positive; otherwise denied with "user does not own an NFT" |
| `Flows.Submit` | project/main.go:147-157 | signs first under chain id 11155111; broadcasts iff signing succeeded, and broadcasts that signed transaction; a hash iff the broadcast was accepted, and it is the signed transaction's hash; signing and broadcast failures end in their own messages |
| `Flows.MintFlow` | project/main.go:129-158 | ABI and pack failures end with their own messages and no call; once both succeed the flow goes on to the gas price, then sign, then broadcast; the signed transaction goes to the NFT contract with value 0, gas limit 100000, nonce 15, the suggested gas price and the packed awardItem(player, tokenURI) data; a hash iff the broadcast was accepted; no cache write |
| `Flows.TransferFlowSpec` | project/main.go:196-227 | of `Flows.TransferFlow`, the function giving the flow: it starts with the sender lookup's calls and makes only its cache write; a lookup error is returned unchanged; a denied sender gets "user does not own an NFT" and no further call; an allowed sender always goes on to the gas price, and any call beyond ledger reads implies the gate allowed; the signed transaction goes to the receiver with the amount, gas limit 21000, nonce 19, no data; a hash iff the broadcast was accepted |
| `Flows.Respond` | project/main.go:90-122 | a flow's value becomes the single result field; its error becomes the error message; the id is echoed |
| `Flows.BalanceText` | project/main.go:107 | a successful balance is reported as the canonical decimal text denoting it (non-empty, no leading zero, and exactly "0" for the balance 0); errors pass through |
| `Flows.Dispatch` | project/main.go:82-126 | the id is echoed under "2.0"; a rejected request makes no call and no write; otherwise the response, calls and write are the routed flow's; the only write is, on a miss, the ledger-reported balance under the request's raw key |
| `Server.Relay.constructor` | project/main.go:55 | the relay starts with an empty cache and no calls made |
| `Server.Relay.GetBalanceOf` | project/main.go:160-194 | result, appended calls and cache change are those of `Flows.Lookup` |
| `Server.Relay.SignAndSend` | project/main.go:146-157 | result and appended calls are those of `Flows.Submit`; the cache is untouched; the same sign-and-broadcast tail serves the transfer at main.go:216-226 |
| `Server.Relay.AwardItem` | project/main.go:129-158 | result and appended calls are those of `Flows.MintFlow`; the cache is untouched |
| `Server.Relay.SendEtherWithAuth` | project/main.go:196-227 | result, appended calls and cache change are those of `Flows.TransferFlow`, whose properties `Flows.TransferFlowSpec` states |
| `Server.Relay.HandleJSONRPC` | project/main.go:82-126 | response, appended calls and cache change are those of `Flows.Dispatch` |
| `Traces.StepKeepsCachedValues` | project/main.go:161-192 | with requests served one at a time, no request changes a cached balance; it is kept or evicted |
| `Traces.RunBounded` | project/main.go:55 | over any run of requests the cache never exceeds 100 entries |
| `Traces.CachedBalanceProvenance` | project/main.go:160-194 | every cached balance was present at the start or was reported by the ledger, for exactly that raw string, during an earlier balanceOf or sendEther request |
| `Traces.FromEmptyCacheEveryBalanceWasReported` | project/main.go:160-194 | from the initial empty cache, every cached balance was reported by the ledger for that raw string in an earlier request |
| `Traces.CachedValueStable` | project/main.go:161-163 | with requests served one at a time, while a key stays cached its balance never changes, whatever the ledger says later |
| `Traces.BalanceHitIgnoresLedger` | project/main.go:96-107 | a balanceOf hit answers the cached balance in decimal, with no call and no write |
| `Traces.CachedZeroSenderRefused` | project/main.go:197-203 | a sender cached with 0 is refused with "user does not own an NFT" before any call |
| `Traces.RefusalIsCached` | project/main.go:196-203 | a sender refused after a fresh lookup of 0 is left cached with 0 |

## Left out

- HTTP serving, JSON decoding of the request body and JSON encoding of the response are I/O. This includes the "Invalid JSON-RPC request" reply for an undecodable body (main.go:77-79). The model starts from a decoded `Rpc.Request` and ends at an `Rpc.Response` value.
- `init` is left out apart from creating the cache: dialling the Infura endpoint and reading and decrypting the keystore are I/O and foreign cryptography. The key is inside the `signTx` oracle.
- ABI parsing, packing and unpacking, `common.HexToAddress`, EIP-155 ECDSA signing and the Keccak transaction hash belong to go-ethereum, which is not part of this model. Each is an opaque `Env` field; all but `HexToAddress` and the hash may fail.
- `main` and the listening socket are I/O.
- Concurrency is not modelled. Requests are served one at a time, and the cache's internal locking is not modelled.
- Traces.StepKeepsCachedValues: holds only for requests served one at a time. net/http runs each request on its own goroutine, so two overlapping misses on one key can both reach `cache.Add` (main.go:192), and the later one overwrites the value already cached.
- Traces.CachedValueStable: for the same reason, a cached balance can be overwritten by an overlapping miss on the same key. The lemma covers sequential runs only.
- `Lru.Cache.Add`: does not say which entry is evicted when the cache is full. golang-lru evicts the least recently used entry, but that library is not part of this model, so any one other entry may go.
- `Lru.Cache.Get`: does not model the recency update golang-lru makes on a hit. Only the entries are modelled.
- The float64 to uint64 conversion of `amount` (main.go:115) is floating point. The amount is taken as a `nat`.
- A parameter of the wrong JSON type makes the Go type assertions panic (main.go:88-89, 101, 113-115). `Rpc.ParamsTyped` excludes such requests through a precondition.
- Balances and gas prices are `nat`. The uint256 bound the ABI decoder enforces is not modelled.
- The ledger's own behaviour is not modelled: its state, nonce checking and gas accounting. Its answers are the oracles. In particular, a rejection of a repeated fixed nonce appears only as a `sendTransaction` error.
