/** The relay's flows as functions of the cache contents and of what the
    outside world answers: for each request, the outcome, the external
    calls made (in order) and the one cache write made, if any. The
    methods of `Server.Relay` are proved to do exactly this. */
module Flows {
  import opened Wrappers
  import opened Ethereum
  import opened Lru
  import opened Rpc
  import Decimal

  /** What a flow did: its outcome, the external calls it made in order,
      and the cache `Add` it made, if any. */
  datatype Effect<+T> = Effect(result: Result<T>, calls: seq<Event>, store: Option<Entry>)

  const ERR_PARSE_ABI := "failed to parse ABI: "
  const ERR_PACK_BALANCE := "failed to pack balanceOf function: "
  const ERR_CALL_BALANCE := "failed to call balanceOf: "
  const ERR_UNPACK_BALANCE := "failed to unpack balanceOf output: "
  const ERR_PACK_AWARD := "failed to pack awardItem function: "
  const ERR_GAS_PRICE := "failed to suggest gas price: "
  const ERR_SIGN := "transaction signing failed: "
  const ERR_SEND := "failed to send transaction: "
  const NOT_OWNER := "user does not own an NFT"

  const MINT_NONCE: nat := 15
  const MINT_GAS_LIMIT: nat := 100000
  const TRANSFER_NONCE: nat := 19
  const TRANSFER_GAS_LIMIT: nat := 21000

  function Last(calls: seq<Event>): Event
    requires |calls| > 0
  {
    calls[|calls| - 1]
  }

  /** Every call made is a read-only contract call: no gas price, no
      signature, no broadcast. */
  predicate OnlyLedgerReads(calls: seq<Event>)
  {
    forall i :: 0 <= i < |calls| ==> calls[i].CallContract?
  }

  /** The last call made is a broadcast that the ledger accepted. */
  predicate Accepted(calls: seq<Event>, env: Env)
  {
    |calls| > 0 && Last(calls).SendTransaction? && env.sendTransaction(Last(calls).stx).Success?
  }

  /** The ledger, asked balanceOf for the address `s` decodes to, answers
      bytes that decode to `v`. */
  predicate LedgerReports(env: Env, s: string, v: nat)
  {
    && env.abiParse.Success?
    && env.packBalanceOf(env.hexToAddress(s)).Ok?
    && var reply := env.callContract(NFT_ADDRESS, env.packBalanceOf(env.hexToAddress(s)).value);
       reply.Ok? && env.unpackBalanceOf(reply.value) == Ok(v)
  }

  /** Summary of FetchBalance's four per-path error clauses: every
      failure carries one of the getBalanceOf prefixes. */
  predicate IsBalanceError(msg: string)
  {
    HasPrefix(msg, ERR_PARSE_ABI) || HasPrefix(msg, ERR_PACK_BALANCE)
    || HasPrefix(msg, ERR_CALL_BALANCE) || HasPrefix(msg, ERR_UNPACK_BALANCE)
  }

  /** The miss path of getBalanceOf: encode the call, ask the ledger,
      decode the reply. A balance is only ever the ledger's decoded
      answer; the ledger is asked exactly when encoding succeeded. */
  function FetchBalance(s: string, env: Env): (e: Effect<nat>)
    ensures e.store == None
    ensures e.result.Ok? ==> LedgerReports(env, s, e.result.value)
    ensures e.result.Err? ==> forall v :: !LedgerReports(env, s, v)
    ensures e.result.Err? ==> IsBalanceError(e.result.msg)
    ensures env.abiParse.Failure? ==> e.result == Err(ERR_PARSE_ABI + env.abiParse.msg)
    ensures env.abiParse.Success? && env.packBalanceOf(env.hexToAddress(s)).Err? ==>
              e.result == Err(ERR_PACK_BALANCE + env.packBalanceOf(env.hexToAddress(s)).msg)
    ensures env.abiParse.Success? && env.packBalanceOf(env.hexToAddress(s)).Ok? ==>
              var reply := env.callContract(NFT_ADDRESS, env.packBalanceOf(env.hexToAddress(s)).value);
              && (reply.Err? ==> e.result == Err(ERR_CALL_BALANCE + reply.msg))
              && (reply.Ok? && env.unpackBalanceOf(reply.value).Err? ==>
                    e.result == Err(ERR_UNPACK_BALANCE + env.unpackBalanceOf(reply.value).msg))
    ensures e.calls == [] <==> env.abiParse.Failure? || env.packBalanceOf(env.hexToAddress(s)).Err?
    ensures e.calls != [] ==> e.calls == [CallContract(NFT_ADDRESS, env.packBalanceOf(env.hexToAddress(s)).value)]
  {
    if env.abiParse.Failure? then
      Effect(Err(ERR_PARSE_ABI + env.abiParse.msg), [], None)
    else
      match env.packBalanceOf(env.hexToAddress(s))
      case Err(m) => Effect(Err(ERR_PACK_BALANCE + m), [], None)
      case Ok(callData) =>
        var calls := [CallContract(NFT_ADDRESS, callData)];
        match env.callContract(NFT_ADDRESS, callData)
        case Err(m) => Effect(Err(ERR_CALL_BALANCE + m), calls, None)
        case Ok(output) =>
          match env.unpackBalanceOf(output)
          case Err(m) => Effect(Err(ERR_UNPACK_BALANCE + m), calls, None)
          case Ok(balance) => Effect(Ok(balance), calls, None)
  }

  /** getBalanceOf: a hit answers from the cache with no call and no write;
      a miss fetches, and writes the cache (under the raw string `s`) only
      when the fetch succeeded. */
  function Lookup(cache: map<string, nat>, s: string, env: Env): (e: Effect<nat>)
    ensures s in cache ==> e == Effect(Ok(cache[s]), [], None)
    ensures s !in cache ==> e.result == FetchBalance(s, env).result && e.calls == FetchBalance(s, env).calls
    ensures e.store.Some? <==> s !in cache && e.result.Ok?
    ensures e.store.Some? ==> e.store.value == Entry(s, e.result.value)
    ensures OnlyLedgerReads(e.calls)
  {
    if s in cache then
      Effect(Ok(cache[s]), [], None)
    else
      var f := FetchBalance(s, env);
      Effect(f.result, f.calls, if f.result.Ok? then Some(Entry(s, f.result.value)) else None)
  }

  datatype Decision = Allowed | Denied(reason: string)

  /** The ownership gate `balance.Cmp(0) <= 0`: a transfer is allowed
      exactly when the sender's balance is positive. */
  function Authorize(balance: nat): (d: Decision)
    ensures d == Allowed <==> balance > 0
    ensures d.Denied? ==> d.reason == NOT_OWNER
  {
    if balance <= 0 then Denied(NOT_OWNER) else Allowed
  }

  /** Sign `tx` under the Sepolia chain id, broadcast it, return its hash.
      A hash is returned only for a broadcast the ledger accepted; a
      rejected broadcast ends in its own error. */
  function Submit(tx: Tx, env: Env): (e: Effect<string>)
    ensures e.store == None
    ensures 1 <= |e.calls| <= 2 && e.calls[0] == SignTx(tx)
    ensures |e.calls| == 2 <==> env.signTx(tx, CHAIN_ID).Ok?
    ensures |e.calls| == 2 ==> e.calls[1] == SendTransaction(SignedTx(tx, CHAIN_ID, env.signTx(tx, CHAIN_ID).value))
    ensures e.result.Ok? <==> Accepted(e.calls, env)
    ensures e.result.Ok? ==> e.result.value == env.txHash(Last(e.calls).stx)
    ensures |e.calls| == 2 && env.sendTransaction(e.calls[1].stx).Failure? ==>
              e.result == Err(ERR_SEND + env.sendTransaction(e.calls[1].stx).msg)
    ensures |e.calls| == 1 ==> e.result == Err(ERR_SIGN + env.signTx(tx, CHAIN_ID).msg)
  {
    match env.signTx(tx, CHAIN_ID)
    case Err(m) => Effect(Err(ERR_SIGN + m), [SignTx(tx)], None)
    case Ok(signature) =>
      var stx := SignedTx(tx, CHAIN_ID, signature);
      var calls := [SignTx(tx), SendTransaction(stx)];
      match env.sendTransaction(stx)
      case Failure(m) => Effect(Err(ERR_SEND + m), calls, None)
      case Success => Effect(Ok(env.txHash(stx)), calls, None)
  }

  /** The transaction awardItem builds: to the NFT contract, no value,
      gas limit 100000, nonce 15, the encoded awardItem(player, tokenURI)
      as data, at the suggested gas price. */
  predicate IsMintTx(tx: Tx, player: string, tokenURI: string, env: Env)
  {
    && tx.nonce == MINT_NONCE && tx.to == NFT_ADDRESS && tx.value == 0
    && tx.gasLimit == MINT_GAS_LIMIT && env.suggestGasPrice == Ok(tx.gasPrice)
    && env.packAwardItem(env.hexToAddress(player), tokenURI) == Ok(tx.data)
  }

  /** The transaction sendEtherWithAuth builds: to the receiver, the
      requested amount, gas limit 21000, nonce 19, no data, at the
      suggested gas price. */
  predicate IsTransferTx(tx: Tx, receiver: string, amount: nat, env: Env)
  {
    && tx.nonce == TRANSFER_NONCE && tx.to == env.hexToAddress(receiver) && tx.value == amount
    && tx.gasLimit == TRANSFER_GAS_LIMIT && env.suggestGasPrice == Ok(tx.gasPrice) && tx.data == []
  }

  /** From a gas-price request on: the calls are [SuggestGasPrice], then
      the calls of submitting a transaction that satisfies the shape. */
  ghost predicate GasThenSubmit(calls: seq<Event>, result: Result<string>, env: Env)
  {
    && |calls| >= 1 && calls[0] == SuggestGasPrice
    && (env.suggestGasPrice.Err? ==> calls == [SuggestGasPrice]
                                     && result == Err(ERR_GAS_PRICE + env.suggestGasPrice.msg))
    && (env.suggestGasPrice.Ok? ==> |calls| >= 2 && calls[1].SignTx?
                                    && calls[1..] == Submit(calls[1].tx, env).calls
                                    && result == Submit(calls[1].tx, env).result)
  }

  /** awardItem: parse the ABI, encode the call, get a gas price, then
      build, sign and broadcast the mint transaction. It never touches the
      cache or reads the ledger, and every transaction it signs has the
      mint shape. */
  function MintFlow(player: string, tokenURI: string, env: Env): (e: Effect<string>)
    ensures e.store == None
    ensures env.abiParse.Failure? ==> e == Effect(Err(ERR_PARSE_ABI + env.abiParse.msg), [], None)
    ensures env.abiParse.Success? && env.packAwardItem(env.hexToAddress(player), tokenURI).Err? ==>
              e == Effect(Err(ERR_PACK_AWARD + env.packAwardItem(env.hexToAddress(player), tokenURI).msg), [], None)
    ensures env.abiParse.Success? && env.packAwardItem(env.hexToAddress(player), tokenURI).Ok? ==> e.calls != []
    ensures e.calls != [] ==> GasThenSubmit(e.calls, e.result, env)
    ensures |e.calls| >= 2 ==> IsMintTx(e.calls[1].tx, player, tokenURI, env)
    ensures e.result.Ok? <==> Accepted(e.calls, env)
    ensures e.result.Ok? ==> e.result.value == env.txHash(Last(e.calls).stx)
  {
    if env.abiParse.Failure? then
      Effect(Err(ERR_PARSE_ABI + env.abiParse.msg), [], None)
    else
      match env.packAwardItem(env.hexToAddress(player), tokenURI)
      case Err(m) => Effect(Err(ERR_PACK_AWARD + m), [], None)
      case Ok(txData) =>
        match env.suggestGasPrice
        case Err(m) => Effect(Err(ERR_GAS_PRICE + m), [SuggestGasPrice], None)
        case Ok(gasPrice) =>
          var tx := Tx(MINT_NONCE, NFT_ADDRESS, 0, MINT_GAS_LIMIT, gasPrice, txData);
          var s := Submit(tx, env);
          Effect(s.result, [SuggestGasPrice] + s.calls, None)
  }

  /** sendEtherWithAuth: look the sender up (cache or ledger), pass the
      gate, then get a gas price and build, sign and broadcast the
      transfer. A lookup error is returned unchanged; a denied sender gets
      "user does not own an NFT" and nothing beyond the lookup happens;
      the only cache write is the lookup's, even on denial. */
  function TransferFlow(cache: map<string, nat>, sender: string, receiver: string, amount: nat, env: Env): Effect<string>
  {
    var b := Lookup(cache, sender, env);
    if b.result.Err? then
      Effect(Err(b.result.msg), b.calls, b.store)
    else if Authorize(b.result.value).Denied? then
      Effect(Err(Authorize(b.result.value).reason), b.calls, b.store)
    else
      match env.suggestGasPrice
      case Err(m) => Effect(Err(ERR_GAS_PRICE + m), b.calls + [SuggestGasPrice], b.store)
      case Ok(gasPrice) =>
        var tx := Tx(TRANSFER_NONCE, env.hexToAddress(receiver), amount, TRANSFER_GAS_LIMIT, gasPrice, []);
        var s := Submit(tx, env);
        Effect(s.result, b.calls + [SuggestGasPrice] + s.calls, b.store)
  }

  /** The properties of sendEtherWithAuth: the lookup comes first and
      is the only cache write; a lookup error is returned unchanged; a
      denied sender gets "user does not own an NFT" and nothing beyond the
      lookup happens; an allowed sender always goes on to the gas price,
      and any call beyond ledger reads means the gate allowed; every
      signed transaction has the transfer shape; a hash is returned only
      for an accepted broadcast. */
  lemma TransferFlowSpec(cache: map<string, nat>, sender: string, receiver: string, amount: nat, env: Env)
    ensures var b, e := Lookup(cache, sender, env), TransferFlow(cache, sender, receiver, amount, env);
      && e.store == b.store
      && |b.calls| <= |e.calls| && e.calls[..|b.calls|] == b.calls
      && (b.result.Err? ==> e.result == Err(b.result.msg) && e.calls == b.calls)
      && (b.result.Ok? && Authorize(b.result.value).Denied? ==> e.result == Err(NOT_OWNER) && e.calls == b.calls)
      && (!OnlyLedgerReads(e.calls) ==> b.result.Ok? && Authorize(b.result.value) == Allowed)
      && (b.result.Ok? && Authorize(b.result.value) == Allowed ==> |e.calls| > |b.calls|)
      && (|e.calls| > |b.calls| ==> GasThenSubmit(e.calls[|b.calls|..], e.result, env))
      && (|e.calls| > |b.calls| + 1 ==> IsTransferTx(e.calls[|b.calls| + 1].tx, receiver, amount, env))
    ensures var e := TransferFlow(cache, sender, receiver, amount, env);
      && (e.result.Ok? <==> Accepted(e.calls, env))
      && (e.result.Ok? ==> e.result.value == env.txHash(Last(e.calls).stx))
  {
  }

  /** A flow's outcome as the response: a hash or balance becomes the one
      result field, an error becomes the error message. */
  function Respond(id: int, field: string, r: Result<string>): (resp: Response)
    ensures resp.jsonrpc == VERSION && resp.id == id
    ensures resp.payload.ResultPayload? <==> r.Ok?
    ensures r.Ok? ==> resp.payload == ResultPayload(field, r.value)
    ensures r.Err? ==> resp.payload == ErrorPayload(r.msg)
  {
    match r
    case Ok(v) => SendResult(id, field, v)
    case Err(m) => SendError(id, m)
  }

  /** The balance as its decimal text (`balance.String()`). */
  function BalanceText(r: Result<nat>): (t: Result<string>)
    ensures t.Ok? <==> r.Ok?
    ensures r.Ok? ==> Decimal.AllDigits(t.value) && Decimal.Value(t.value) == r.value
    ensures r.Ok? ==> |t.value| >= 1 && (t.value[0] == '0' ==> t.value == "0")
    ensures r.Err? ==> t.msg == r.msg
  {
    match r
    case Ok(v) => Decimal.ValueOfToDecimal(v); Ok(Decimal.ToDecimal(v))
    case Err(m) => Err(m)
  }

  /** What handling one request does. */
  datatype Reply = Reply(response: Response, calls: seq<Event>, store: Option<Entry>)

  /** handleJSONRPC on a decoded request: the id is echoed; a rejected
      request makes no call and no cache write; otherwise the response is
      the chosen flow's outcome; the only cache write is the ledger's
      decoded balance for the raw parameter, made on a miss. */
  function Dispatch(cache: map<string, nat>, req: Request, env: Env): (r: Reply)
    requires ParamsTyped(req)
    ensures r.response.id == req.id && r.response.jsonrpc == VERSION
    ensures Route(req.name, |req.params|).Reject? ==>
              r == Reply(SendError(req.id, Route(req.name, |req.params|).message), [], None)
    ensures r.store.Some? ==> && BalanceKey(req) == Some(r.store.value.key)
                              && r.store.value.key !in cache
                              && LedgerReports(env, r.store.value.key, r.store.value.balance)
    ensures Route(req.name, |req.params|) == MintNFT ==>
              var m := MintFlow(req.params[0].s, req.params[1].s, env);
              r == Reply(Respond(req.id, "tx_hash", m.result), m.calls, None)
    ensures Route(req.name, |req.params|) == BalanceOf ==>
              var l := Lookup(cache, req.params[0].s, env);
              r == Reply(Respond(req.id, "balance", BalanceText(l.result)), l.calls, l.store)
    ensures Route(req.name, |req.params|) == SendEther ==>
              var t := TransferFlow(cache, req.params[0].s, req.params[1].s, req.params[2].n, env);
              r == Reply(Respond(req.id, "tx_hash", t.result), t.calls, t.store)
  {
    match Route(req.name, |req.params|)
    case Reject(m) => Reply(SendError(req.id, m), [], None)
    case MintNFT =>
      var m := MintFlow(req.params[0].s, req.params[1].s, env);
      Reply(Respond(req.id, "tx_hash", m.result), m.calls, m.store)
    case BalanceOf =>
      var l := Lookup(cache, req.params[0].s, env);
      Reply(Respond(req.id, "balance", BalanceText(l.result)), l.calls, l.store)
    case SendEther =>
      var t := TransferFlow(cache, req.params[0].s, req.params[1].s, req.params[2].n, env);
      Reply(Respond(req.id, "tx_hash", t.result), t.calls, t.store)
  }
}
