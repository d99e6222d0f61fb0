/** The relay process: the shared balance cache and the four handlers of
    main.go, written step by step. Each external call is recorded in the
    ghost `log`, and each method is proved to do what the matching
    function of `Flows` describes. */
module Server {
  import opened Wrappers
  import opened Ethereum
  import opened Lru
  import opened Rpc
  import opened Flows
  import Decimal

  class Relay {
    /** The process-wide LRU cache, created once and never replaced. */
    const cache: Cache
    /** The external calls made so far, oldest first. */
    ghost var log: seq<Event>

    ghost predicate Valid()
      reads this, cache
    {
      cache.Valid()
    }

    /** The cache part of init: lru.New(100). */
    constructor ()
      ensures Valid() && fresh(cache) && cache.entries == map[] && log == []
    {
      cache := new Cache();
      log := [];
    }

    /** getBalanceOf: answer from the cache, or fetch from the ledger and
        cache the decoded balance under the raw parameter string. */
    method GetBalanceOf(playerAddress: string, env: Env) returns (r: Result<nat>)
      requires Valid()
      modifies this, cache
      ensures Valid()
      ensures var e := Lookup(old(cache.entries), playerAddress, env);
              && r == e.result && log == old(log) + e.calls
              && Applied(old(cache.entries), cache.entries, e.store)
    {
      var hit := cache.Get(playerAddress);
      if hit.Some? {
        return Ok(hit.value);
      }
      if env.abiParse.Failure? {
        return Err(ERR_PARSE_ABI + env.abiParse.msg);
      }
      var address := env.hexToAddress(playerAddress);
      var callData := env.packBalanceOf(address);
      if callData.Err? {
        return Err(ERR_PACK_BALANCE + callData.msg);
      }
      log := log + [CallContract(NFT_ADDRESS, callData.value)];
      var output := env.callContract(NFT_ADDRESS, callData.value);
      if output.Err? {
        return Err(ERR_CALL_BALANCE + output.msg);
      }
      var balance := env.unpackBalanceOf(output.value);
      if balance.Err? {
        return Err(ERR_UNPACK_BALANCE + balance.msg);
      }
      cache.Add(playerAddress, balance.value);
      return Ok(balance.value);
    }

    /** types.SignTx under the chain id, then client.SendTransaction, then
        the hash of the signed transaction. */
    method SignAndSend(tx: Tx, env: Env) returns (r: Result<string>)
      modifies this
      ensures r == Submit(tx, env).result && log == old(log) + Submit(tx, env).calls
    {
      log := log + [SignTx(tx)];
      var signature := env.signTx(tx, CHAIN_ID);
      if signature.Err? {
        return Err(ERR_SIGN + signature.msg);
      }
      var signedTx := SignedTx(tx, CHAIN_ID, signature.value);
      log := log + [SendTransaction(signedTx)];
      var sendErr := env.sendTransaction(signedTx);
      if sendErr.Failure? {
        return Err(ERR_SEND + sendErr.msg);
      }
      return Ok(env.txHash(signedTx));
    }

    /** awardItem: mint an NFT for the player with the given token URI. */
    method AwardItem(playerAddress: string, tokenURI: string, env: Env) returns (r: Result<string>)
      modifies this
      ensures r == MintFlow(playerAddress, tokenURI, env).result
      ensures log == old(log) + MintFlow(playerAddress, tokenURI, env).calls
    {
      if env.abiParse.Failure? {
        return Err(ERR_PARSE_ABI + env.abiParse.msg);
      }
      var address := env.hexToAddress(playerAddress);
      var txData := env.packAwardItem(address, tokenURI);
      if txData.Err? {
        return Err(ERR_PACK_AWARD + txData.msg);
      }
      log := log + [SuggestGasPrice];
      var gasPrice := env.suggestGasPrice;
      if gasPrice.Err? {
        return Err(ERR_GAS_PRICE + gasPrice.msg);
      }
      var tx := Tx(MINT_NONCE, NFT_ADDRESS, 0, MINT_GAS_LIMIT, gasPrice.value, txData.value);
      r := SignAndSend(tx, env);
    }

    /** sendEtherWithAuth: transfer `amount` to the receiver, but only for
        a sender whose NFT balance is positive. */
    method SendEtherWithAuth(senderAddress: string, receiverAddress: string, amount: nat, env: Env)
      returns (r: Result<string>)
      requires Valid()
      modifies this, cache
      ensures Valid()
      ensures var e := TransferFlow(old(cache.entries), senderAddress, receiverAddress, amount, env);
              && r == e.result && log == old(log) + e.calls
              && Applied(old(cache.entries), cache.entries, e.store)
    {
      var balance := GetBalanceOf(senderAddress, env);
      if balance.Err? {
        return Err(balance.msg);
      }
      if balance.value <= 0 {
        return Err(NOT_OWNER);
      }
      log := log + [SuggestGasPrice];
      var gasPrice := env.suggestGasPrice;
      if gasPrice.Err? {
        return Err(ERR_GAS_PRICE + gasPrice.msg);
      }
      var tx := Tx(TRANSFER_NONCE, env.hexToAddress(receiverAddress), amount, TRANSFER_GAS_LIMIT, gasPrice.value, []);
      r := SignAndSend(tx, env);
    }

    /** handleJSONRPC on a decoded request: route on the method name, check
        the parameter count, run the flow and answer with its outcome. */
    method HandleJSONRPC(req: Request, env: Env) returns (resp: Response)
      requires Valid() && ParamsTyped(req)
      modifies this, cache
      ensures Valid()
      ensures var d := Dispatch(old(cache.entries), req, env);
              && resp == d.response && log == old(log) + d.calls
              && Applied(old(cache.entries), cache.entries, d.store)
    {
      match req.name
      case "mintNFT" =>
        if |req.params| < 2 {
          return SendError(req.id, INVALID_PARAMETERS);
        }
        var txHash := AwardItem(req.params[0].s, req.params[1].s, env);
        if txHash.Err? {
          return SendError(req.id, txHash.msg);
        }
        return SendResult(req.id, "tx_hash", txHash.value);
      case "balanceOf" =>
        if |req.params| < 1 {
          return SendError(req.id, INVALID_PARAMETERS);
        }
        var balance := GetBalanceOf(req.params[0].s, env);
        if balance.Err? {
          return SendError(req.id, balance.msg);
        }
        return SendResult(req.id, "balance", Decimal.ToDecimal(balance.value));
      case "sendEther" =>
        if |req.params| < 3 {
          return SendError(req.id, INVALID_PARAMETERS);
        }
        var txHash := SendEtherWithAuth(req.params[0].s, req.params[1].s, req.params[2].n, env);
        if txHash.Err? {
          return SendError(req.id, txHash.msg);
        }
        return SendResult(req.id, "tx_hash", txHash.value);
      case _ =>
        return SendError(req.id, METHOD_NOT_FOUND);
    }
  }
}
