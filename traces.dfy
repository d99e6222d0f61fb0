/** Properties of the relay over a run of requests served one after the
    other, each against the cache the previous one left behind. */
module Traces {
  import opened Wrappers
  import opened Ethereum
  import opened Lru
  import opened Rpc
  import opened Flows
  import Decimal

  /** Handling `req` against `before` can answer `resp` and leave `after`. */
  ghost predicate Step(before: map<string, nat>, req: Request, env: Env, after: map<string, nat>, resp: Response)
  {
    && ParamsTyped(req)
    && var d := Dispatch(before, req, env);
       resp == d.response && Applied(before, after, d.store)
  }

  /** `caches[i]` is the cache before request `i`; `envs[i]` is what the
      outside world answered during it. */
  ghost predicate Run(caches: seq<map<string, nat>>, reqs: seq<Request>, envs: seq<Env>, resps: seq<Response>)
  {
    && |caches| == |reqs| + 1 && |envs| == |reqs| && |resps| == |reqs|
    && forall i :: 0 <= i < |reqs| ==> Step(caches[i], reqs[i], envs[i], caches[i + 1], resps[i])
  }

  /** One request changes no cached balance: a cached key either keeps its
      value or is evicted. */
  lemma StepKeepsCachedValues(before: map<string, nat>, req: Request, env: Env, after: map<string, nat>, resp: Response, key: string)
    requires Step(before, req, env, after, resp)
    requires key in before && key in after
    ensures after[key] == before[key]
  {
  }

  /** The cache never holds more than 100 entries. */
  lemma {:induction false} RunBounded(caches: seq<map<string, nat>>, reqs: seq<Request>, envs: seq<Env>, resps: seq<Response>, k: nat)
    requires Run(caches, reqs, envs, resps) && Bounded(caches[0]) && k < |caches|
    ensures Bounded(caches[k])
  {
    if k > 0 {
      RunBounded(caches, reqs, envs, resps, k - 1);
      assert Step(caches[k - 1], reqs[k - 1], envs[k - 1], caches[k], resps[k - 1]);
      var d := Dispatch(caches[k - 1], reqs[k - 1], envs[k - 1]);
      if d.store.Some? {
        StoredBounded(caches[k - 1], caches[k], d.store.value.key, d.store.value.balance);
      }
    }
  }

  /** Every cached balance was there from the start, or was the ledger's
      answer for exactly that raw string during an earlier balanceOf or
      sendEther request that looked it up. */
  lemma {:induction false} CachedBalanceProvenance(caches: seq<map<string, nat>>, reqs: seq<Request>, envs: seq<Env>, resps: seq<Response>, k: nat, key: string)
    requires Run(caches, reqs, envs, resps) && k < |caches| && key in caches[k]
    ensures || (key in caches[0] && caches[k][key] == caches[0][key])
            || exists i :: 0 <= i < k && BalanceKey(reqs[i]) == Some(key) && LedgerReports(envs[i], key, caches[k][key])
  {
    if k > 0 {
      assert Step(caches[k - 1], reqs[k - 1], envs[k - 1], caches[k], resps[k - 1]);
      var d := Dispatch(caches[k - 1], reqs[k - 1], envs[k - 1]);
      if d.store.Some? && d.store.value.key == key {
        assert BalanceKey(reqs[k - 1]) == Some(key) && LedgerReports(envs[k - 1], key, caches[k][key]);
      } else {
        assert key in caches[k - 1] && caches[k][key] == caches[k - 1][key];
        CachedBalanceProvenance(caches, reqs, envs, resps, k - 1, key);
      }
    }
  }

  /** Starting from the empty cache init creates, every cached balance is
      one the ledger reported for that raw string in an earlier request. */
  lemma FromEmptyCacheEveryBalanceWasReported(caches: seq<map<string, nat>>, reqs: seq<Request>, envs: seq<Env>, resps: seq<Response>, k: nat, key: string)
    requires Run(caches, reqs, envs, resps) && caches[0] == map[] && k < |caches| && key in caches[k]
    ensures exists i :: 0 <= i < k && BalanceKey(reqs[i]) == Some(key) && LedgerReports(envs[i], key, caches[k][key])
  {
    CachedBalanceProvenance(caches, reqs, envs, resps, k, key);
  }

  /** A cached balance is never refreshed: as long as the key stays cached
      its value is the one first stored, whatever the ledger says later. */
  lemma {:induction false} CachedValueStable(caches: seq<map<string, nat>>, reqs: seq<Request>, envs: seq<Env>, resps: seq<Response>, i: nat, j: nat, key: string)
    requires Run(caches, reqs, envs, resps) && i <= j < |caches|
    requires forall m :: i <= m <= j ==> key in caches[m]
    ensures caches[j][key] == caches[i][key]
  {
    if j > i {
      CachedValueStable(caches, reqs, envs, resps, i, j - 1, key);
      assert Step(caches[j - 1], reqs[j - 1], envs[j - 1], caches[j], resps[j - 1]);
      StepKeepsCachedValues(caches[j - 1], reqs[j - 1], envs[j - 1], caches[j], resps[j - 1], key);
    }
  }

  /** A balanceOf that hits the cache answers the cached balance, makes no
      call and writes nothing, whatever the ledger would have said. */
  lemma BalanceHitIgnoresLedger(cache: map<string, nat>, req: Request, env: Env)
    requires ParamsTyped(req) && Route(req.name, |req.params|) == BalanceOf
    requires req.params[0].s in cache
    ensures Dispatch(cache, req, env) ==
            Reply(SendResult(req.id, "balance", Decimal.ToDecimal(cache[req.params[0].s])), [], None)
  {
  }

  /** A sender cached with balance 0 is refused with "user does not own an
      NFT" before any call is made, whatever the ledger would now say. */
  lemma CachedZeroSenderRefused(cache: map<string, nat>, req: Request, env: Env)
    requires ParamsTyped(req) && Route(req.name, |req.params|) == SendEther
    requires req.params[0].s in cache && cache[req.params[0].s] == 0
    ensures Dispatch(cache, req, env) == Reply(SendError(req.id, NOT_OWNER), [], None)
  {
  }

  /** A sender refused on a fresh lookup that returned 0 is cached with 0,
      so the refusal outlives any later change on the ledger while the
      entry stays cached. */
  lemma RefusalIsCached(before: map<string, nat>, req: Request, env: Env, after: map<string, nat>, resp: Response)
    requires Step(before, req, env, after, resp) && Route(req.name, |req.params|) == SendEther
    requires req.params[0].s !in before && LedgerReports(env, req.params[0].s, 0)
    ensures resp == SendError(req.id, NOT_OWNER)
    ensures req.params[0].s in after && after[req.params[0].s] == 0
  {
  }
}
