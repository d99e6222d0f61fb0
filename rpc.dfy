/** The JSON-RPC 2.0 envelope as the handler sees it once the body is
    decoded, and the choice of flow made from the method name and the
    number of parameters. */
module Rpc {
  import opened Wrappers

  /** A positional parameter after JSON decoding. A JSON number is taken
      as the unsigned amount it is converted to. */
  datatype Param = PString(s: string) | PNumber(n: nat) | POther

  datatype Request = Request(jsonrpc: string, name: string, params: seq<Param>, id: int)

  /** A response carries a result object or an error object, never both:
      results are one-field objects such as {"tx_hash": h}, errors {"message": m}. */
  datatype Payload = ResultPayload(field: string, value: string) | ErrorPayload(message: string)

  datatype Response = Response(jsonrpc: string, payload: Payload, id: int)

  const VERSION := "2.0"
  const METHOD_NOT_FOUND := "Method not found"
  const INVALID_PARAMETERS := "Invalid parameters"

  /** sendResult: version tag, the result, the request's id. */
  function SendResult(id: int, field: string, value: string): (r: Response)
    ensures r.jsonrpc == VERSION && r.id == id
    ensures r.payload.ResultPayload? && r.payload.field == field && r.payload.value == value
  {
    Response(VERSION, ResultPayload(field, value), id)
  }

  /** sendError: version tag, {"message": msg}, the request's id. */
  function SendError(id: int, msg: string): (r: Response)
    ensures r.jsonrpc == VERSION && r.id == id
    ensures r.payload.ErrorPayload? && r.payload.message == msg
  {
    Response(VERSION, ErrorPayload(msg), id)
  }

  /** Which flow a request runs, or the error it is answered with at once. */
  datatype Handler = MintNFT | BalanceOf | SendEther | Reject(message: string)

  predicate Known(name: string)
  {
    name == "mintNFT" || name == "balanceOf" || name == "sendEther"
  }

  /** The fewest parameters each method accepts; more are allowed. */
  function MinArity(name: string): nat
    requires Known(name)
  {
    if name == "mintNFT" then 2 else if name == "balanceOf" then 1 else 3
  }

  /** The switch of handleJSONRPC: an unknown name is "Method not found",
      a known name with too few parameters is "Invalid parameters", and
      anything else reaches that method's flow. */
  function Route(name: string, arity: nat): (h: Handler)
    ensures h == Reject(METHOD_NOT_FOUND) <==> !Known(name)
    ensures h == Reject(INVALID_PARAMETERS) <==> Known(name) && arity < MinArity(name)
    ensures h == MintNFT <==> name == "mintNFT" && arity >= 2
    ensures h == BalanceOf <==> name == "balanceOf" && arity >= 1
    ensures h == SendEther <==> name == "sendEther" && arity >= 3
  {
    match name
    case "mintNFT" => if arity < 2 then Reject(INVALID_PARAMETERS) else MintNFT
    case "balanceOf" => if arity < 1 then Reject(INVALID_PARAMETERS) else BalanceOf
    case "sendEther" => if arity < 3 then Reject(INVALID_PARAMETERS) else SendEther
    case _ => Reject(METHOD_NOT_FOUND)
  }

  /** The parameters the chosen flow reads have the types the handler
      asserts (a string address, a string URI, a numeric amount); the
      handler panics otherwise. */
  predicate ParamsTyped(req: Request)
  {
    match Route(req.name, |req.params|)
    case MintNFT => req.params[0].PString? && req.params[1].PString?
    case BalanceOf => req.params[0].PString?
    case SendEther => req.params[0].PString? && req.params[1].PString? && req.params[2].PNumber?
    case Reject(_) => true
  }

  /** The raw string whose balance a request looks up, if it looks one up:
      the address of balanceOf and the sender of sendEther. */
  function BalanceKey(req: Request): (k: Option<string>)
    ensures k.Some? <==> Route(req.name, |req.params|) in {BalanceOf, SendEther} && req.params[0].PString?
    ensures k.Some? ==> k.value == req.params[0].s
  {
    match Route(req.name, |req.params|)
    case BalanceOf | SendEther => if req.params[0].PString? then Some(req.params[0].s) else None
    case _ => None
  }
}
