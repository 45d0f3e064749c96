/** The runtime's side of the chain extension: it turns a dispatch result
    into a status code, and it dispatches an incoming call by its function
    id to one primitive of the assets pallet, signed by the caller named in
    the call's own input. */
module RuntimeExtension {
  import opened Wrappers
  import opened Scale

  const TRANSFER_KEEP_ALIVE: u16 := 120
  const TRANSFER_ALLOW_DEATH: u16 := 121
  const APPROVE_TRANSFER: u16 := 122
  const CANCEL_APPROVED: u16 := 123
  const TRANSFER_APPROVED: u16 := 124

  /** Status for every dispatch error that is not the assets pallet's own. */
  const DISPATCH_ERROR_GENERIC: u32 := 200
  const SUCCESS: u32 := 0
  /** Module index of the assets pallet in the runtime. */
  const PALLET_ASSET_INDEX: u8 := 9

  type ErrorBytes = s: seq<u8> | |s| == 4 witness [0, 0, 0, 0]

  datatype ModuleError = ModuleError(index: u8, error: ErrorBytes)

  /** The runtime's dispatch error. `DecodingFailed` stands for the error
      the contracts pallet raises when an input buffer does not decode. */
  datatype DispatchError =
    | Other(message: string)
    | CannotLookup
    | BadOrigin
    | Module(moduleError: ModuleError)
    | ConsumerRemaining
    | NoProviders
    | TooManyConsumers
    | Token
    | Arithmetic
    | Transactional
    | Exhausted
    | Corruption
    | Unavailable
    | DecodingFailed

  type DispatchResult = Result<(), DispatchError>

  /** What the extension returns to the contracts pallet. */
  datatype RetVal = Converging(code: u32) | Diverging(flags: u32, data: seq<u8>)

  /** True of a failure raised by the assets pallet itself. */
  predicate IsAssetsError(res: DispatchResult)
  {
    res.Err? && res.error.Module? && res.error.moduleError.index == PALLET_ASSET_INDEX
  }

  /** `get_retval`: `Ok` is 0; an assets-pallet error is 1 plus its first
      error byte, added in `u8` and so wrapping 255 round to 0; every other
      error is 200. The result always converges. */
  function GetRetval(res: DispatchResult): (r: RetVal)
    ensures r.Converging?
    ensures res.Ok? ==> r.code == SUCCESS
    ensures IsAssetsError(res) ==> r.code == (1 + res.error.moduleError.error[0] as int) % 256
    ensures res.Err? && !IsAssetsError(res) ==> r.code == DISPATCH_ERROR_GENERIC
    ensures r.code == SUCCESS <==> res.Ok? || (IsAssetsError(res) && res.error.moduleError.error[0] == 255)
  {
    match res
    case Ok(_) => Converging(SUCCESS)
    case Err(err) =>
      match err
      case Module(m) =>
        if m.index == PALLET_ASSET_INDEX then
          var errorIndex: u8 := m.error[0];
          var sum: u8 := (1 + errorIndex as int) % 256;
          Converging(sum)
        else
          Converging(DISPATCH_ERROR_GENERIC)
      case _ => Converging(DISPATCH_ERROR_GENERIC)
  }

  datatype Origin = Signed(who: AccountId)

  /** One call into the assets pallet, with the origin it is signed by. */
  datatype PrimitiveCall =
    | TransferKeepAlive(origin: Origin, id: u32, target: AccountId, amount: u128)
    | Transfer(origin: Origin, id: u32, target: AccountId, amount: u128)
    | ApproveTransfer(origin: Origin, id: u32, delegate: AccountId, amount: u128)
    | CancelApproval(origin: Origin, id: u32, delegate: AccountId)
    | TransferApproved(origin: Origin, id: u32, owner: AccountId, destination: AccountId, amount: u128)

  /** The assets pallet as the dispatcher sees it: each primitive call is
      recorded, and its outcome is whatever `respond` gives for the call
      after the calls made so far. */
  class Ledger {
    const respond: (seq<PrimitiveCall>, PrimitiveCall) -> DispatchResult
    var calls: seq<PrimitiveCall>

    constructor (respond: (seq<PrimitiveCall>, PrimitiveCall) -> DispatchResult)
      ensures this.respond == respond && calls == []
    {
      this.respond := respond;
      calls := [];
    }

    method Invoke(c: PrimitiveCall) returns (res: DispatchResult)
      modifies this
      ensures calls == old(calls) + [c]
      ensures res == respond(old(calls), c)
    {
      res := respond(calls, c);
      calls := calls + [c];
    }
  }

  /** `env_buf.read_as()` for the two tuple shapes the runtime decodes: the
      tuple is read from the front of the input, and a short input is the
      contracts pallet's decoding error. */
  function ReadTransferArgs(input: seq<u8>): (r: Result<TransferArgs, DispatchError>)
    ensures r.Ok? <==> |input| >= TRANSFER_ARGS_LEN
    ensures r.Ok? ==> EncodeTransferArgs(r.value) == input[..TRANSFER_ARGS_LEN]
    ensures r.Err? ==> r.error == DecodingFailed
  {
    match DecodeTransferArgs(input)
    case Ok((args, _)) => Ok(args)
    case Err(_) => Err(DecodingFailed)
  }

  function ReadApprovalArgs(input: seq<u8>): (r: Result<ApprovalArgs, DispatchError>)
    ensures r.Ok? <==> |input| >= APPROVAL_ARGS_LEN
    ensures r.Ok? ==> EncodeApprovalArgs(r.value) == input[..APPROVAL_ARGS_LEN]
    ensures r.Err? ==> r.error == DecodingFailed
  {
    match DecodeApprovalArgs(input)
    case Ok((args, _)) => Ok(args)
    case Err(_) => Err(DecodingFailed)
  }

  /** What `call` does with a function id and an input, before the ledger
      answers: refuse the id, fail to decode, or make one primitive call. */
  datatype Plan = Unimplemented | Rejected(error: DispatchError) | Dispatch(call: PrimitiveCall)

  predicate KnownFuncId(funcId: u16)
  {
    TRANSFER_KEEP_ALIVE <= funcId <= TRANSFER_APPROVED
  }

  /** The size of the tuple the runtime decodes for a known id. */
  function ArgsLen(funcId: u16): nat
  {
    if funcId == CANCEL_APPROVED then APPROVAL_ARGS_LEN else TRANSFER_ARGS_LEN
  }

  /** The dispatch that `Call` performs, as a function of its inputs. The
      origin is always `Signed` by the account at bytes 4 to 36 of the input:
      nothing checks that account against anything else. */
  function PlanOf(funcId: u16, input: seq<u8>): (p: Plan)
    ensures p.Unimplemented? <==> !KnownFuncId(funcId)
    ensures KnownFuncId(funcId) ==> (p.Rejected? <==> |input| < ArgsLen(funcId))
    ensures p.Rejected? ==> p.error == DecodingFailed
    ensures p.Dispatch? ==>
              && |input| >= ArgsLen(funcId)
              && p.call.origin == Signed(input[4..36])
              && EncodeU32(p.call.id) == input[..4]
    ensures p.Dispatch? ==>
              && (funcId == TRANSFER_KEEP_ALIVE <==> p.call.TransferKeepAlive?)
              && (funcId == TRANSFER_ALLOW_DEATH <==> p.call.Transfer?)
              && (funcId == APPROVE_TRANSFER <==> p.call.ApproveTransfer?)
              && (funcId == CANCEL_APPROVED <==> p.call.CancelApproval?)
              && (funcId == TRANSFER_APPROVED <==> p.call.TransferApproved?)
    ensures p.Dispatch? && (p.call.TransferKeepAlive? || p.call.Transfer?) ==> p.call.target == input[36..68]
    ensures p.Dispatch? && (p.call.ApproveTransfer? || p.call.CancelApproval?) ==> p.call.delegate == input[36..68]
    ensures p.Dispatch? && p.call.TransferApproved? ==>
              p.call.owner == input[4..36] && p.call.destination == input[36..68]
    ensures p.Dispatch? && !p.call.CancelApproval? ==> EncodeU128(p.call.amount) == input[68..84]
  {
    if funcId == TRANSFER_KEEP_ALIVE || funcId == TRANSFER_ALLOW_DEATH
      || funcId == APPROVE_TRANSFER || funcId == TRANSFER_APPROVED then
      match ReadTransferArgs(input)
      case Err(e) => Rejected(e)
      case Ok((assetId, caller, other, amount)) =>
        var origin := Signed(caller);
        TransferArgsAt(input);
        Dispatch(
          if funcId == TRANSFER_KEEP_ALIVE then TransferKeepAlive(origin, assetId, other, amount)
          else if funcId == TRANSFER_ALLOW_DEATH then Transfer(origin, assetId, other, amount)
          else if funcId == APPROVE_TRANSFER then ApproveTransfer(origin, assetId, other, amount)
          else TransferApproved(origin, assetId, caller, other, amount))
    else if funcId == CANCEL_APPROVED then
      match ReadApprovalArgs(input)
      case Err(e) => Rejected(e)
      case Ok((assetId, caller, delegate)) =>
        ApprovalArgsAt(input);
        Dispatch(CancelApproval(Signed(caller), assetId, delegate))
    else
      Unimplemented
  }

  /** Where the fields of a decoded transfer tuple sit in the input. */
  lemma TransferArgsAt(input: seq<u8>)
    requires ReadTransferArgs(input).Ok?
    ensures var (assetId, caller, other, amount) := ReadTransferArgs(input).value;
      && EncodeU32(assetId) == input[..4]
      && caller == input[4..36]
      && other == input[36..68]
      && EncodeU128(amount) == input[68..84]
  {
    var ((assetId, caller, other, amount), rest) := DecodeTransferArgs(input).value;
    assert input == EncodeU32(assetId) + caller + other + EncodeU128(amount) + rest;
  }

  lemma ApprovalArgsAt(input: seq<u8>)
    requires ReadApprovalArgs(input).Ok?
    ensures var (assetId, caller, delegate) := ReadApprovalArgs(input).value;
      && EncodeU32(assetId) == input[..4]
      && caller == input[4..36]
      && delegate == input[36..68]
  {
    var ((assetId, caller, delegate), rest) := DecodeApprovalArgs(input).value;
    assert input == EncodeU32(assetId) + caller + delegate + rest;
  }

  /** `ChainExtension::call`: dispatch on the function id, decode that id's
      argument tuple (a failure returns at once, as `?` does), make the one
      pallet call under `Signed(caller)`, and report it through
      `GetRetval`. An unknown id is a hard error and touches no ledger. */
  method Call(funcId: u16, input: seq<u8>, ledger: Ledger) returns (r: Result<RetVal, DispatchError>)
    modifies ledger
    ensures match PlanOf(funcId, input)
      case Unimplemented =>
        r == Err(Other("Unimplemented func_id")) && ledger.calls == old(ledger.calls)
      case Rejected(e) =>
        r == Err(e) && ledger.calls == old(ledger.calls)
      case Dispatch(c) =>
        && ledger.calls == old(ledger.calls) + [c]
        && r == Ok(GetRetval(ledger.respond(old(ledger.calls), c)))
  {
    if funcId == TRANSFER_KEEP_ALIVE {
      var args :- ReadTransferArgs(input);
      var (assetId, caller, target, amount) := args;
      var origin := Signed(caller);
      var palletRes := ledger.Invoke(TransferKeepAlive(origin, assetId, target, amount));
      return Ok(GetRetval(palletRes));
    } else if funcId == TRANSFER_ALLOW_DEATH {
      var args :- ReadTransferArgs(input);
      var (assetId, caller, target, amount) := args;
      var origin := Signed(caller);
      var palletRes := ledger.Invoke(Transfer(origin, assetId, target, amount));
      return Ok(GetRetval(palletRes));
    } else if funcId == APPROVE_TRANSFER {
      var args :- ReadTransferArgs(input);
      var (assetId, caller, delegate, amount) := args;
      var origin := Signed(caller);
      var palletRes := ledger.Invoke(ApproveTransfer(origin, assetId, delegate, amount));
      return Ok(GetRetval(palletRes));
    } else if funcId == CANCEL_APPROVED {
      var args :- ReadApprovalArgs(input);
      var (assetId, caller, delegate) := args;
      var origin := Signed(caller);
      var palletRes := ledger.Invoke(CancelApproval(origin, assetId, delegate));
      return Ok(GetRetval(palletRes));
    } else if funcId == TRANSFER_APPROVED {
      var args :- ReadTransferArgs(input);
      var (assetId, caller, delegate, amount) := args;
      var origin := Signed(caller);
      var palletRes := ledger.Invoke(TransferApproved(origin, assetId, caller, delegate, amount));
      return Ok(GetRetval(palletRes));
    } else {
      return Err(Other("Unimplemented func_id"));
    }
  }

  /** An unregistered id (999) is a hard error, and the ledger sees no call. */
  method UnknownFuncIdScenario(respond: (seq<PrimitiveCall>, PrimitiveCall) -> DispatchResult, input: seq<u8>)
    returns (r: Result<RetVal, DispatchError>, calls: seq<PrimitiveCall>)
    ensures r == Err(Other("Unimplemented func_id")) && calls == []
  {
    var ledger := new Ledger(respond);
    r := Call(999, input, ledger);
    calls := ledger.calls;
  }

  /** A truncated input for id 122 fails to decode before any pallet call. */
  method TruncatedInputScenario(respond: (seq<PrimitiveCall>, PrimitiveCall) -> DispatchResult, input: seq<u8>)
    returns (r: Result<RetVal, DispatchError>, calls: seq<PrimitiveCall>)
    requires |input| < TRANSFER_ARGS_LEN
    ensures r == Err(DecodingFailed) && calls == []
  {
    var ledger := new Ledger(respond);
    r := Call(APPROVE_TRANSFER, input, ledger);
    calls := ledger.calls;
  }
}
