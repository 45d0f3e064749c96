/** How the two sides fit together: the contract's catalog against the
    runtime's dispatch, and the runtime's status code against the
    contract's reading of it. */
module Protocol {
  import opened Wrappers
  import opened Scale
  import PalletError
  import CE = ContractExtension
  import RT = RuntimeExtension

  /** Each catalog id is the runtime constant for the same operation. */
  lemma CatalogMatchesRuntime(c: CE.ExtensionCall)
    ensures CE.ExtensionId(c) == match c
      case TransferKeepAlive(_, _, _, _) => RT.TRANSFER_KEEP_ALIVE
      case TransferAllowDeath(_, _, _, _) => RT.TRANSFER_ALLOW_DEATH
      case ApproveTransfer(_, _, _, _) => RT.APPROVE_TRANSFER
      case CancelApproval(_, _, _) => RT.CANCEL_APPROVED
      case TransferApproved(_, _, _, _, _) => RT.TRANSFER_APPROVED
    ensures RT.KnownFuncId(CE.ExtensionId(c))
  {
  }

  /** The pallet call a catalog call stands for: the same operation, signed
      by the caller it names, with its other arguments in their roles. */
  function Intended(c: CE.ExtensionCall): (p: RT.PrimitiveCall)
    ensures p.origin == RT.Signed(c.caller) && p.id == c.assetId
  {
    var origin := RT.Signed(c.caller);
    match c
    case TransferKeepAlive(a, _, target, m) => RT.TransferKeepAlive(origin, a, target, m)
    case TransferAllowDeath(a, _, target, m) => RT.Transfer(origin, a, target, m)
    case ApproveTransfer(a, _, delegate, m) => RT.ApproveTransfer(origin, a, delegate, m)
    case CancelApproval(a, _, delegate) => RT.CancelApproval(origin, a, delegate)
    case TransferApproved(a, _, owner, target, m) => RT.TransferApproved(origin, a, owner, target, m)
  }

  /** For ids 120 to 123, what the contract encodes is what the runtime
      decodes, so it makes exactly the intended pallet call. */
  lemma DispatchRoundTrip(c: CE.ExtensionCall)
    requires !c.TransferApproved?
    ensures RT.PlanOf(CE.ExtensionId(c), CE.EncodeInput(c)) == RT.Dispatch(Intended(c))
  {
    var input := CE.EncodeInput(c);
    assert input + [] == input;
    match c
    case TransferKeepAlive(a, from, to, m) => DecodeEncodeTransferArgs((a, from, to, m), []);
    case TransferAllowDeath(a, from, to, m) => DecodeEncodeTransferArgs((a, from, to, m), []);
    case ApproveTransfer(a, from, to, m) => DecodeEncodeTransferArgs((a, from, to, m), []);
    case CancelApproval(a, from, to) => DecodeEncodeApprovalArgs((a, from, to), []);
  }

  /** The amount the runtime reads for id 124 when the contract's fourth
      field, an account, sits where it expects the amount. */
  function MisreadAmount(target: AccountId): (m: u128)
    ensures EncodeU128(m) == target[..16]
  {
    Pow256Widths();
    EncodeDecodeLE(target[..16]);
    DecodeLE(target[..16])
  }

  /** For id 124 the contract sends five fields and the runtime reads four:
      the owner is taken as the delegate, the first 16 bytes of the target
      as the amount, and the pallet is told to move funds from the caller
      to the contract's `owner` argument. */
  lemma TransferApprovedAsWritten(c: CE.ExtensionCall)
    requires c.TransferApproved?
    ensures RT.PlanOf(CE.ExtensionId(c), CE.EncodeInput(c))
         == RT.Dispatch(RT.TransferApproved(RT.Signed(c.caller), c.assetId, c.caller, c.owner, MisreadAmount(c.target)))
  {
    var input := CE.EncodeInput(c);
    var misread := MisreadAmount(c.target);
    var rest := c.target[16..] + EncodeU128(c.amount);
    assert input == EncodeTransferArgs((c.assetId, c.caller, c.owner, misread)) + rest;
    DecodeEncodeTransferArgs((c.assetId, c.caller, c.owner, misread), rest);
  }

  /** So the runtime makes the intended call for id 124 only in the
      degenerate case where caller, owner and target are one account and
      that account's first 16 bytes happen to spell the amount. */
  lemma TransferApprovedMisrouted(c: CE.ExtensionCall)
    requires c.TransferApproved?
    ensures RT.PlanOf(CE.ExtensionId(c), CE.EncodeInput(c)) == RT.Dispatch(Intended(c))
        <==> c.caller == c.owner && c.owner == c.target && MisreadAmount(c.target) == c.amount
  {
    TransferApprovedAsWritten(c);
  }

  /** A concrete instance: caller A, owner B, target C and amount 100;
      the runtime asks the pallet to move from A to B an amount read from
      C's bytes instead. */
  lemma TransferApprovedCounterexample()
    ensures var c := CE.TransferApproved(1, seq(32, i => 1), seq(32, i => 2), seq(32, i => 0), 100);
      RT.PlanOf(CE.ExtensionId(c), CE.EncodeInput(c)) != RT.Dispatch(Intended(c))
  {
    var c := CE.TransferApproved(1, seq(32, i => 1), seq(32, i => 2), seq(32, i => 0), 100);
    TransferApprovedAsWritten(c);
    assert c.caller[0] != c.owner[0];
  }

  /** `env_buf.read_as()` for the five-field tuple the contract sends for 124. */
  function ReadDelegatedArgs(input: seq<u8>): (r: Result<DelegatedArgs, RT.DispatchError>)
    ensures r.Err? ==> r.error == RT.DecodingFailed
    ensures r.Ok? <==> |input| >= DELEGATED_ARGS_LEN
  {
    match DecodeDelegatedArgs(input)
    case Ok((args, _)) => Ok(args)
    case Err(_) => Err(RT.DecodingFailed)
  }

  /** The dispatch the contract's catalog intends: as `PlanOf`, except that id 124
      decodes the contract's five fields and passes owner and destination
      through. */
  function IntendedPlan(funcId: u16, input: seq<u8>): (p: RT.Plan)
    ensures funcId != RT.TRANSFER_APPROVED ==> p == RT.PlanOf(funcId, input)
    ensures funcId == RT.TRANSFER_APPROVED ==> (p.Rejected? <==> |input| < DELEGATED_ARGS_LEN)
    ensures funcId == RT.TRANSFER_APPROVED && p.Dispatch? ==>
              p.call.TransferApproved? && p.call.origin == RT.Signed(input[4..36])
  {
    if funcId == RT.TRANSFER_APPROVED then
      match ReadDelegatedArgs(input)
      case Err(e) => RT.Rejected(e)
      case Ok((assetId, caller, owner, destination, amount)) =>
        var ((_, _, _, _, _), rest) := DecodeDelegatedArgs(input).value;
        assert input == EncodeU32(assetId) + caller + owner + destination + EncodeU128(amount) + rest;
        RT.Dispatch(RT.TransferApproved(RT.Signed(caller), assetId, owner, destination, amount))
    else
      RT.PlanOf(funcId, input)
  }

  /** With the intended dispatch, every one of the five calls arrives as
      the pallet call it stands for. */
  lemma IntendedRoundTrip(c: CE.ExtensionCall)
    ensures IntendedPlan(CE.ExtensionId(c), CE.EncodeInput(c)) == RT.Dispatch(Intended(c))
  {
    if c.TransferApproved? {
      var input := CE.EncodeInput(c);
      assert input + [] == input;
      DecodeEncodeDelegatedArgs((c.assetId, c.caller, c.owner, c.target, c.amount), []);
    } else {
      DispatchRoundTrip(c);
    }
  }

  /** The contract's reading of the status the runtime makes of a dispatch
      result: success stays success, an assets-pallet error with first byte
      0 to 19 becomes the variant with discriminant one higher, and any
      other module's or kind's error becomes `DispatchError`. Outside 0 to
      19 the assets-pallet byte reads as `Other`, except 199, whose code 200
      is the generic one, and 255, whose sum wraps to the success code. */
  lemma StatusRoundTrip(res: RT.DispatchResult)
    ensures var back := CE.FromStatusCode(RT.GetRetval(res).code);
      && (res.Ok? ==> back == Ok(()))
      && (res.Err? && !RT.IsAssetsError(res) ==> back == Err(CE.DispatchError))
      && (RT.IsAssetsError(res) ==>
            var i := res.error.moduleError.error[0];
            && (i <= 19 ==> back.Err? && back.error.PalletError? && PalletError.Discriminant(back.error.reason) == i + 1)
            && (20 <= i <= 254 && i != 199 ==> back == Err(CE.Other(i + 1)))
            && (i == 199 ==> back == Err(CE.DispatchError))
            && (i == 255 ==> back == Ok(())))
  {
  }

  /** The pallet's own error at index `i` (0 to 19) arrives as the variant
      listed at that index. */
  lemma PalletErrorArrivesByIndex(e: RT.ModuleError)
    requires e.index == RT.PALLET_ASSET_INDEX && e.error[0] < 20
    ensures CE.FromStatusCode(RT.GetRetval(Err(RT.Module(e))).code)
         == Err(CE.PalletError(PalletError.AllErrors()[e.error[0]]))
  {
    PalletError.DiscriminantsContiguous();
    var back := CE.FromStatusCode(RT.GetRetval(Err(RT.Module(e))).code);
    StatusRoundTrip(Err(RT.Module(e)));
    PalletError.DiscriminantInjective(back.error.reason, PalletError.AllErrors()[e.error[0]]);
  }

  /** One whole call: the contract's encoded call goes to the runtime's
      dispatcher over a fresh ledger, and the status it returns is read back
      on the contract side (`None` if the runtime returned a hard error,
      which traps the contract). The ledger sees exactly one call: the
      intended one, except for id 124. */
  method Pipeline(c: CE.ExtensionCall, respond: (seq<RT.PrimitiveCall>, RT.PrimitiveCall) -> RT.DispatchResult)
    returns (back: Option<Result<(), CE.ExtensionError>>, calls: seq<RT.PrimitiveCall>)
    ensures !c.TransferApproved? ==> calls == [Intended(c)]
    ensures c.TransferApproved? ==>
              calls == [RT.TransferApproved(RT.Signed(c.caller), c.assetId, c.caller, c.owner, MisreadAmount(c.target))]
    ensures |calls| == 1 && back == Some(CE.FromStatusCode(RT.GetRetval(respond([], calls[0])).code))
  {
    if c.TransferApproved? {
      TransferApprovedAsWritten(c);
    } else {
      DispatchRoundTrip(c);
    }
    var ledger := new RT.Ledger(respond);
    var r := RT.Call(CE.ExtensionId(c), CE.EncodeInput(c), ledger);
    calls := ledger.calls;
    if r.Ok? && r.value.Converging? {
      back := Some(CE.FromStatusCode(r.value.code));
    } else {
      back := None;
    }
  }
}
