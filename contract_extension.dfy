/** The contract's side of the chain extension: the error type a message
    returns, the decoding of the status code the runtime hands back, and
    the catalog of the five extension calls with their argument order. */
module ContractExtension {
  import opened Wrappers
  import opened Scale
  import PalletError

  datatype ExtensionError =
    | DispatchError
      /** a dispatch error that the assets pallet raised, told apart by variant */
    | PalletError(reason: PalletError.Error)
      /** a SCALE value could not be decoded */
    | EncodingError
      /** a status code with no meaning on this side, kept as it came */
    | Other(code: u32)

  /** `from_status_code`: 0 is success, 200 the generic dispatch error; any
      other code is cut to its low byte (`as u8`) and looked up in the
      pallet's table, and a code the table refuses is passed on whole. */
  function FromStatusCode(code: u32): (r: Result<(), ExtensionError>)
    ensures r.Ok? <==> code == 0
    ensures code == 200 ==> r == Err(DispatchError)
    ensures code != 0 && code != 200 && 1 <= code % 256 <= 20 ==>
              r.Err? && r.error.PalletError? && PalletError.Discriminant(r.error.reason) == code % 256
    ensures code != 0 && code != 200 && !(1 <= code % 256 <= 20) ==> r == Err(Other(code))
    ensures r != Err(EncodingError)
  {
    match code
    case 0 => Ok(())
    case 200 => Err(DispatchError)
    case a =>
      match PalletError.TryFrom(code % 256)
      case Ok(e) => Err(PalletError(e))
      case Err(_) => Err(Other(a))
  }

  /** `From<scale::Error>`: every codec failure becomes `EncodingError`. */
  function FromScaleError(e: Scale.Error): (r: ExtensionError)
    ensures r.EncodingError?
  {
    EncodingError
  }

  /** The five calls the contract can issue, each with its arguments in the
      order they go on the wire. */
  datatype ExtensionCall =
    | TransferKeepAlive(assetId: u32, caller: AccountId, target: AccountId, amount: u128)
    | TransferAllowDeath(assetId: u32, caller: AccountId, target: AccountId, amount: u128)
    | ApproveTransfer(assetId: u32, caller: AccountId, delegate: AccountId, amount: u128)
    | CancelApproval(assetId: u32, caller: AccountId, delegate: AccountId)
    | TransferApproved(assetId: u32, caller: AccountId, owner: AccountId, target: AccountId, amount: u128)

  /** The `#[ink(extension = …)]` id of each call. */
  function ExtensionId(c: ExtensionCall): (id: u32)
    ensures 120 <= id <= 124
  {
    match c
    case TransferKeepAlive(_, _, _, _) => 120
    case TransferAllowDeath(_, _, _, _) => 121
    case ApproveTransfer(_, _, _, _) => 122
    case CancelApproval(_, _, _) => 123
    case TransferApproved(_, _, _, _, _) => 124
  }

  /** The input buffer of a call: its argument tuple, SCALE-encoded. It
      starts with the asset id (4 bytes little-endian) and the caller's 32
      bytes, and has the fixed length of its tuple shape. */
  function EncodeInput(c: ExtensionCall): (s: seq<u8>)
    ensures |s| == match c
      case CancelApproval(_, _, _) => APPROVAL_ARGS_LEN
      case TransferApproved(_, _, _, _, _) => DELEGATED_ARGS_LEN
      case _ => TRANSFER_ARGS_LEN
    ensures s[..4] == EncodeU32(c.assetId)
    ensures s[4..36] == c.caller
  {
    match c
    case TransferKeepAlive(a, from, to, m) => EncodeTransferArgs((a, from, to, m))
    case TransferAllowDeath(a, from, to, m) => EncodeTransferArgs((a, from, to, m))
    case ApproveTransfer(a, from, to, m) => EncodeTransferArgs((a, from, to, m))
    case CancelApproval(a, from, to) => EncodeApprovalArgs((a, from, to))
    case TransferApproved(a, from, owner, to, m) => EncodeDelegatedArgs((a, from, owner, to, m))
  }

  /** What the generated chain-extension glue does with a call: hand the id
      and the encoded input to the host, and decode the status it returns. */
  function Invoke(extension: (u32, seq<u8>) -> u32, c: ExtensionCall): (r: Result<(), ExtensionError>)
    ensures r.Ok? <==> extension(ExtensionId(c), EncodeInput(c)) == 0
    ensures r != Err(EncodingError)
  {
    FromStatusCode(extension(ExtensionId(c), EncodeInput(c)))
  }

  /** Two calls share an id exactly when they are the same kind of call. */
  lemma ExtensionIdsDistinct(c1: ExtensionCall, c2: ExtensionCall)
    ensures ExtensionId(c1) == ExtensionId(c2) <==>
              && c1.TransferKeepAlive? == c2.TransferKeepAlive?
              && c1.TransferAllowDeath? == c2.TransferAllowDeath?
              && c1.ApproveTransfer? == c2.ApproveTransfer?
              && c1.CancelApproval? == c2.CancelApproval?
              && c1.TransferApproved? == c2.TransferApproved?
  {
  }

  /** Only 0 reconstructs to success, and `EncodingError` is never the
      reading of any status code: it comes from the codec alone. */
  lemma StatusCodeNeverEncodingError(code: u32, e: Scale.Error)
    ensures FromStatusCode(code) != Err(FromScaleError(e))
    ensures FromStatusCode(code) == Ok(()) <==> code == 0
  {
  }

  /** The low-byte cut makes codes that differ by a multiple of 256 read as
      the same pallet error: 262 is `InUse`, just as 6 is. */
  lemma StatusCodeTruncation(code: u32)
    requires code % 256 == 6
    ensures FromStatusCode(code) == Err(PalletError(PalletError.InUse))
  {
  }
}
