/** The contract's storage and messages: it remembers one asset id, and
    each message forwards to the chain extension with that asset id and the
    environment's caller in front of the user's arguments. */
module Contract {
  import opened Wrappers
  import opened Scale
  import PalletError
  import CE = ContractExtension

  /** What a message sees of its environment: who called the contract, and
      the chain extension, which takes an id and an input and answers with a
      status code. */
  datatype Env = Env(caller: AccountId, extension: (u32, seq<u8>) -> u32)

  class AssetExtension {
    /** The asset this contract interacts with; set once, only read after. */
    var assetId: u32

    constructor (assetId: u32)
      ensures this.assetId == assetId
    {
      this.assetId := assetId;
    }

    method AssetId() returns (id: u32)
      ensures id == assetId
    {
      id := assetId;
    }

    /** Issues extension 120 with `(asset_id, caller, target, amount)`. */
    method TransferKeepAlive(env: Env, target: AccountId, amount: u128) returns (r: Result<(), CE.ExtensionError>)
      ensures r == CE.FromStatusCode(env.extension(120, EncodeU32(assetId) + env.caller + target + EncodeU128(amount)))
    {
      var sender := env.caller;
      var assetId := this.assetId;
      r := CE.Invoke(env.extension, CE.TransferKeepAlive(assetId, sender, target, amount));
    }

    /** Issues extension 121 with `(asset_id, caller, target, amount)`. */
    method TransferAllowDeath(env: Env, target: AccountId, amount: u128) returns (r: Result<(), CE.ExtensionError>)
      ensures r == CE.FromStatusCode(env.extension(121, EncodeU32(assetId) + env.caller + target + EncodeU128(amount)))
    {
      var sender := env.caller;
      var assetId := this.assetId;
      r := CE.Invoke(env.extension, CE.TransferAllowDeath(assetId, sender, target, amount));
    }

    /** Issues extension 122 with `(asset_id, caller, delegate, amount)`. */
    method ApproveTransfer(env: Env, target: AccountId, amount: u128) returns (r: Result<(), CE.ExtensionError>)
      ensures r == CE.FromStatusCode(env.extension(122, EncodeU32(assetId) + env.caller + target + EncodeU128(amount)))
    {
      var sender := env.caller;
      var assetId := this.assetId;
      r := CE.Invoke(env.extension, CE.ApproveTransfer(assetId, sender, target, amount));
    }

    /** Issues extension 123 with `(asset_id, caller, delegate)`. */
    method CancelApproval(env: Env, target: AccountId) returns (r: Result<(), CE.ExtensionError>)
      ensures r == CE.FromStatusCode(env.extension(123, EncodeU32(assetId) + env.caller + target))
    {
      var sender := env.caller;
      var assetId := this.assetId;
      r := CE.Invoke(env.extension, CE.CancelApproval(assetId, sender, target));
    }

    /** Issues extension 124 with `(asset_id, caller, owner, destination, amount)`. */
    method TransferApproved(env: Env, owner: AccountId, destination: AccountId, amount: u128)
      returns (r: Result<(), CE.ExtensionError>)
      ensures r == CE.FromStatusCode(
                     env.extension(124, EncodeU32(assetId) + env.caller + owner + destination + EncodeU128(amount)))
    {
      var caller := env.caller;
      var assetId := this.assetId;
      r := CE.Invoke(env.extension, CE.TransferApproved(assetId, caller, owner, destination, amount));
    }
  }

  const ENV_CALLER_ACCOUNT: AccountId := seq(32, i => 1)
  const ASSET_ID: u32 := 1

  function Account(b: u8): AccountId
  {
    seq(32, i => b)
  }

  /** A freshly constructed contract reports the asset id it was given. */
  method NewReportsAssetId(a: u32) returns (id: u32)
    ensures id == a
  {
    var contract := new AssetExtension(a);
    id := contract.AssetId();
  }

  /** The extension answers 0 only when the input ends with the encoded
      asset id, caller, target and amount; so `Ok` shows the contract sent
      exactly those bytes in that order. */
  method TransferAssetScenario() returns (r: Result<(), CE.ExtensionError>)
    ensures r == Ok(())
  {
    var contract := new AssetExtension(ASSET_ID);
    var target := Account(20);
    var amount: u128 := 100;
    var expected := EncodeU32(ASSET_ID) + ENV_CALLER_ACCOUNT + target + EncodeU128(amount);
    var extension := (funcId: u32, input: seq<u8>) =>
      if funcId == 120 && |expected| <= |input| && input[|input| - |expected|..] == expected then 0 else 1;
    r := contract.TransferKeepAlive(Env(ENV_CALLER_ACCOUNT, extension), target, amount);
  }

  /** Status 6 from extension 120 is the pallet's `InUse`. */
  method TransferErrorScenario() returns (r: Result<(), CE.ExtensionError>)
    ensures r == Err(CE.PalletError(PalletError.InUse))
  {
    var contract := new AssetExtension(ASSET_ID);
    var extension := (funcId: u32, input: seq<u8>) => 6;
    r := contract.TransferKeepAlive(Env(ENV_CALLER_ACCOUNT, extension), Account(10), 100);
  }

  /** Runs all five messages against an extension that answers `code` to
      every call, as the tests' mocked extension does. */
  method AllMessages(contract: AssetExtension, code: u32) returns (results: seq<Result<(), CE.ExtensionError>>)
    ensures |results| == 5
    ensures forall k :: 0 <= k < 5 ==> results[k] == CE.FromStatusCode(code)
  {
    var env := Env(ENV_CALLER_ACCOUNT, (funcId: u32, input: seq<u8>) => code);
    var accA, accB := Account(10), Account(20);
    var amount: u128 := 100;
    var r0 := contract.CancelApproval(env, accA);
    var r1 := contract.ApproveTransfer(env, accA, amount);
    var r2 := contract.TransferKeepAlive(env, accA, amount);
    var r3 := contract.TransferAllowDeath(env, accA, amount);
    var r4 := contract.TransferApproved(env, accA, accB, amount);
    results := [r0, r1, r2, r3, r4];
  }

  /** Status 0 from every extension makes every message succeed. */
  method AllExtensionCallsPass() returns (results: seq<Result<(), CE.ExtensionError>>)
    ensures |results| == 5 && forall k :: 0 <= k < 5 ==> results[k] == Ok(())
  {
    var contract := new AssetExtension(ASSET_ID);
    results := AllMessages(contract, 0);
  }

  /** Status 70 from every extension makes every message fail with `Other(70)`. */
  method AllExtensionCallsFail() returns (results: seq<Result<(), CE.ExtensionError>>)
    ensures |results| == 5 && forall k :: 0 <= k < 5 ==> results[k] == Err(CE.Other(70))
  {
    var contract := new AssetExtension(ASSET_ID);
    results := AllMessages(contract, 70);
  }
}
