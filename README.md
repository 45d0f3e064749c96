# Asset chain extension: a verified model

This project models the call-and-status protocol between an ink! smart contract and a
Substrate runtime chain extension. The extension forwards calls to `pallet-assets`. There are
two sides:

- **The contract side** (`contract/`). The storage struct `AssetExtension` holds one asset id.
  Each of its five messages builds an argument tuple from that asset id, the environment's
  caller and the user's arguments, and issues chain-extension call 120 to 124. The status code
  that comes back is read by `from_status_code`. It gives success, the generic `DispatchError`,
  a specific `PalletError(e)` looked up in the contract's copy of the pallet's 20-entry error
  enum, or `Other(code)`.
- **The runtime side** (`runtime/src/asset_extension.rs`). `call` switches on the function id,
  decodes that id's argument tuple from the input buffer, and calls one `pallet-assets`
  primitive signed by the caller named in the tuple. `get_retval` collapses the result into a
  status code: 0 for success, `1 + error[0]` for an assets-pallet error (module index 9), and
  200 for anything else.

Files:

- `wrappers.dfy`: `Option` and a failure-compatible `Result`. `:-` plays the part of Rust's `?`.
- `scale.dfy`: the fixed-width SCALE layout. `u32` is 4 bytes little-endian, an account id is
  its 32 bytes and `u128` is 16 bytes little-endian. A tuple is its fields concatenated in
  order. Decoders and encoders come with round-trip lemmas in both directions.
- `pallet_error.dfy`: the error enum, its `repr(u8)` discriminants and `try_from`.
- `contract_extension.dfy`: `ExtensionError`, `from_status_code`, `From<scale::Error>`, and the
  catalog of the five calls with their ids and argument order.
- `runtime_extension.dfy`: the runtime constants, `get_retval`, and `call`. `call` is an
  imperative method over the input buffer and a `Ledger` object. The ledger records every
  primitive call made to it, and answers through an oracle that may depend on the earlier
  calls. `PlanOf` is the specification function that `call` is proved against.
- `contract.dfy`: the storage class with its constructor, `asset_id` and the five messages. It
  also has the unit tests' input/output pairs as client methods.
- `protocol.dfy`: how the two sides fit together. The catalog ids are the runtime constants.
  For ids 120 to 123, what the contract encodes the runtime decodes into the intended pallet
  call. Id 124 does not round-trip (see Findings). A status code made by the runtime reads back
  on the contract side as derived here. `Pipeline` runs one whole call from the contract's
  encoding through the dispatcher and back.

Behaviour that the model keeps as the code has it:

- `1 + error[0]` is a `u8` addition. The model wraps it, as a release build does. An
  assets-pallet error whose first byte is 255 therefore becomes status 0, which reads as
  success. A first byte of 199 becomes 200, which reads as the generic error.
- `from_status_code` cuts the code to its low byte (`as u8`) before the table lookup, so status
  262 reads as `InUse`, just as 6 does. A code above 255 whose low byte is 1 to 20 therefore
  reads as a pallet error, not as `Other(code)`.
- `read_as` belongs to pallet-contracts, outside this repository, so whether it rejects bytes
  after the tuple is left open. The model reads the tuple from the front and ignores the rest.
- The origin of every pallet call is `Signed` by the account at bytes 4 to 36 of the input.
  That account is taken from the call's own arguments and checked against nothing.
  `RuntimeExtension.PlanOf` states this.

## Model

| member | source | states |
|---|---|---|
| `Scale.DecodeLE` | contract/lib.rs:176-179 | a little-endian byte string of length n stands for a number below 256^n |
| `Scale.DecodeEncodeLE` | contract/lib.rs:176-179 | decoding the little-endian encoding of x in n bytes gives x back |
| `Scale.EncodeDecodeLE` | contract/lib.rs:176-179 | encoding the number that n bytes stand for, in n bytes, gives those bytes back |
| `Scale.EncodeU32` | contract/asset_extension.rs:2 | an asset id is 4 bytes that decode back to it |
| `Scale.EncodeU128` | contract/asset_extension.rs:1 | an amount is 16 bytes that decode back to it |
| `Scale.EncodeTransferArgs` | contract/lib.rs:174-179 | the four-field tuple is 84 bytes on the wire |
| `Scale.EncodeApprovalArgs` | contract/asset_extension.rs:67-71 | the three-field tuple is 68 bytes on the wire |
| `Scale.EncodeDelegatedArgs` | contract/asset_extension.rs:74-80 | the five-field tuple is 116 bytes on the wire |
| `Scale.DecodeU32` | runtime/src/asset_extension.rs:72 | reading an asset id succeeds exactly on 4 or more bytes, and the value re-encodes to the bytes read |
| `Scale.DecodeU128` | runtime/src/asset_extension.rs:73 | reading an amount succeeds exactly on 16 or more bytes, and the value re-encodes to the bytes read |
| `Scale.DecodeAccount` | runtime/src/asset_extension.rs:74 | reading an account succeeds exactly on 32 or more bytes, and the account is those bytes |
| `Scale.DecodeTransferArgs` | runtime/src/asset_extension.rs:84-89 | the four-field tuple decodes exactly when 84 bytes are there, and re-encodes to them |
| `Scale.DecodeApprovalArgs` | runtime/src/asset_extension.rs:146-147 | the three-field tuple decodes exactly when 68 bytes are there, and re-encodes to them |
| `Scale.DecodeDelegatedArgs` | contract/asset_extension.rs:73-80 | the five-field tuple decodes exactly when 116 bytes are there, and re-encodes to them |
| `Scale.DecodeEncodeTransferArgs` | contract/lib.rs:174-182 | decoding an encoded four-field tuple gives it back and leaves what follows unread |
| `Scale.DecodeEncodeApprovalArgs` | runtime/src/asset_extension.rs:146-147 | decoding an encoded three-field tuple gives it back and leaves what follows unread |
| `Scale.DecodeEncodeDelegatedArgs` | contract/asset_extension.rs:73-80 | decoding an encoded five-field tuple gives it back and leaves what follows unread |
| `PalletError.Discriminant` | contract/pallet_error.rs:3-24 | every variant's `u8` discriminant is between 1 and 20 |
| `PalletError.TryFrom` | contract/pallet_error.rs:30-53 | `try_from` succeeds exactly on 1 to 20, and the variant it gives has that code as its discriminant |
| `PalletError.TryFromDiscriminant` | contract/pallet_error.rs:31-51 | `try_from(e as u8)` is `Ok(e)` for every variant |
| `PalletError.DiscriminantInjective` | contract/pallet_error.rs:5-24 | two variants share a discriminant exactly when they are the same variant |
| `PalletError.DiscriminantsContiguous` | contract/pallet_error.rs:5-24 | the 20 variants in order have discriminants 1, 2, ..., 20, and every variant is among them |
| `ContractExtension.FromStatusCode` | contract/asset_extension.rs:20-29 | only 0 is success; 200 is `DispatchError`; another code whose low byte is 1 to 20 is the pallet error with that discriminant; any other code is `Other` carrying the whole code; never `EncodingError` |
| `ContractExtension.FromScaleError` | contract/asset_extension.rs:32-36 | every codec error becomes `EncodingError` |
| `ContractExtension.ExtensionId` | contract/asset_extension.rs:38-81 | every catalog call has an id from 120 to 124 |
| `ContractExtension.ExtensionIdsDistinct` | contract/asset_extension.rs:42-74 | two calls have the same id exactly when they are the same operation |
| `ContractExtension.EncodeInput` | contract/asset_extension.rs:43-80 | every call's input starts with the 4-byte asset id and then the caller's 32 bytes, and has the fixed length of its tuple |
| `ContractExtension.Invoke` | contract/asset_extension.rs:38-40 | a call succeeds exactly when the extension answers 0 for its id and input, and never fails with `EncodingError` |
| `ContractExtension.StatusCodeNeverEncodingError` | contract/asset_extension.rs:19-36 | no status code reads as the codec's error, and only 0 reads as success |
| `ContractExtension.StatusCodeTruncation` | contract/asset_extension.rs:24-25 | every code whose low byte is 6 (6, 262, ...) reads as `InUse` |
| `RuntimeExtension.GetRetval` | runtime/src/asset_extension.rs:44-60 | always `Converging`; `Ok` is 0; an index-9 module error is `(1 + error[0]) mod 256`; every other error is 200; the code is 0 exactly for `Ok` or an index-9 error with first byte 255 |
| `RuntimeExtension.Ledger.constructor` | runtime/src/asset_extension.rs:92-97 | a new ledger has recorded no call and answers through the given oracle |
| `RuntimeExtension.Ledger.Invoke` | runtime/src/asset_extension.rs:92-97 | a pallet call is appended to the record, and its result is the oracle's answer given the earlier calls |
| `RuntimeExtension.ReadTransferArgs` | runtime/src/asset_extension.rs:84-89 | `read_as` succeeds exactly when 84 bytes are there, returns the tuple those bytes encode, and otherwise fails with the decoding error |
| `RuntimeExtension.ReadApprovalArgs` | runtime/src/asset_extension.rs:146-147 | `read_as` succeeds exactly when 68 bytes are there, returns the tuple those bytes encode, and otherwise fails with the decoding error |
| `RuntimeExtension.PlanOf` | runtime/src/asset_extension.rs:79-187 | an unknown id is refused; a known id fails to decode exactly when its tuple does not fit; otherwise one call to the id's own primitive, signed by the account at bytes 4-36, with the asset id from bytes 0-4, the other account from bytes 36-68 and the amount from bytes 68-84; for id 124 the owner is the signer's account |
| `RuntimeExtension.Call` | runtime/src/asset_extension.rs:68-188 | an unknown id returns `Other("Unimplemented func_id")` and a decode failure returns its error, both with no ledger call; otherwise exactly the planned call is made and its result goes through `GetRetval` |
| `RuntimeExtension.UnknownFuncIdScenario` | runtime/src/asset_extension.rs:183-186 | id 999 is a hard error and the ledger records nothing |
| `RuntimeExtension.TruncatedInputScenario` | runtime/src/asset_extension.rs:125-131 | a short input for id 122 is a decoding error and the ledger records nothing |
| `Contract.AssetExtension.constructor` | contract/lib.rs:46-49 | the new contract stores the given asset id |
| `Contract.AssetExtension.AssetId` | contract/lib.rs:52-55 | `asset_id()` returns the stored asset id |
| `Contract.AssetExtension.TransferKeepAlive` | contract/lib.rs:60-73 | issues id 120 with input asset id, environment caller, target, amount, and returns the status code's reading |
| `Contract.AssetExtension.TransferAllowDeath` | contract/lib.rs:76-89 | issues id 121 with input asset id, environment caller, target, amount, and returns the status code's reading |
| `Contract.AssetExtension.ApproveTransfer` | contract/lib.rs:92-105 | issues id 122 with input asset id, environment caller, delegate, amount, and returns the status code's reading |
| `Contract.AssetExtension.CancelApproval` | contract/lib.rs:108-114 | issues id 123 with input asset id, environment caller, delegate, and returns the status code's reading |
| `Contract.AssetExtension.TransferApproved` | contract/lib.rs:118-132 | issues id 124 with input asset id, environment caller, owner, destination, amount, and returns the status code's reading |
| `Contract.NewReportsAssetId` | contract/lib.rs:47-55 | after `new(a)`, `asset_id()` is `a` |
| `Contract.TransferAssetScenario` | contract/lib.rs:167-192 | the input of id 120 ends with the encoded asset id, caller, target and amount, so the mock's 0 gives `Ok` |
| `Contract.TransferErrorScenario` | contract/lib.rs:194-211 | status 6 from id 120 gives `PalletError(InUse)` |
| `Contract.AllMessages` | contract/lib.rs:220-235 | with an extension that answers one code, all five messages return that code's reading |
| `Contract.AllExtensionCallsPass` | contract/lib.rs:213-236 | status 0 makes all five messages return `Ok` |
| `Contract.AllExtensionCallsFail` | contract/lib.rs:238-264 | status 70 makes all five messages return `Other(70)` |
| `Protocol.CatalogMatchesRuntime` | runtime/src/asset_extension.rs:11-15 | each catalog id equals the runtime constant of the same operation and is one the runtime knows |
| `Protocol.Intended` | contract/asset_extension.rs:42-80 | the pallet call a catalog call stands for is signed by the call's caller and names its asset |
| `Protocol.DispatchRoundTrip` | runtime/src/asset_extension.rs:83-157 | for ids 120-123, the runtime decodes the contract's input into exactly the intended pallet call |
| `Protocol.MisreadAmount` | runtime/src/asset_extension.rs:161-166 | the amount read for id 124 is what the first 16 bytes of the contract's target account spell |
| `Protocol.TransferApprovedAsWritten` | runtime/src/asset_extension.rs:160-177 | for id 124 the runtime calls `transfer_approved` signed by the caller, with owner := caller, destination := the contract's owner argument, amount := the misread bytes |
| `Protocol.TransferApprovedMisrouted` | runtime/src/asset_extension.rs:160-177 | id 124 reaches the intended call only when caller, owner and target are one account whose bytes spell the amount |
| `Protocol.TransferApprovedCounterexample` | runtime/src/asset_extension.rs:160-177 | caller A, owner B, target C, amount 100 is dispatched wrongly |
| `Protocol.ReadDelegatedArgs` | contract/asset_extension.rs:73-80 | decoding the five-field input fails exactly when it is shorter than 116 bytes, with the decoding error |
| `Protocol.IntendedPlan` | contract/asset_extension.rs:73-80 | the corrected dispatch agrees with the runtime's except for id 124, which decodes five fields, signed by the caller |
| `Protocol.IntendedRoundTrip` | contract/asset_extension.rs:42-80 | with the corrected dispatch, all five calls arrive as their intended pallet calls |
| `Protocol.StatusRoundTrip` | runtime/src/asset_extension.rs:44-60 | read back on the contract side: `Ok` is success; an assets error with byte 0-19 is the variant with discriminant one higher; bytes 20-254 are `Other(byte+1)` except 199, which is `DispatchError`; 255 is success; any other error is `DispatchError` |
| `Protocol.PalletErrorArrivesByIndex` | runtime/src/asset_extension.rs:49-54 | the assets error at index i < 20 arrives as the enum's i-th variant |
| `Protocol.Pipeline` | runtime/src/asset_extension.rs:68-188 | one whole call makes exactly one ledger call, the intended one except for id 124, and the contract reads back the status of that call's result |

## Left out

- The ink! `Environment` configuration and the `#[ink::contract]` / `#[ink::chain_extension]`
  macro expansion are type plumbing. The generated glue is modelled only by what it does:
  `ContractExtension.EncodeInput` builds the input and `ContractExtension.Invoke` sends it with
  the id, then reads the status code.
- The pallet-contracts environment (`buf_in_buf_out`, memory access, gas) is foreign code.
  The input buffer is a byte sequence. `read_as` is a fixed-width decode from the front.
  Its failure is `DispatchError.DecodingFailed`, which stands for the contracts pallet's own
  module error, whose module index depends on the runtime's `construct_runtime!`.
- `enabled()` always returns true, and the `error!` logging is I/O. Neither is modelled.
- The business rules of `pallet-assets` (balances, minimum balance, approvals, freezing) are
  foreign code. The five primitives are an oracle over the call history, recorded by `Ledger`.
- `RawOrigin` variants other than `Signed` are not modelled because the code never builds
  them. So is the `MultiAddress::Id` wrapping of accounts, which only changes the type.
- `DispatchError`'s inner token, arithmetic and transactional kinds are not modelled, and
  neither is `ModuleError.message`. `get_retval` does not look at them. The runtime's
  `AssetId`, `Balance` and `AccountId` are taken to be `u32`, `u128` and 32 bytes, the same
  widths as the contract's. The runtime configuration that fixes them is not part of this model.
- SCALE beyond fixed-width tuples (compact encodings, depth limits) is not used here.
- The runtime's `func_id` is taken to be the same number as the contract's extension id.
  How pallet-contracts splits a 32-bit id into parts is not part of this model.
- `RuntimeExtension.GetRetval`: models the `u8` addition as wrapping, as in a release build;
  the panic that a debug build raises on overflow is not modelled.
- Test scaffolding (`MockedExtension`, `register_chain_extension`, `rand::random`, the assertion
  macros) is not modelled. The mocked extension is a function from id and input to a status
  code, and only the asserted pairs are kept.
- `PALLET_ERROR_OFFSET` is unused by the code (it writes `1`), so it is not modelled.

## Findings

| source | as written | input that shows it | evidently intended | confidence | as-written member | corrected member |
|---|---|---|---|---|---|---|
| runtime/src/asset_extension.rs:160-177 | id 124 decodes `(asset_id, caller, delegate, amount)` and calls `transfer_approved(Signed(caller), asset_id, caller, delegate, amount)`. The contract sends `(asset_id, caller, owner, destination, amount)` (contract/asset_extension.rs:73-80). | caller A, owner B, destination C, amount 100. The pallet is asked to move from A to B an amount read from C's first 16 bytes. | decode the contract's five fields and call `transfer_approved(Signed(caller), asset_id, owner, destination, amount)` | high; not executed | `Protocol.TransferApprovedCounterexample` | `Protocol.IntendedRoundTrip` |

`RuntimeExtension.Call`, `RuntimeExtension.PlanOf` and `Protocol.Pipeline` model the runtime
as written, so they reproduce this behaviour. The corrected dispatch, `Protocol.IntendedPlan`,
is the one the protocol's round-trip law is proved against: all five calls arrive as intended.
