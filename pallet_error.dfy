/** The error enumeration of the assets pallet as the contract keeps a copy
    of it: twenty variants with `u8` discriminants 1 to 20, and the table
    that turns a byte back into a variant. */
module PalletError {
  import opened Wrappers
  import opened Scale

  datatype Error =
    | BalanceLow
    | NoAccount
    | NoPermission
    | Unknown
    | Frozen
    | InUse
    | BadWitness
    | MinBalanceZero
    | UnavailableConsumer
    | BadMetadata
    | Unapproved
    | WouldDie
    | AlreadyExists
    | NoDeposit
    | WouldBurn
    | LiveAsset
    | AssetNotLive
    | IncorrectStatus
    | NotFrozen
    | CallbackFailed

  /** `e as u8`: the `repr(u8)` discriminant of a variant. */
  function Discriminant(e: Error): (d: u8)
    ensures 1 <= d <= 20
  {
    match e
    case BalanceLow => 1
    case NoAccount => 2
    case NoPermission => 3
    case Unknown => 4
    case Frozen => 5
    case InUse => 6
    case BadWitness => 7
    case MinBalanceZero => 8
    case UnavailableConsumer => 9
    case BadMetadata => 10
    case Unapproved => 11
    case WouldDie => 12
    case AlreadyExists => 13
    case NoDeposit => 14
    case WouldBurn => 15
    case LiveAsset => 16
    case AssetNotLive => 17
    case IncorrectStatus => 18
    case NotFrozen => 19
    case CallbackFailed => 20
  }

  /** `Error::try_from(code)`: the table is the inverse of `Discriminant`,
      and it is defined on 1 to 20 and nowhere else. */
  function TryFrom(code: u8): (r: Result<Error, ()>)
    ensures r.Ok? <==> 1 <= code <= 20
    ensures r.Ok? ==> Discriminant(r.value) == code
  {
    match code
    case 1 => Ok(BalanceLow)
    case 2 => Ok(NoAccount)
    case 3 => Ok(NoPermission)
    case 4 => Ok(Unknown)
    case 5 => Ok(Frozen)
    case 6 => Ok(InUse)
    case 7 => Ok(BadWitness)
    case 8 => Ok(MinBalanceZero)
    case 9 => Ok(UnavailableConsumer)
    case 10 => Ok(BadMetadata)
    case 11 => Ok(Unapproved)
    case 12 => Ok(WouldDie)
    case 13 => Ok(AlreadyExists)
    case 14 => Ok(NoDeposit)
    case 15 => Ok(WouldBurn)
    case 16 => Ok(LiveAsset)
    case 17 => Ok(AssetNotLive)
    case 18 => Ok(IncorrectStatus)
    case 19 => Ok(NotFrozen)
    case 20 => Ok(CallbackFailed)
    case _ => Err(())
  }

  /** Every variant, in declaration order. */
  function AllErrors(): (all: seq<Error>)
  {
    [BalanceLow, NoAccount, NoPermission, Unknown, Frozen, InUse, BadWitness, MinBalanceZero, UnavailableConsumer, BadMetadata, Unapproved, WouldDie, AlreadyExists, NoDeposit, WouldBurn, LiveAsset, AssetNotLive, IncorrectStatus, NotFrozen, CallbackFailed]
  }

  lemma TryFromDiscriminant(e: Error)
    ensures TryFrom(Discriminant(e)) == Ok(e)
  {
  }

  lemma DiscriminantInjective(e1: Error, e2: Error)
    ensures Discriminant(e1) == Discriminant(e2) <==> e1 == e2
  {
    TryFromDiscriminant(e1);
    TryFromDiscriminant(e2);
  }

  /** The discriminants are exactly 1, 2, ..., 20, in order, with no gaps,
      and the list covers every variant once. */
  lemma DiscriminantsContiguous()
    ensures |AllErrors()| == 20
    ensures forall i :: 0 <= i < 20 ==> Discriminant(AllErrors()[i]) == i + 1
    ensures forall e :: e in AllErrors()
  {
    forall e: Error ensures e in AllErrors() {
      assert AllErrors()[Discriminant(e) - 1] == e;
    }
  }
}
