/**
 * The RevenueCat service wrapper: the data it receives from the purchase SDK,
 * the values the SDK may throw, the rules the wrapper applies to them, and the
 * singleton's `initialized` flag. Every SDK call is an input: the model takes
 * its result (or what it threw) as a parameter.
 */
module RevenueCat {
  import opened Wrappers
  import Subscriptions

  /** An active entitlement, as the SDK describes it. */
  datatype EntitlementInfo = EntitlementInfo(identifier: string, productIdentifier: string)

  /** The SDK's customer snapshot; `activeEntitlements` is `entitlements.active`, keyed by identifier. */
  datatype CustomerInfo = CustomerInfo(originalAppUserId: string, activeEntitlements: map<string, EntitlementInfo>)

  datatype Package = Package(identifier: string, productIdentifier: string)

  datatype Offering = Offering(identifier: string, availablePackages: seq<Package>)

  /** The SDK's offerings; `current` may be missing. */
  datatype Offerings = Offerings(current: Option<Offering>)

  /** What the SDK's `purchasePackage` resolves to. */
  datatype MakePurchaseResult = MakePurchaseResult(productIdentifier: string, customerInfo: CustomerInfo)

  /** What the service's `purchasePackage` resolves to. */
  datatype PurchaseResult = PurchaseResult(customerInfo: CustomerInfo, cancelled: bool)

  /**
   * A thrown JavaScript value: an `Error` instance (with its message), another
   * object, or a primitive (`null`, `undefined`, a string, ...). For objects,
   * `userCancelled` is `None` when the object has no such property and holds its
   * value otherwise.
   */
  datatype Thrown =
    | ErrorInstance(message: string, userCancelled: Option<bool>)
    | OtherObject(userCancelled: Option<bool>)
    | NotAnObject

  /** `error && typeof error === "object"`: a non-null object. */
  predicate IsObject(e: Thrown)
  {
    !e.NotAnObject?
  }

  /** `"userCancelled" in error`, for an object. */
  predicate HasUserCancelledProperty(e: Thrown)
    requires IsObject(e)
  {
    e.userCancelled.Some?
  }

  /** `error && typeof error === "object" && "userCancelled" in error`. */
  predicate IsCancellation(e: Thrown)
    ensures IsCancellation(e) <==> match e
                                   case ErrorInstance(_, flag) => flag.Some?
                                   case OtherObject(flag) => flag.Some?
                                   case NotAnObject => false
    ensures IsObject(e) && e.userCancelled == Some(false) ==> IsCancellation(e)
  {
    IsObject(e) && HasUserCancelledProperty(e)
  }

  const MISSING_API_KEY_MESSAGE: string := "RevenueCat API key not found for platform"

  /** A JavaScript property read on a dictionary: `undefined` (here `None`) for a missing key. */
  function Lookup(m: map<string, EntitlementInfo>, key: string): Option<EntitlementInfo>
  {
    if key in m then Some(m[key]) else None
  }

  /** `hasProAccess`: `entitlements.active["BetweenUs Pro"] !== undefined`. */
  predicate HasProAccess(info: CustomerInfo)
    ensures HasProAccess(info) <==> Subscriptions.ENTITLEMENT_PRO in info.activeEntitlements.Keys
  {
    Lookup(info.activeEntitlements, Subscriptions.ENTITLEMENT_PRO) != None
  }

  /** The packages `getOfferings` returns for the SDK's offerings. */
  function SelectPackages(offerings: Offerings): (packages: seq<Package>)
    ensures packages != [] <==> offerings.current.Some? && offerings.current.value.availablePackages != []
    ensures packages != [] ==> packages == offerings.current.value.availablePackages
  {
    if offerings.current.None? || |offerings.current.value.availablePackages| == 0 then []
    else offerings.current.value.availablePackages
  }

  /** `getOfferings`: the selection on success, the SDK's error rethrown otherwise. */
  function GetOfferings(sdk: Result<Offerings, Thrown>): (r: Result<seq<Package>, Thrown>)
    ensures r.Success? <==> sdk.Success?
    ensures sdk.Success? ==> r.value == SelectPackages(sdk.value)
    ensures sdk.Failure? ==> r.error == sdk.error
  {
    match sdk
    case Success(offerings) => Success(SelectPackages(offerings))
    case Failure(e) => Failure(e)
  }

  /**
   * `purchasePackage`: `purchase` is what the SDK's purchase did, `refetch` what
   * the follow-up `getCustomerInfo` does; the latter is only consulted when the
   * purchase threw a cancellation.
   */
  function ClassifyPurchase(purchase: Result<MakePurchaseResult, Thrown>, refetch: Result<CustomerInfo, Thrown>)
    : (r: Result<PurchaseResult, Thrown>)
    ensures purchase.Success? ==> r == Success(PurchaseResult(purchase.value.customerInfo, false))
    ensures purchase.Failure? && IsCancellation(purchase.error) ==>
              match refetch
              case Success(info) => r == Success(PurchaseResult(info, true))
              case Failure(e) => r == Failure(e)
    ensures purchase.Failure? && !IsCancellation(purchase.error) ==> r == Failure(purchase.error)
    ensures r.Success? && !r.value.cancelled <==> purchase.Success?
  {
    match purchase
    case Success(made) => Success(PurchaseResult(made.customerInfo, false))
    case Failure(e) =>
      if IsCancellation(e) then
        match refetch
        case Success(info) => Success(PurchaseResult(info, true))
        case Failure(e2) => Failure(e2)
      else Failure(e)
  }

  /** An API key is usable unless it is missing or empty (`!apiKey`). */
  predicate ApiKeyPresent(apiKey: Option<string>)
    ensures !ApiKeyPresent(apiKey) <==> apiKey == None || apiKey == Some("")
  {
    apiKey.Some? && apiKey.value != ""
  }

  /** The SDK wrapper singleton. */
  class RevenueCatService {
    var initialized: bool

    constructor ()
      ensures !initialized
    {
      initialized := false;
    }

    /**
     * `initialize`: `apiKey` is what the platform selection yields, `configure`
     * what the SDK's `configure` does. Already initialised: nothing changes and
     * nothing is thrown.
     */
    method Initialize(apiKey: Option<string>, configure: Outcome<Thrown>) returns (r: Outcome<Thrown>)
      modifies this
      ensures old(initialized) ==> initialized && r == Pass
      ensures !old(initialized) && !ApiKeyPresent(apiKey) ==>
                !initialized && r == Fail(ErrorInstance(MISSING_API_KEY_MESSAGE, None))
      ensures !old(initialized) && ApiKeyPresent(apiKey) ==> r == configure && (initialized <==> configure.Pass?)
      ensures initialized <==> r.Pass?
    {
      if initialized {
        return Pass;
      }
      if !ApiKeyPresent(apiKey) {
        return Fail(ErrorInstance(MISSING_API_KEY_MESSAGE, None));
      }
      match configure {
        case Pass =>
          initialized := true;
          r := Pass;
        case Fail(e) =>
          r := Fail(e);
      }
    }

    /** `isInitialized`. */
    method IsInitialized() returns (b: bool)
      ensures b == initialized
    {
      b := initialized;
    }
  }

  // ---- Properties of the service rules ----

  /** Only the pro key matters: other entitlements never change the answer. */
  lemma ProAccessIgnoresOtherEntitlements(info: CustomerInfo, key: string, e: EntitlementInfo)
    requires key != Subscriptions.ENTITLEMENT_PRO
    ensures HasProAccess(info.(activeEntitlements := info.activeEntitlements[key := e])) == HasProAccess(info)
  {
  }

  /** A thrown value carrying `userCancelled: false` still counts as a cancellation. */
  lemma CancelFlagValueIgnored(message: string, refetched: CustomerInfo)
    ensures ClassifyPurchase(Failure(ErrorInstance(message, Some(false))), Success(refetched))
            == Success(PurchaseResult(refetched, true))
  {
  }

  /** A cancelled purchase reports the re-fetched snapshot, not anything from the failed purchase. */
  lemma CancelledPurchaseReportsRefetch(purchase: Result<MakePurchaseResult, Thrown>, refetched: CustomerInfo)
    requires purchase.Failure? && IsCancellation(purchase.error)
    ensures ClassifyPurchase(purchase, Success(refetched)) == Success(PurchaseResult(refetched, true))
  {
  }
}
