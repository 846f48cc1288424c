/**
 * The persisted subscription store: five fields, the setter actions, the four
 * request actions (loading on and error cleared, then the result or an error
 * message, then loading off) and `reset`, plus the `partialize` projection the
 * persistence layer writes to device storage.
 *
 * Each action is specified by a function from the old state and the service's
 * result to the new state; the class `SubscriptionStore` performs the same
 * updates field by field and is proved to end in that state.
 */
module Store {
  import opened Wrappers
  import opened RevenueCat

  /** The store's data fields. */
  datatype StoreState = StoreState(
    customerInfo: Option<CustomerInfo>,
    isProUser: bool,
    isLoading: bool,
    error: Option<string>,
    packages: seq<Package>)

  /** `initialState`. */
  const INITIAL_STATE: StoreState := StoreState(None, false, false, None, [])

  const FETCH_CUSTOMER_INFO_FAILED: string := "Failed to fetch customer info"
  const FETCH_OFFERINGS_FAILED: string := "Failed to fetch offerings"
  const PURCHASE_FAILED: string := "Purchase failed"
  const RESTORE_PURCHASES_FAILED: string := "Failed to restore purchases"

  /** The pro flag agrees with the snapshot: false without one, `hasProAccess` of it otherwise. */
  predicate ProFlagAgrees(customerInfo: Option<CustomerInfo>, isProUser: bool)
  {
    match customerInfo
    case None => !isProUser
    case Some(info) => isProUser == HasProAccess(info)
  }

  predicate Consistent(s: StoreState)
  {
    ProFlagAgrees(s.customerInfo, s.isProUser)
  }

  /** `error instanceof Error ? error.message : fallback`. */
  function ErrorText(e: Thrown, fallback: string): (text: string)
    ensures e.ErrorInstance? ==> text == e.message
    ensures !e.ErrorInstance? ==> text == fallback
  {
    if e.ErrorInstance? then e.message else fallback
  }

  /** `setCustomerInfo`. */
  function WithCustomerInfo(s: StoreState, info: CustomerInfo): (r: StoreState)
    ensures Consistent(r)
    ensures r.customerInfo == Some(info) && (r.isProUser <==> HasProAccess(info))
    ensures r.isLoading == s.isLoading && r.error == s.error && r.packages == s.packages
  {
    s.(customerInfo := Some(info), isProUser := HasProAccess(info))
  }

  /** The first `set` of every request action. */
  function BeginRequest(s: StoreState): StoreState
  {
    s.(isLoading := true, error := None)
  }

  /** The `finally` of every request action. */
  function EndRequest(s: StoreState): StoreState
  {
    s.(isLoading := false)
  }

  /** `fetchCustomerInfo`, given what the service's `getCustomerInfo` did. */
  function AfterFetchCustomerInfo(s: StoreState, response: Result<CustomerInfo, Thrown>): (r: StoreState)
    ensures !r.isLoading && r.packages == s.packages
    ensures Consistent(s) ==> Consistent(r)
    ensures response.Success? ==> r.error == None && r.customerInfo == Some(response.value)
                                  && (r.isProUser <==> HasProAccess(response.value))
    ensures response.Failure? ==> r.error == Some(ErrorText(response.error, FETCH_CUSTOMER_INFO_FAILED))
                                  && r.customerInfo == s.customerInfo && r.isProUser == s.isProUser
  {
    var started := BeginRequest(s);
    EndRequest(
      match response
      case Success(info) => WithCustomerInfo(started, info)
      case Failure(e) => started.(error := Some(ErrorText(e, FETCH_CUSTOMER_INFO_FAILED))))
  }

  /** `fetchOfferings`, given what the service's `getOfferings` did. */
  function AfterFetchOfferings(s: StoreState, response: Result<seq<Package>, Thrown>): (r: StoreState)
    ensures !r.isLoading
    ensures r.customerInfo == s.customerInfo && r.isProUser == s.isProUser
    ensures Consistent(s) ==> Consistent(r)
    ensures response.Success? ==> r.error == None && r.packages == response.value
    ensures response.Failure? ==> r.error == Some(ErrorText(response.error, FETCH_OFFERINGS_FAILED))
                                  && r.packages == s.packages
  {
    var started := BeginRequest(s);
    EndRequest(
      match response
      case Success(packages) => started.(packages := packages)
      case Failure(e) => started.(error := Some(ErrorText(e, FETCH_OFFERINGS_FAILED))))
  }

  /** What the store's `purchasePackage` resolves to. */
  predicate PurchaseSucceeded(response: Result<PurchaseResult, Thrown>)
  {
    response.Success? && !response.value.cancelled
  }

  /** `purchasePackage`, given what the service's `purchasePackage` did. */
  function AfterPurchase(s: StoreState, response: Result<PurchaseResult, Thrown>): (r: StoreState)
    ensures !r.isLoading && r.packages == s.packages
    ensures Consistent(s) ==> Consistent(r)
    ensures PurchaseSucceeded(response) ==>
              r.error == None && r.customerInfo == Some(response.value.customerInfo)
              && (r.isProUser <==> HasProAccess(response.value.customerInfo))
    ensures !PurchaseSucceeded(response) ==> r.customerInfo == s.customerInfo && r.isProUser == s.isProUser
    ensures response.Success? && response.value.cancelled ==> r.error == None
    ensures response.Failure? ==> r.error == Some(ErrorText(response.error, PURCHASE_FAILED))
  {
    var started := BeginRequest(s);
    EndRequest(
      match response
      case Success(result) => if !result.cancelled then WithCustomerInfo(started, result.customerInfo) else started
      case Failure(e) => started.(error := Some(ErrorText(e, PURCHASE_FAILED))))
  }

  /** `restorePurchases`, given what the service's `restorePurchases` did. */
  function AfterRestorePurchases(s: StoreState, response: Result<CustomerInfo, Thrown>): (r: StoreState)
    ensures !r.isLoading && r.packages == s.packages
    ensures Consistent(s) ==> Consistent(r)
    ensures response.Success? ==> r.error == None && r.customerInfo == Some(response.value)
                                  && (r.isProUser <==> HasProAccess(response.value))
    ensures response.Failure? ==> r.error == Some(ErrorText(response.error, RESTORE_PURCHASES_FAILED))
                                  && r.customerInfo == s.customerInfo && r.isProUser == s.isProUser
  {
    var started := BeginRequest(s);
    EndRequest(
      match response
      case Success(info) => WithCustomerInfo(started, info)
      case Failure(e) => started.(error := Some(ErrorText(e, RESTORE_PURCHASES_FAILED))))
  }

  /** What `partialize` writes to storage. */
  datatype PersistedState = PersistedState(customerInfo: Option<CustomerInfo>, isProUser: bool)

  /** `partialize`: only the snapshot and the pro flag are persisted. */
  function Partialize(s: StoreState): (p: PersistedState)
    ensures p.customerInfo == s.customerInfo && p.isProUser == s.isProUser
    ensures Consistent(s) ==> ProFlagAgrees(p.customerInfo, p.isProUser)
  {
    PersistedState(s.customerInfo, s.isProUser)
  }

  /** Rehydration: the persisted fields are merged over the current state. */
  function Rehydrate(current: StoreState, p: PersistedState): (r: StoreState)
    ensures Partialize(r) == p
    ensures r.isLoading == current.isLoading && r.error == current.error && r.packages == current.packages
    ensures ProFlagAgrees(p.customerInfo, p.isProUser) ==> Consistent(r)
  {
    current.(customerInfo := p.customerInfo, isProUser := p.isProUser)
  }

  // ---- The store object ----

  class SubscriptionStore {
    var customerInfo: Option<CustomerInfo>
    var isProUser: bool
    var isLoading: bool
    var error: Option<string>
    var packages: seq<Package>

    function State(): StoreState
      reads this
    {
      StoreState(customerInfo, isProUser, isLoading, error, packages)
    }

    ghost predicate Valid()
      reads this
    {
      Consistent(State())
    }

    constructor ()
      ensures State() == INITIAL_STATE && Valid()
    {
      customerInfo, isProUser, isLoading, error, packages := None, false, false, None, [];
    }

    method SetCustomerInfo(info: CustomerInfo)
      modifies this
      ensures State() == WithCustomerInfo(old(State()), info)
      ensures Valid()
    {
      var pro := HasProAccess(info);
      customerInfo, isProUser := Some(info), pro;
    }

    method SetLoading(loading: bool)
      requires Valid()
      modifies this
      ensures State() == old(State()).(isLoading := loading)
      ensures Valid()
    {
      isLoading := loading;
    }

    method SetError(e: Option<string>)
      requires Valid()
      modifies this
      ensures State() == old(State()).(error := e)
      ensures Valid()
    {
      error := e;
    }

    method SetPackages(ps: seq<Package>)
      requires Valid()
      modifies this
      ensures State() == old(State()).(packages := ps)
      ensures Valid()
    {
      packages := ps;
    }

    method FetchCustomerInfo(response: Result<CustomerInfo, Thrown>)
      requires Valid()
      modifies this
      ensures State() == AfterFetchCustomerInfo(old(State()), response)
      ensures Valid() && !isLoading
    {
      isLoading, error := true, None;
      match response {
        case Success(info) => SetCustomerInfo(info);
        case Failure(e) => error := Some(ErrorText(e, FETCH_CUSTOMER_INFO_FAILED));
      }
      isLoading := false;
    }

    method FetchOfferings(response: Result<seq<Package>, Thrown>)
      requires Valid()
      modifies this
      ensures State() == AfterFetchOfferings(old(State()), response)
      ensures Valid() && !isLoading
    {
      isLoading, error := true, None;
      match response {
        case Success(ps) => packages := ps;
        case Failure(e) => error := Some(ErrorText(e, FETCH_OFFERINGS_FAILED));
      }
      isLoading := false;
    }

    method PurchasePackage(response: Result<PurchaseResult, Thrown>) returns (purchased: bool)
      requires Valid()
      modifies this
      ensures purchased == PurchaseSucceeded(response)
      ensures State() == AfterPurchase(old(State()), response)
      ensures Valid() && !isLoading
    {
      isLoading, error := true, None;
      match response {
        case Success(result) =>
          if !result.cancelled {
            SetCustomerInfo(result.customerInfo);
            purchased := true;
          } else {
            purchased := false;
          }
        case Failure(e) =>
          error := Some(ErrorText(e, PURCHASE_FAILED));
          purchased := false;
      }
      isLoading := false;
    }

    method RestorePurchases(response: Result<CustomerInfo, Thrown>)
      requires Valid()
      modifies this
      ensures State() == AfterRestorePurchases(old(State()), response)
      ensures Valid() && !isLoading
    {
      isLoading, error := true, None;
      match response {
        case Success(info) => SetCustomerInfo(info);
        case Failure(e) => error := Some(ErrorText(e, RESTORE_PURCHASES_FAILED));
      }
      isLoading := false;
    }

    method Reset()
      modifies this
      ensures State() == INITIAL_STATE
      ensures Valid()
    {
      customerInfo, isProUser, isLoading, error, packages := None, false, false, None, [];
    }
  }

  // ---- Every reachable state keeps the pro flag in agreement ----

  /** One store action with the service result it ran on. */
  datatype Action =
    | CustomerInfoSet(info: CustomerInfo)
    | LoadingSet(loading: bool)
    | ErrorSet(message: Option<string>)
    | PackagesSet(packages: seq<Package>)
    | CustomerInfoFetched(customerInfoResponse: Result<CustomerInfo, Thrown>)
    | OfferingsFetched(offeringsResponse: Result<seq<Package>, Thrown>)
    | PackagePurchased(purchaseResponse: Result<PurchaseResult, Thrown>)
    | PurchasesRestored(restoreResponse: Result<CustomerInfo, Thrown>)
    | ResetRequested
    | Rehydrated(persisted: PersistedState)

  /** Storage only ever holds what `partialize` wrote from a consistent state. */
  predicate WellFormed(a: Action)
  {
    a.Rehydrated? ==> ProFlagAgrees(a.persisted.customerInfo, a.persisted.isProUser)
  }

  predicate IsRequest(a: Action)
  {
    a.CustomerInfoFetched? || a.OfferingsFetched? || a.PackagePurchased? || a.PurchasesRestored?
  }

  function Apply(s: StoreState, a: Action): (r: StoreState)
    ensures Consistent(s) && WellFormed(a) ==> Consistent(r)
    ensures IsRequest(a) ==> !r.isLoading
  {
    match a
    case CustomerInfoSet(info) => WithCustomerInfo(s, info)
    case LoadingSet(loading) => s.(isLoading := loading)
    case ErrorSet(message) => s.(error := message)
    case PackagesSet(packages) => s.(packages := packages)
    case CustomerInfoFetched(response) => AfterFetchCustomerInfo(s, response)
    case OfferingsFetched(response) => AfterFetchOfferings(s, response)
    case PackagePurchased(response) => AfterPurchase(s, response)
    case PurchasesRestored(response) => AfterRestorePurchases(s, response)
    case ResetRequested => INITIAL_STATE
    case Rehydrated(p) => Rehydrate(s, p)
  }

  /** The state after running the actions one after another, each to completion. */
  function Run(s: StoreState, actions: seq<Action>): StoreState
    decreases |actions|
  {
    if actions == [] then s else Run(Apply(s, actions[0]), actions[1..])
  }

  lemma {:induction false} RunKeepsConsistency(s: StoreState, actions: seq<Action>)
    requires Consistent(s)
    requires forall a :: a in actions ==> WellFormed(a)
    ensures Consistent(Run(s, actions))
    decreases |actions|
  {
    if actions != [] {
      assert actions[0] in actions;
      RunKeepsConsistency(Apply(s, actions[0]), actions[1..]);
    }
  }

  /**
   * From a fresh start, or from a start rehydrated from a consistent state, the
   * flag always agrees, also when a rehydration lands in the middle of the run.
   */
  lemma ReachableStatesConsistent(saved: StoreState, actions: seq<Action>)
    requires Consistent(saved)
    requires forall a :: a in actions ==> WellFormed(a)
    ensures Consistent(Run(INITIAL_STATE, actions))
    ensures Consistent(Run(Rehydrate(INITIAL_STATE, Partialize(saved)), actions))
  {
    RunKeepsConsistency(INITIAL_STATE, actions);
    RunKeepsConsistency(Rehydrate(INITIAL_STATE, Partialize(saved)), actions);
  }

  // ---- Persistence ----

  /** `initialState` has no snapshot, is not pro, not loading, has no error and no packages. */
  lemma InitialStateIsEmpty()
    ensures Consistent(INITIAL_STATE)
    ensures INITIAL_STATE.customerInfo == None && !INITIAL_STATE.isProUser && !INITIAL_STATE.isLoading
    ensures INITIAL_STATE.error == None && INITIAL_STATE.packages == []
  {
  }

  /** Rehydration from a consistent saved state keeps any current state consistent, whenever it lands. */
  lemma LateRehydrationKeepsConsistency(current: StoreState, saved: StoreState)
    requires Consistent(saved)
    ensures Consistent(Rehydrate(current, Partialize(saved)))
  {
  }

  /** After a restart, the persisted fields come back and every other field is its initial value. */
  lemma RehydratedState(s: StoreState)
    ensures var r := Rehydrate(INITIAL_STATE, Partialize(s));
            r.customerInfo == s.customerInfo && r.isProUser == s.isProUser
            && r.isLoading == INITIAL_STATE.isLoading && r.error == INITIAL_STATE.error
            && r.packages == INITIAL_STATE.packages
  {
  }

  /** Whatever was persisted is exactly what is persisted again after rehydration. */
  lemma PartializeAfterRehydrate(current: StoreState, p: PersistedState)
    ensures Partialize(Rehydrate(current, p)) == p
  {
  }

  /** Two states that differ only outside the persisted fields persist the same. */
  lemma PartializeIgnoresTransientFields(s: StoreState, t: StoreState)
    requires s.customerInfo == t.customerInfo && s.isProUser == t.isProUser
    ensures Partialize(s) == Partialize(t)
  {
  }

  // ---- The store and the service together ----

  /**
   * A cancelled purchase resolves to `false` and leaves the snapshot and the flag
   * as they were, even though the service fetched a new snapshot.
   */
  lemma CancelledPurchaseKeepsSnapshot(s: StoreState, purchase: Result<MakePurchaseResult, Thrown>,
                                       refetched: CustomerInfo)
    requires purchase.Failure? && IsCancellation(purchase.error)
    ensures var response := ClassifyPurchase(purchase, Success(refetched));
            var r := AfterPurchase(s, response);
            !PurchaseSucceeded(response) && r.customerInfo == s.customerInfo && r.isProUser == s.isProUser
            && r.error == None && !r.isLoading
  {
  }

  /** A cancellation whose follow-up fetch throws is recorded as a purchase failure. */
  lemma CancelledPurchaseWithFailedRefetch(s: StoreState, purchase: Result<MakePurchaseResult, Thrown>,
                                           e: Thrown)
    requires purchase.Failure? && IsCancellation(purchase.error)
    ensures var response := ClassifyPurchase(purchase, Failure(e));
            var r := AfterPurchase(s, response);
            !PurchaseSucceeded(response) && r.error == Some(ErrorText(e, PURCHASE_FAILED))
            && r.customerInfo == s.customerInfo
  {
  }

  /** The purchase resolves to `true` exactly when the SDK's purchase returned. */
  lemma PurchaseResolvesTrueIffSdkSucceeded(purchase: Result<MakePurchaseResult, Thrown>,
                                            refetch: Result<CustomerInfo, Thrown>)
    ensures PurchaseSucceeded(ClassifyPurchase(purchase, refetch)) <==> purchase.Success?
  {
  }

  /**
   * An error that carries `userCancelled: false` is not reported: the store
   * clears the error and resolves to `false`, as for a user cancellation.
   */
  lemma CancelFieldFalseIsNotReported(s: StoreState, message: string, refetched: CustomerInfo)
    ensures var response := ClassifyPurchase(Failure(ErrorInstance(message, Some(false))), Success(refetched));
            AfterPurchase(s, response).error == None && !PurchaseSucceeded(response)
  {
  }
}
