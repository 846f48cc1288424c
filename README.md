# Between Us subscription core, modelled in Dafny

This project models the subscription layer of the Between Us mobile client and proves properties of it:

- the persisted subscription store. It has five fields (`customerInfo`, `isProUser`, `isLoading`, `error`, `packages`), setter actions, four request actions and `reset`.
- the RevenueCat service wrapper, with its `initialized` flag and its rules for entitlements, offerings and purchase errors.
- the shared tier/feature limit table.
- the password, login and signup validation rules.

Files:

- `wrappers.dfy`: `Option`, `Result` and `Outcome`.
- `subscriptions.dfy` (module `Subscriptions`): `ENTITLEMENTS.PRO`, `SUBSCRIPTION_LIMITS`, `getUsageLimit` and `hasFeatureAccess`. JavaScript's `Infinity` is the `Limit` value `Unlimited`.
- `auth_schemas.dfy` (module `AuthSchemas`): the password rules as predicates over `string`. It also has the list of violated rules in chain order, plus the login and signup object schemas. The e-mail check belongs to the validation library, so it is passed in as a predicate `isEmail`.
- `revenuecat_service.dfy` (module `RevenueCat`): the SDK's data shapes and the thrown value `Thrown`. That is an `Error` instance with its message, another object, or a primitive; when the `userCancelled` property is present, its value is kept. The module holds the pure rules (`HasProAccess`, `SelectPackages`, `GetOfferings`, `ClassifyPurchase`) and the class `RevenueCatService` with the `initialized` flag.
- `subscription_store.dfy` (module `Store`): `StoreState` and one function per action, giving the new state from the old state and the service's result. The class `SubscriptionStore` performs each action field by field and is proved to end in exactly that state. The module also has `Partialize`, zustand's default rehydration merge, and a proof over any sequence of actions that `isProUser` always agrees with `customerInfo`. Hydration from storage is asynchronous, so the action sequence may contain a rehydration at any point.

Each SDK call is an input to the model: the action takes what the service returned or threw as a parameter.

JavaScript string lengths count UTF-16 code units, while a Dafny 4 `char` is a Unicode scalar value. So the model measures passwords with `Utf16Length`. One consequence, proved in `AuthSchemas.FiveCharacterPasswordAccepted`: a five-character password containing two emoji passes the "at least 6 characters" rule.

A second consequence of the code as written: the service treats any thrown object that has a `userCancelled` property as a cancellation, whatever the value of that property. An error carrying `userCancelled: false` is therefore reported like a user cancellation: the store's `error` stays cleared and the action resolves to `false` (`Store.CancelFieldFalseIsNotReported`).

## Model

| member | source | states |
|---|---|---|
| `Subscriptions.SubscriptionLimits` | packages/shared-constants/src/subscriptions.ts:44-59 | insights are unlimited on both tiers; suggested replies exactly on pro; free has finite decoder and coach limits and 7 days of history; pro has unlimited decoder and coach and 365 days |
| `Subscriptions.GetUsageLimit` | packages/shared-constants/src/subscriptions.ts:92-97 | unlimited on pro and for insights; 3 for free decoder and 5 for free coach |
| `Subscriptions.HasFeatureAccess` | packages/shared-constants/src/subscriptions.ts:102-110 | access is granted unless the key is "suggestedReplies" and the tier is free |
| `Subscriptions.FreeTierLimits` | packages/shared-constants/src/subscriptions.ts:44-51 | free tier: 3 decoder uses, 5 coach messages, unlimited insights |
| `Subscriptions.ProTierUnlimited` | packages/shared-constants/src/subscriptions.ts:52-58 | every metered feature is unlimited on the pro tier |
| `Subscriptions.ProDominatesFree` | packages/shared-constants/src/subscriptions.ts:92-97 | for every feature the pro limit is at least the free limit, with Unlimited on top |
| `Subscriptions.HistoryRetentionDays` | packages/shared-constants/src/subscriptions.ts:49-56 | history is kept 7 days on free and 365 on pro |
| `Subscriptions.SuggestedRepliesOnlyForPro` | packages/shared-constants/src/subscriptions.ts:102-108 | `suggestedReplies` is accessible exactly on the pro tier |
| `Subscriptions.OtherFeaturesForEveryTier` | packages/shared-constants/src/subscriptions.ts:109 | every other feature key is accessible on every tier |
| `Subscriptions.ProAccessIncludesFree` | packages/shared-constants/src/subscriptions.ts:102-110 | a feature the free tier has, the pro tier has |
| `AuthSchemas.Utf16Length` | packages/shared-validation/src/schemas/auth.schemas.ts:14 | the JavaScript length is between the character count and twice it |
| `AuthSchemas.IsStrongPassword` | packages/shared-validation/src/schemas/auth.schemas.ts:12-21 | a password is accepted iff it passes every check of the chain |
| `AuthSchemas.Violated` | packages/shared-validation/src/schemas/auth.schemas.ts:12-21 | the rules of a list that the password violates, each exactly when violated, keeping the list's chain order |
| `AuthSchemas.PasswordIssues` | packages/shared-validation/src/schemas/auth.schemas.ts:12-21 | a rule is reported iff the password violates it; no issues iff length >= 6 and it has a lowercase, an uppercase, a digit and a character outside `[a-zA-Z0-9]`; no rule twice; reported in chain order |
| `AuthSchemas.LoginPasswordAccepted` | packages/shared-validation/src/schemas/auth.schemas.ts:43 | `min(1)` accepts exactly the non-empty strings |
| `AuthSchemas.RuleFor` | packages/shared-validation/src/schemas/auth.schemas.ts:15-21 | the rule for a class holds of a string exactly when the string contains a character of that class; it is never the length rule |
| `AuthSchemas.PasswordFieldIssues` | packages/shared-validation/src/schemas/auth.schemas.ts:34 | each violated rule becomes one password-field issue carrying the rule's message, in order |
| `AuthSchemas.SignupIssues` | packages/shared-validation/src/schemas/auth.schemas.ts:32-35 | signup input has no issues iff the e-mail is valid and the password is strong; the e-mail issue appears iff the e-mail is invalid, and first; a password issue is reported iff its rule is violated; no other issues |
| `AuthSchemas.PasswordFieldIssuesExact` | packages/shared-validation/src/schemas/auth.schemas.ts:32-35 | the password-field issues are exactly the messages of the violated rules, and empty iff the password is strong |
| `AuthSchemas.LoginIssues` | packages/shared-validation/src/schemas/auth.schemas.ts:41-44 | login input has no issues iff the e-mail is valid and the password is non-empty; the e-mail issue appears iff the e-mail is invalid; "Password is required" appears iff the password is empty; no other issues |
| `AuthSchemas.Utf16LengthAppend` | packages/shared-validation/src/schemas/auth.schemas.ts:14 | the JavaScript length of a concatenation is the sum of the lengths |
| `AuthSchemas.Utf16LengthOfBmp` | packages/shared-validation/src/schemas/auth.schemas.ts:14 | without characters above U+FFFF the JavaScript length equals the character count |
| `AuthSchemas.ContainsClassAppend` | packages/shared-validation/src/schemas/auth.schemas.ts:15-21 | a class found in a string is still found after appending |
| `AuthSchemas.ShortPasswordRejected` | packages/shared-validation/src/schemas/auth.schemas.ts:14 | fewer than 6 code units is rejected, with the length rule reported, whatever the characters |
| `AuthSchemas.ShortBmpPasswordRejected` | packages/shared-validation/src/schemas/auth.schemas.ts:14 | for text without characters above U+FFFF, fewer than 6 characters is rejected |
| `AuthSchemas.FiveCharacterPasswordAccepted` | packages/shared-validation/src/schemas/auth.schemas.ts:14-21 | a 5-character password with two emoji (7 code units) is accepted |
| `AuthSchemas.MissingClassRejected` | packages/shared-validation/src/schemas/auth.schemas.ts:15-21 | a password missing any one class is rejected, with that class's rule reported |
| `AuthSchemas.AppendKeepsStrong` | packages/shared-validation/src/schemas/auth.schemas.ts:12-21 | an accepted password stays accepted when characters are appended |
| `AuthSchemas.NonAsciiAlnumIsSpecial` | packages/shared-validation/src/schemas/auth.schemas.ts:18-21 | any character that is not an ASCII letter or digit satisfies the special-character rule |
| `AuthSchemas.AccentedLetterIsSpecial` | packages/shared-validation/src/schemas/auth.schemas.ts:18-21 | a non-ASCII letter such as "é" counts as a special character |
| `AuthSchemas.LoginPasswordIffNonEmpty` | packages/shared-validation/src/schemas/auth.schemas.ts:43 | the login password rule accepts exactly the non-empty strings |
| `AuthSchemas.StrongPasswordIsLoginPassword` | packages/shared-validation/src/schemas/auth.schemas.ts:12-44 | every signup-valid password is login-valid |
| `AuthSchemas.LoginSkipsComplexity` | packages/shared-validation/src/schemas/auth.schemas.ts:41-44 | "a" passes the login rule but not the signup rules |
| `RevenueCat.HasProAccess` | apps/mobile/src/services/revenuecat.service.ts:62-64 | the property read for "BetweenUs Pro" is defined exactly when that key is among the active entitlements |
| `RevenueCat.IsCancellation` | apps/mobile/src/services/revenuecat.service.ts:106 | a thrown value is a cancellation iff it is an object with a `userCancelled` property, whatever the property's value; primitives never are |
| `RevenueCat.ApiKeyPresent` | apps/mobile/src/services/revenuecat.service.ts:28 | a key is unusable exactly when it is undefined or the empty string |
| `RevenueCat.SelectPackages` | apps/mobile/src/services/revenuecat.service.ts:73-81 | the result is non-empty iff there is a current offering with packages, and then it is exactly those packages |
| `RevenueCat.GetOfferings` | apps/mobile/src/services/revenuecat.service.ts:69-86 | succeeds iff the SDK call did, with the selection; an SDK error is rethrown unchanged |
| `RevenueCat.ClassifyPurchase` | apps/mobile/src/services/revenuecat.service.ts:91-117 | a purchase that returns yields `cancelled = false` with the SDK's snapshot; a thrown object with a `userCancelled` property yields `cancelled = true` with the re-fetched snapshot, or the re-fetch's error; anything else is rethrown; "not cancelled" holds exactly when the SDK purchase returned |
| `RevenueCat.RevenueCatService.constructor` | apps/mobile/src/services/revenuecat.service.ts:10 | the flag starts false |
| `RevenueCat.RevenueCatService.Initialize` | apps/mobile/src/services/revenuecat.service.ts:16-45 | once initialised, a call changes nothing and does not throw; otherwise a missing or empty key throws the fixed error and leaves the flag false; a configure failure is rethrown and leaves it false; the flag becomes true only after a successful configure and never goes back to false |
| `RevenueCat.RevenueCatService.IsInitialized` | apps/mobile/src/services/revenuecat.service.ts:164-166 | returns exactly the current flag |
| `RevenueCat.ProAccessIgnoresOtherEntitlements` | apps/mobile/src/services/revenuecat.service.ts:62-64 | adding or replacing an entitlement other than "BetweenUs Pro" does not change `hasProAccess` |
| `RevenueCat.CancelFlagValueIgnored` | apps/mobile/src/services/revenuecat.service.ts:106-111 | an error with `userCancelled: false` is still classified as a cancellation |
| `RevenueCat.CancelledPurchaseReportsRefetch` | apps/mobile/src/services/revenuecat.service.ts:104-111 | a cancellation reports the freshly fetched snapshot |
| `Store.ErrorText` | apps/mobile/src/store/subscriptionStore.ts:59-62 | the stored text is the message of an `Error` instance, and the action's fallback for any other thrown value |
| `Store.Partialize` | apps/mobile/src/store/subscriptionStore.ts:132-135 | persists the snapshot and the pro flag, and a consistent state persists a consistent pair |
| `Store.Rehydrate` | apps/mobile/src/store/subscriptionStore.ts:38-40 | merging persisted fields over a state puts back exactly what was persisted, keeps loading, error and packages, and a consistent pair gives a consistent state |
| `Store.InitialStateIsEmpty` | apps/mobile/src/store/subscriptionStore.ts:29-35 | `initialState` has no snapshot, no pro flag, no loading, no error and no packages, and is consistent |
| `Store.LateRehydrationKeepsConsistency` | apps/mobile/src/store/subscriptionStore.ts:132-135 | a rehydration from a consistent saved state, landing on any current state, leaves it consistent |
| `Store.WithCustomerInfo` | apps/mobile/src/store/subscriptionStore.ts:42-45 | stores the snapshot with `isProUser == hasProAccess(snapshot)`, so the result is consistent; the other fields are unchanged |
| `Store.AfterFetchCustomerInfo` | apps/mobile/src/store/subscriptionStore.ts:53-68 | loading ends false; on success the error is null and the snapshot and flag are replaced; on failure the error is the message or "Failed to fetch customer info" and snapshot and flag are unchanged; packages never change; consistency is preserved |
| `Store.AfterFetchOfferings` | apps/mobile/src/store/subscriptionStore.ts:70-85 | loading ends false; snapshot and flag are never touched; on success the error is null and packages are replaced; on failure the error is the message or "Failed to fetch offerings" and packages are unchanged |
| `Store.AfterPurchase` | apps/mobile/src/store/subscriptionStore.ts:87-108 | loading ends false; snapshot and flag change only when the purchase was neither cancelled nor thrown; a cancellation leaves the error null; a failure sets the message or "Purchase failed"; packages never change; consistency is preserved |
| `Store.AfterRestorePurchases` | apps/mobile/src/store/subscriptionStore.ts:110-125 | as for fetching customer info, with the default message "Failed to restore purchases" |
| `Store.SubscriptionStore.constructor` | apps/mobile/src/store/subscriptionStore.ts:29-40 | the store starts in `initialState`, which is consistent |
| `Store.SubscriptionStore.SetCustomerInfo` | apps/mobile/src/store/subscriptionStore.ts:42-45 | the new state is `WithCustomerInfo` of the old one and is consistent |
| `Store.SubscriptionStore.SetLoading` | apps/mobile/src/store/subscriptionStore.ts:47 | only `isLoading` changes; consistency is kept |
| `Store.SubscriptionStore.SetError` | apps/mobile/src/store/subscriptionStore.ts:49 | only `error` changes; consistency is kept |
| `Store.SubscriptionStore.SetPackages` | apps/mobile/src/store/subscriptionStore.ts:51 | only `packages` changes; consistency is kept |
| `Store.SubscriptionStore.FetchCustomerInfo` | apps/mobile/src/store/subscriptionStore.ts:53-68 | the new state is `AfterFetchCustomerInfo` of the old one; consistent and not loading |
| `Store.SubscriptionStore.FetchOfferings` | apps/mobile/src/store/subscriptionStore.ts:70-85 | the new state is `AfterFetchOfferings` of the old one; consistent and not loading |
| `Store.SubscriptionStore.PurchasePackage` | apps/mobile/src/store/subscriptionStore.ts:87-108 | resolves to true iff the purchase was neither cancelled nor thrown; the new state is `AfterPurchase` of the old one |
| `Store.SubscriptionStore.RestorePurchases` | apps/mobile/src/store/subscriptionStore.ts:110-125 | the new state is `AfterRestorePurchases` of the old one; consistent and not loading |
| `Store.SubscriptionStore.Reset` | apps/mobile/src/store/subscriptionStore.ts:127 | the store returns to `initialState`, which is consistent |
| `Store.Apply` | apps/mobile/src/store/subscriptionStore.ts:42-127 | every action, `reset` and a rehydration from a consistent pair included, keeps `isProUser` in agreement with `customerInfo`; every request action ends with loading false |
| `Store.RunKeepsConsistency` | apps/mobile/src/store/subscriptionStore.ts:42-127 | any sequence of actions run to completion, with rehydrations anywhere in it, keeps `isProUser` in agreement with `customerInfo` |
| `Store.ReachableStatesConsistent` | apps/mobile/src/store/subscriptionStore.ts:29-35 | every state reachable from `initialState`, or from a start rehydrated from a consistent state, is consistent, also when a later rehydration lands mid-run |
| `Store.RehydratedState` | apps/mobile/src/store/subscriptionStore.ts:132-135 | after rehydration the snapshot and flag are the persisted ones and every other field has its `initialState` value |
| `Store.PartializeAfterRehydrate` | apps/mobile/src/store/subscriptionStore.ts:132-135 | persisting a rehydrated state writes back exactly what was read |
| `Store.PartializeIgnoresTransientFields` | apps/mobile/src/store/subscriptionStore.ts:132-135 | `partialize` keeps only `customerInfo` and `isProUser` |
| `Store.CancelledPurchaseKeepsSnapshot` | apps/mobile/src/store/subscriptionStore.ts:90-98 | a cancelled purchase resolves to false, leaves snapshot and flag unchanged, discards the re-fetched snapshot and leaves the error null |
| `Store.CancelledPurchaseWithFailedRefetch` | apps/mobile/src/store/subscriptionStore.ts:99-104 | a cancellation whose follow-up fetch throws is recorded as a purchase failure with that error's message |
| `Store.PurchaseResolvesTrueIffSdkSucceeded` | apps/mobile/src/store/subscriptionStore.ts:90-98 | the store's purchase resolves to true exactly when the SDK purchase returned |
| `Store.CancelFieldFalseIsNotReported` | apps/mobile/src/store/subscriptionStore.ts:87-104 | an SDK error carrying `userCancelled: false` leaves the store's error null and resolves to false |

## Left out

- UI components, screens, navigation, the `cn` styling helper and build configuration: these are rendering glue with no logic of their own.
- The `useRevenueCat` hook: an asynchronous React effect with an SDK listener. The listener only calls `setCustomerInfo`, which is modelled.
- What the purchase SDK does: its calls are inputs to the model. `getCustomerInfo` and `restorePurchases` in the service only pass the SDK's result through or rethrow its error, so the store's actions take that result directly.
- `identifyUser` and `logoutUser`: pure pass-throughs to the SDK that touch no state.
- The package passed to `purchasePackage` and the `userId` passed to `initialize` only reach the SDK, so they are not parameters. `Purchases.setLogLevel` is left out too.
- Device storage I/O and JSON serialisation: persistence is modelled as `Partialize` plus zustand's default shallow merge (`Rehydrate`). Data the JSON round trip would not preserve is not modelled.
- Interleaving of overlapping asynchronous actions: every action runs to completion. Other code could read the intermediate state with `isLoading == true` during the `await`; that state is not observable in the model.
- Platform selection of the API key: the selected key is an input (`Option<string>`).
- The value of a present `userCancelled` property is modelled as a boolean. A present property holding `null` or `undefined` counts as present, like any other value, and is not modelled separately.
- `SUBSCRIPTION_PRICING`, `PRODUCTS`, `FEATURE_NAMES` and `REVENUECAT_API_KEYS`: display strings, floating-point prices and environment variables, with no behaviour.
- The e-mail check and the validation library's non-string handling: the e-mail check is a parameter, and inputs are always strings.
- Logging through `console`.
