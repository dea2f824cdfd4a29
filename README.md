# Optimistic subscription flow — a Dafny model

A single-page form lets a user pick a website and subscribe an email address
to it. This project models the client-side core of that form:

- **the store** (`src/stores/subscriptionStore.js`): one record with six
  fields (`websites`, `isLoadingWebsites`, `isSubscribing`,
  `subscriptionStatus`, `errorMessage`, `optimisticSubscription`). Four update
  functions replace that record with a spread copy, and `resetStore`
  installs the initial record itself. Module
  `StoreUpdates` holds the record and the updates as pure functions. Module
  `SubscriptionStore` holds the shared store object, a class whose `state`
  field each method reassigns.
- **the hook** (`src/hooks/useSubscription.js`): `loadWebsites`,
  `subscribe` and `clearStatus` drive the store. The result of the API call is
  a parameter: `Ok` when the promise resolved, `Err(message)` when it
  rejected. `subscribe` is the optimistic start followed by the settlement.
  Module `HookFlow` states each operation as a function of the record.
  Module `UseSubscription` has a `Controller` class whose methods update the
  shared `Store` step by step, as the source does.
- **the API client** (`src/services/api.js`): module `Api` models the
  ok/error decision of `handleResponse` and the request that each endpoint
  wrapper builds. Module `Decimal` models how the website id is written into
  the URL. A route parser, the reading a server applies to that URL, is the
  inverse used to show that the URL names the website.

JavaScript `null`/`undefined` is `None` of `Option`. `subscriptionStatus` is
`Option<Status>`, where `Success` is `'success'` and `Error` is `'error'`. The
store functions take their record or message as an `Option`, because the
source checks neither argument. The invariants therefore hold only for non-null
arguments. The hook always passes non-null ones.

What is proved:

- Each update's exact effect on every field, including what stays the same.
- `errorMessage != null ⇔ status == 'error'` holds after every sequence of
  hook operations from the initial record, where each `subscribe` settles
  before the next operation. The same property fails for plain sequences of
  store calls: a concrete lemma shows a stale message left beside a
  `'success'` status by the order that overlapping subscribe calls produce.
- `optimisticSubscription != null ⇔ isSubscribing` holds after every
  sequence of store calls with non-null arguments.
- `isLoadingWebsites` is never raised.
- The optimistic record at the await already shows `'success'`.
- `handleResponse` never produces an empty error message.
- The subscribe URL can be read back to the website id, so different ids
  never share a URL.

## Model

| member | source | states |
|---|---|---|
| `Decimal.NatToString` | src/services/api.js:28 | a non-negative id renders as a non-empty string of decimal digits with no leading zero |
| `Decimal.IntToString` | src/services/api.js:28 | the rendered id is non-empty, starts with '-' exactly for negative ids, and contains no '/' |
| `Decimal.NatToStringValue` | src/services/api.js:28 | the digits of a non-negative id have that id as their decimal value |
| `Decimal.IntToStringRoundTrip` | src/services/api.js:28 | reading the rendered id back as a decimal integer yields the id |
| `Decimal.IntToStringInjective` | src/services/api.js:28 | two ids render to the same text exactly when they are equal |
| `Api.HandleResponse` | src/services/api.js:3-11 | the result is data exactly when the response is ok; ok yields the body's `data` unchanged and ignores any message; non-ok fails with the truthy `message`, else "Request failed"; an error message is never empty |
| `Api.Call` | src/services/api.js:14-38 | a transport failure rejects with its own message unchanged; a delivered response settles exactly as `handleResponse` classifies it: data when ok, otherwise the body's truthy message or "Request failed" |
| `Api.GetAllRequest` | src/services/api.js:14-23 | `getAll` is a GET to base + "/api/websites" with only an Accept: application/json header and no body |
| `Api.SubscribeRequest` | src/services/api.js:27-38 | `subscribe` is a POST with body `{email}` and exactly the JSON Content-Type and Accept headers, to exactly base + "/api/websites/" + id + "/subscribe", from which the server reads back the website id |
| `Api.SubscribeUrlNamesWebsite` | src/services/api.js:28 | parsing the subscribe URL as the subscribe route yields the website id |
| `Api.SubscribeUrlsDistinct` | src/services/api.js:28 | different website ids are posted to different URLs |
| `Api.GetAllUrlIsNotSubscribeUrl` | src/services/api.js:15-28 | the list URL is not read as a subscribe URL |
| `StoreUpdates.Initial` | src/stores/subscriptionStore.js:3-10 | empty list, both flags false, status, message and optimistic record all null |
| `StoreUpdates.InitialSatisfiesInvariants` | src/stores/subscriptionStore.js:3-10 | the initial record satisfies both the status invariant and the optimistic invariant |
| `StoreUpdates.SetWebsites` | src/stores/subscriptionStore.js:17-23 | the list becomes exactly the argument and the loading flag false; the four attempt fields are unchanged |
| `StoreUpdates.StartSubscription` | src/stores/subscriptionStore.js:25-33 | in flight, status 'success', message cleared, optimistic record set to the argument; list and loading flag unchanged |
| `StoreUpdates.SubscriptionSuccess` | src/stores/subscriptionStore.js:35-42 | not in flight, status 'success', optimistic record cleared; message, list and loading flag unchanged |
| `StoreUpdates.SubscriptionError` | src/stores/subscriptionStore.js:44-52 | not in flight, status 'error', message set to the argument, optimistic record cleared; list and loading flag unchanged |
| `StoreUpdates.ResetStore` | src/stores/subscriptionStore.js:54-56 | the result is the initial record, whatever the prior record |
| `StoreUpdates.ResetStoreIdempotent` | src/stores/subscriptionStore.js:54-56 | resetting twice is the same as resetting once, and the result satisfies both invariants |
| `StoreUpdates.ApplyKeepsOptimisticInvariant` | src/stores/subscriptionStore.js:17-56 | every store function with non-null arguments keeps `optimisticSubscription != null ⇔ isSubscribing` |
| `StoreUpdates.ApplyAllKeepsOptimisticInvariant` | src/stores/subscriptionStore.js:17-56 | any sequence of store calls with non-null arguments keeps the optimistic invariant |
| `StoreUpdates.OptimisticInvariantFromInitial` | src/stores/subscriptionStore.js:3-56 | from the initial record, the optimistic invariant holds after any sequence of store calls with non-null arguments |
| `StoreUpdates.NullSubscriptionBreaksOptimisticInvariant` | src/stores/subscriptionStore.js:25-33 | `startSubscription(null)` leaves the store in flight with no recorded attempt |
| `StoreUpdates.NullMessageBreaksStatusInvariant` | src/stores/subscriptionStore.js:44-52 | `subscriptionError(null)` shows 'error' with no message |
| `StoreUpdates.SuccessKeepsStatusInvariantIff` | src/stores/subscriptionStore.js:35-42 | after `subscriptionSuccess()` the status invariant holds exactly when the prior message was null |
| `StoreUpdates.OverlappingAttemptsLeaveStaleMessage` | src/stores/subscriptionStore.js:25-52 | start A, start B, error A, success B ends with status 'success' and A's message, so the status invariant fails |
| `SubscriptionStore.Store.constructor` | src/stores/subscriptionStore.js:3-15 | the store starts with the initial record |
| `SubscriptionStore.Store.SetWebsites` | src/stores/subscriptionStore.js:17-23 | the store's record becomes `SetWebsites` of the old one; attempt fields unchanged |
| `SubscriptionStore.Store.StartSubscription` | src/stores/subscriptionStore.js:25-33 | the record becomes `StartSubscription` of the old one; the status invariant holds afterwards, and the optimistic one too for a non-null record |
| `SubscriptionStore.Store.SubscriptionSuccess` | src/stores/subscriptionStore.js:35-42 | the record becomes `SubscriptionSuccess` of the old one; the optimistic invariant holds; the status invariant holds exactly when no message was left |
| `SubscriptionStore.Store.SubscriptionError` | src/stores/subscriptionStore.js:44-52 | the record becomes `SubscriptionError` of the old one; the optimistic invariant holds; the status invariant holds exactly when the message is non-null |
| `SubscriptionStore.Store.ResetStore` | src/stores/subscriptionStore.js:54-56 | the record becomes the initial one |
| `HookFlow.LoadWebsites` | src/hooks/useSubscription.js:14-21 | a fetched list is installed exactly and the attempt fields are unchanged; a failure leaves the whole record unchanged |
| `HookFlow.Pending` | src/hooks/useSubscription.js:23-25 | right after `subscribe(id, email)` is called: status 'success', in flight, optimistic record `{websiteId: id, email}`, no message, list unchanged |
| `HookFlow.Settle` | src/hooks/useSubscription.js:27-32 | on resolve: 'success', not in flight, no optimistic record; on reject with m: 'error' and message m |
| `HookFlow.Subscribe` | src/hooks/useSubscription.js:23-33 | settled: not in flight, no optimistic record; 'success' with no message, or 'error' with the rejection's message; list and loading flag never change |
| `HookFlow.ClearStatus` | src/hooks/useSubscription.js:35-41 | status and message become null; list, loading flag, in-flight flag and optimistic record unchanged |
| `HookFlow.PendingSatisfiesInvariants` | src/hooks/useSubscription.js:23-25 | the optimistic record at the await satisfies both invariants, whatever came before |
| `HookFlow.SubscribeRestoresInvariants` | src/hooks/useSubscription.js:23-33 | a settled subscribe re-establishes both invariants from any record |
| `HookFlow.SubscribeForgetsEarlierAttempts` | src/hooks/useSubscription.js:23-33 | the settled record depends only on the list, the arguments and the outcome |
| `HookFlow.ClearAfterSubscribeIsIdle` | src/hooks/useSubscription.js:23-41 | `clearStatus()` after a settled attempt returns to idle: no status, no message, not in flight, no optimistic record |
| `HookFlow.StepKeepsInvariant` | src/hooks/useSubscription.js:14-41 | each hook operation keeps the status invariant, the optimistic invariant and a false loading flag |
| `HookFlow.RunKeepsInvariant` | src/hooks/useSubscription.js:14-41 | any sequence of settled hook operations keeps those invariants |
| `HookFlow.SessionFromInitial` | src/hooks/useSubscription.js:14-41 | from the initial record, `errorMessage != null ⇔ status == 'error'` holds after every sequence of hook operations, and so do the optimistic invariant and a false loading flag |
| `HookFlow.AwaitOpsKeepNoMessage` | src/hooks/useSubscription.js:14-41 | loads and clears run while a subscribe awaits keep the invariants and leave the message null |
| `HookFlow.SubscribeWithInterleavedOpsKeepsInvariant` | src/hooks/useSubscription.js:14-41 | the invariants still hold when loads and clears run between the optimistic start of a subscribe and its settlement |
| `HookFlow.RunWebsitesAreLastLoaded` | src/hooks/useSubscription.js:14-21 | after any run the list is the last one loaded successfully, or the list from before the run |
| `UseSubscription.Controller.constructor` | src/hooks/useSubscription.js:11-12 | the hook works on the given shared store, and a store holding the initial record satisfies its invariants |
| `UseSubscription.Controller.LoadWebsites` | src/hooks/useSubscription.js:14-21 | the store's record becomes `HookFlow.LoadWebsites` of the old one; the invariants are kept |
| `UseSubscription.Controller.Subscribe` | src/hooks/useSubscription.js:23-33 | the record at the await is `Pending` (status 'success', in flight); the settled record is `HookFlow.Subscribe` of the old one and satisfies both invariants |
| `UseSubscription.Controller.ClearStatus` | src/hooks/useSubscription.js:35-41 | the store's record becomes `HookFlow.ClearStatus` of the old one; the invariants are kept |

## Left out

- Network I/O. `fetch`, `response.json()` and `JSON.stringify` are not modelled. A request is a value with its method, URL, headers and unserialised body. A response is its `ok` flag and its parsed body.
- Response bodies that are not JSON objects. A body that does not parse, or parses to `null` or a non-object, is not modelled. A `message` that is not a string is not modelled either.
- The base URL. `API_BASE_URL` is resolved from the environment with a local default (src/services/api.js:1). Here it is an opaque string parameter.
- `Decimal.IntToString`: models `String(n)` only for safe integers, of magnitude at most 2^53. Ids above 2^53, which JavaScript writes as rounded digits padded with zeros, and ids of 10^21 or more, which it writes in exponent form, are not modelled. Neither are non-integer numbers or `NaN`.
- `HookFlow.LoadWebsites`: takes the fetched list directly. A successful response with no `data` field would store `undefined` as the list, and this is not modelled.
- `HookFlow.Run` runs operations one after another, each subscribe settling before the next operation. A `loadWebsites` or `clearStatus` that runs while a subscribe awaits its response is covered separately, by `HookFlow.SubscribeWithInterleavedOpsKeepsInvariant`. A subscribe started while another is pending is not covered.
- Overlapping `subscribe` calls are not modelled as interleavings. Their effect on the record appears only as the one concrete order in `StoreUpdates.OverlappingAttemptsLeaveStaleMessage`.
- The `console.error` logging in `loadWebsites` (src/hooks/useSubscription.js:19) is not modelled.
- Store reactivity is not modelled. The library store and the observable that republishes the record to the component (src/hooks/useSubscription.js:12, 43-52) are left out. An update is a plain replacement of the record.
- The form component, its rendering and the test harnesses are not part of this model.
