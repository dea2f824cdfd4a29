/** The subscription hook as a controller over the shared store: each
    operation updates the store in sequence, with the outcome of the API
    call passed in. */
module UseSubscription {
  import opened Wrappers
  import U = StoreUpdates
  import H = HookFlow
  import opened SubscriptionStore

  class Controller {
    const store: Store

    constructor (store: Store)
      ensures this.store == store
      ensures store.state == U.Initial() ==> Valid()
    {
      this.store := store;
    }

    /** The store's record satisfies the hook's invariants.  The operations
        accept any record and keep these when they held before. */
    predicate Valid()
      reads this, store
    {
      H.HookInvariant(store.state)
    }

    /** `loadWebsites()` once `websiteApi.getAll()` has settled with `fetched`. */
    method LoadWebsites(fetched: Result<seq<U.Website>, string>)
      modifies store
      ensures old(Valid()) ==> Valid()
      ensures store.state == H.LoadWebsites(old(store.state), fetched)
    {
      if fetched.Ok? {
        store.SetWebsites(fetched.value);
      }
    }

    /** `subscribe(websiteId, email)` where `subscriptionApi.subscribe`
        settles with `response`.  `pending` is the record at the await,
        which a caller sees before the request settles. */
    method Subscribe<R>(websiteId: int, email: string, response: Result<R, string>) returns (ghost pending: U.State)
      modifies store
      ensures old(Valid()) ==> Valid()
      ensures pending == H.Pending(old(store.state), websiteId, email)
      ensures pending.subscriptionStatus == Some(U.Success) && pending.isSubscribing
      ensures store.state == H.Subscribe(old(store.state), websiteId, email, response)
      ensures U.StatusInvariant(store.state) && U.OptimisticInvariant(store.state)
    {
      store.StartSubscription(Some(U.Subscription(websiteId, email)));
      pending := store.state;
      H.SubscribeRestoresInvariants(old(store.state), websiteId, email, response);
      match response
      case Ok(_) =>
        store.SubscriptionSuccess();
      case Err(message) =>
        store.SubscriptionError(Some(message));
    }

    /** `clearStatus()`: a direct update of the store's record. */
    method ClearStatus()
      modifies store
      ensures old(Valid()) ==> Valid()
      ensures store.state == H.ClearStatus(old(store.state))
    {
      store.state := H.ClearStatus(store.state);
    }
  }
}
