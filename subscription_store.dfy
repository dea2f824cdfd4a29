/** The store object shared by the whole application: one mutable record,
    replaced by each exported function. */
module SubscriptionStore {
  import opened Wrappers
  import U = StoreUpdates

  class Store {
    var state: U.State

    constructor ()
      ensures state == U.Initial()
    {
      state := U.Initial();
    }

    method SetWebsites(websites: seq<U.Website>)
      modifies this
      ensures state == U.SetWebsites(old(state), websites)
      ensures state.websites == websites && !state.isLoadingWebsites
      ensures U.SameAttempt(state, old(state))
    {
      state := U.SetWebsites(state, websites);
    }

    method StartSubscription(subscription: Option<U.Subscription>)
      modifies this
      ensures state == U.StartSubscription(old(state), subscription)
      ensures U.SameWebsites(state, old(state))
      ensures U.StatusInvariant(state)
      ensures subscription.Some? ==> U.OptimisticInvariant(state)
    {
      state := U.StartSubscription(state, subscription);
    }

    method SubscriptionSuccess()
      modifies this
      ensures state == U.SubscriptionSuccess(old(state))
      ensures U.SameWebsites(state, old(state))
      ensures U.OptimisticInvariant(state)
      ensures U.StatusInvariant(state) <==> old(state).errorMessage == None
    {
      state := U.SubscriptionSuccess(state);
    }

    method SubscriptionError(message: Option<string>)
      modifies this
      ensures state == U.SubscriptionError(old(state), message)
      ensures U.SameWebsites(state, old(state))
      ensures U.OptimisticInvariant(state)
      ensures U.StatusInvariant(state) <==> message.Some?
    {
      state := U.SubscriptionError(state, message);
    }

    method ResetStore()
      modifies this
      ensures state == U.Initial()
    {
      state := U.ResetStore(state);
    }
  }
}
