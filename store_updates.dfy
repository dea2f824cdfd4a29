/** The subscription store's record and its update functions.  Four
    updates replace the whole record by a spread copy with some fields
    overwritten; the reset installs the initial record itself.  Here each is
    a total function from the old record to the new one.  No update validates its argument, so the record and the
    message are Options: JavaScript lets `null` through. */
module StoreUpdates {
  import opened Wrappers

  datatype Website = Website(id: int, url: string)

  /** The in-flight attempt shown optimistically: `{ websiteId, email }`. */
  datatype Subscription = Subscription(websiteId: int, email: string)

  /** The two non-null values of `subscriptionStatus`: 'success' and 'error'. */
  datatype Status = Success | Error

  datatype State = State(
    websites: seq<Website>,
    isLoadingWebsites: bool,
    isSubscribing: bool,
    subscriptionStatus: Option<Status>,
    errorMessage: Option<string>,
    optimisticSubscription: Option<Subscription>)

  /** The website list and its (never raised) loading flag agree. */
  predicate SameWebsites(a: State, b: State) {
    a.websites == b.websites && a.isLoadingWebsites == b.isLoadingWebsites
  }

  /** The four fields describing the subscription attempt agree. */
  predicate SameAttempt(a: State, b: State) {
    && a.isSubscribing == b.isSubscribing
    && a.subscriptionStatus == b.subscriptionStatus
    && a.errorMessage == b.errorMessage
    && a.optimisticSubscription == b.optimisticSubscription
  }

  /** `errorMessage` is non-null exactly when the status is 'error'. */
  predicate StatusInvariant(s: State) {
    s.errorMessage.Some? <==> s.subscriptionStatus == Some(Error)
  }

  /** An attempt is recorded exactly while one is in flight. */
  predicate OptimisticInvariant(s: State) {
    s.optimisticSubscription.Some? <==> s.isSubscribing
  }

  function Initial(): (r: State)
    ensures r.websites == [] && !r.isLoadingWebsites && !r.isSubscribing
    ensures r.subscriptionStatus == None && r.errorMessage == None && r.optimisticSubscription == None
  {
    State([], false, false, None, None, None)
  }

  /** `setWebsites(websites)`: installs the list and clears the loading flag. */
  function SetWebsites(s: State, websites: seq<Website>): (r: State)
    ensures r.websites == websites && !r.isLoadingWebsites
    ensures SameAttempt(r, s)
  {
    s.(websites := websites, isLoadingWebsites := false)
  }

  /** `startSubscription(subscription)`: shows success before the server answers. */
  function StartSubscription(s: State, subscription: Option<Subscription>): (r: State)
    ensures r.isSubscribing && r.subscriptionStatus == Some(Success)
    ensures r.errorMessage == None && r.optimisticSubscription == subscription
    ensures SameWebsites(r, s)
  {
    s.(isSubscribing := true, subscriptionStatus := Some(Success), errorMessage := None,
       optimisticSubscription := subscription)
  }

  /** `subscriptionSuccess()`: confirms the attempt; `errorMessage` is left as it was. */
  function SubscriptionSuccess(s: State): (r: State)
    ensures !r.isSubscribing && r.subscriptionStatus == Some(Success) && r.optimisticSubscription == None
    ensures r.errorMessage == s.errorMessage
    ensures SameWebsites(r, s)
  {
    s.(isSubscribing := false, subscriptionStatus := Some(Success), optimisticSubscription := None)
  }

  /** `subscriptionError(message)`: reverts the optimistic success into an error. */
  function SubscriptionError(s: State, message: Option<string>): (r: State)
    ensures !r.isSubscribing && r.subscriptionStatus == Some(Error) && r.optimisticSubscription == None
    ensures r.errorMessage == message
    ensures SameWebsites(r, s)
  {
    s.(isSubscribing := false, subscriptionStatus := Some(Error), errorMessage := message,
       optimisticSubscription := None)
  }

  /** `resetStore()`: the initial record, whatever came before. */
  function ResetStore(s: State): (r: State)
    ensures r == Initial()
  {
    Initial()
  }

  lemma InitialSatisfiesInvariants()
    ensures StatusInvariant(Initial()) && OptimisticInvariant(Initial())
  {
  }

  lemma ResetStoreIdempotent(s: State)
    ensures ResetStore(ResetStore(s)) == ResetStore(s)
    ensures StatusInvariant(ResetStore(s)) && OptimisticInvariant(ResetStore(s))
  {
  }

  /** One call of an exported store function, with its argument. */
  datatype Update =
    | SetWebsitesUpdate(websites: seq<Website>)
    | StartUpdate(subscription: Option<Subscription>)
    | SuccessUpdate
    | ErrorUpdate(message: Option<string>)
    | ResetUpdate

  /** The record and the message passed in are not null. */
  predicate NonNullArguments(u: Update) {
    match u
    case StartUpdate(subscription) => subscription.Some?
    case ErrorUpdate(message) => message.Some?
    case _ => true
  }

  function Apply(s: State, u: Update): State {
    match u
    case SetWebsitesUpdate(websites) => SetWebsites(s, websites)
    case StartUpdate(subscription) => StartSubscription(s, subscription)
    case SuccessUpdate => SubscriptionSuccess(s)
    case ErrorUpdate(message) => SubscriptionError(s, message)
    case ResetUpdate => ResetStore(s)
  }

  /** The record after the store functions are called in order. */
  function ApplyAll(s: State, us: seq<Update>): State
    decreases |us|
  {
    if us == [] then s else ApplyAll(Apply(s, us[0]), us[1..])
  }

  /** Any single update with non-null arguments keeps the optimistic invariant. */
  lemma ApplyKeepsOptimisticInvariant(s: State, u: Update)
    requires OptimisticInvariant(s) && NonNullArguments(u)
    ensures OptimisticInvariant(Apply(s, u))
  {
  }

  /** The optimistic invariant holds after any sequence of store calls with
      non-null arguments, from any record where it holds (the initial one). */
  lemma {:induction false} ApplyAllKeepsOptimisticInvariant(s: State, us: seq<Update>)
    requires OptimisticInvariant(s)
    requires forall i :: 0 <= i < |us| ==> NonNullArguments(us[i])
    ensures OptimisticInvariant(ApplyAll(s, us))
    decreases |us|
  {
    if us != [] {
      ApplyKeepsOptimisticInvariant(s, us[0]);
      ApplyAllKeepsOptimisticInvariant(Apply(s, us[0]), us[1..]);
    }
  }

  /** The same property stated for the literal record the store starts with. */
  lemma OptimisticInvariantFromInitial(us: seq<Update>)
    requires forall i :: 0 <= i < |us| ==> NonNullArguments(us[i])
    ensures OptimisticInvariant(ApplyAll(Initial(), us))
  {
    ApplyAllKeepsOptimisticInvariant(Initial(), us);
  }

  /** `startSubscription(null)` records no attempt although one is in flight. */
  lemma NullSubscriptionBreaksOptimisticInvariant(s: State)
    ensures !OptimisticInvariant(StartSubscription(s, None))
  {
  }

  /** `subscriptionError(null)` shows 'error' with no message. */
  lemma NullMessageBreaksStatusInvariant(s: State)
    ensures !StatusInvariant(SubscriptionError(s, None))
  {
  }

  /** `subscriptionSuccess()` keeps the status invariant exactly when no
      message was left over: it does not clear `errorMessage`. */
  lemma SuccessKeepsStatusInvariantIff(s: State)
    ensures StatusInvariant(SubscriptionSuccess(s)) <==> s.errorMessage == None
  {
  }

  /** Calling the store functions in the order two overlapping subscribe
      calls can produce (A starts, B starts, A fails, B succeeds) leaves a
      stale message beside a 'success' status. */
  lemma OverlappingAttemptsLeaveStaleMessage(a: Subscription, b: Subscription, m: string)
    ensures var s := ApplyAll(Initial(), [StartUpdate(Some(a)), StartUpdate(Some(b)), ErrorUpdate(Some(m)), SuccessUpdate]);
      && s.subscriptionStatus == Some(Success) && s.errorMessage == Some(m)
      && !StatusInvariant(s)
  {
    var us := [StartUpdate(Some(a)), StartUpdate(Some(b)), ErrorUpdate(Some(m)), SuccessUpdate];
    var s1 := StartSubscription(Initial(), Some(a));
    var s2 := StartSubscription(s1, Some(b));
    var s3 := SubscriptionError(s2, Some(m));
    assert us[1..] == [StartUpdate(Some(b)), ErrorUpdate(Some(m)), SuccessUpdate];
    assert us[1..][1..] == [ErrorUpdate(Some(m)), SuccessUpdate];
    assert us[1..][1..][1..] == [SuccessUpdate];
    assert ApplyAll(Initial(), us) == ApplyAll(s1, us[1..]);
    assert ApplyAll(s1, us[1..]) == ApplyAll(s2, us[1..][1..]);
    assert ApplyAll(s2, us[1..][1..]) == ApplyAll(s3, us[1..][1..][1..]);
  }
}
