/** What each operation of the subscription hook does to the store's record,
    with the result of the API call given as a parameter: `Ok` when the
    promise resolved, `Err(message)` with the error's `message` when it
    rejected.  A subscribe is the optimistic start followed by the
    settlement. */
module HookFlow {
  import opened Wrappers
  import opened StoreUpdates

  /** The invariants the hook keeps: the two from the store's design, and
      the loading flag that no operation ever raises. */
  predicate HookInvariant(s: State) {
    StatusInvariant(s) && OptimisticInvariant(s) && !s.isLoadingWebsites
  }

  /** `loadWebsites()`: installs the fetched list; a failure is only logged. */
  function LoadWebsites(s: State, fetched: Result<seq<Website>, string>): (r: State)
    ensures fetched.Ok? ==> r.websites == fetched.value && !r.isLoadingWebsites && SameAttempt(r, s)
    ensures fetched.Err? ==> r == s
  {
    match fetched
    case Ok(websites) => SetWebsites(s, websites)
    case Err(_) => s
  }

  /** The record a caller sees as soon as `subscribe(websiteId, email)` is
      called, before the request settles. */
  function Pending(s: State, websiteId: int, email: string): (r: State)
    ensures r.subscriptionStatus == Some(Success) && r.isSubscribing
    ensures r.optimisticSubscription == Some(Subscription(websiteId, email))
    ensures r.errorMessage == None
    ensures SameWebsites(r, s)
  {
    StartSubscription(s, Some(Subscription(websiteId, email)))
  }

  /** The continuation of `subscribe` after the request settles. */
  function Settle<R>(pending: State, response: Result<R, string>): (r: State)
    ensures !r.isSubscribing && r.optimisticSubscription == None
    ensures SameWebsites(r, pending)
    ensures response.Ok? ==> r.subscriptionStatus == Some(Success) && r.errorMessage == pending.errorMessage
    ensures response.Err? ==> r.subscriptionStatus == Some(Error) && r.errorMessage == Some(response.error)
  {
    match response
    case Ok(_) => SubscriptionSuccess(pending)
    case Err(message) => SubscriptionError(pending, Some(message))
  }

  /** `subscribe(websiteId, email)` once settled.  The outcome alone decides
      every attempt field; the list and its flag are never touched. */
  function Subscribe<R>(s: State, websiteId: int, email: string, response: Result<R, string>): (r: State)
    ensures !r.isSubscribing && r.optimisticSubscription == None
    ensures SameWebsites(r, s)
    ensures response.Ok? ==> r.subscriptionStatus == Some(Success) && r.errorMessage == None
    ensures response.Err? ==> r.subscriptionStatus == Some(Error) && r.errorMessage == Some(response.error)
  {
    Settle(Pending(s, websiteId, email), response)
  }

  /** `clearStatus()`: back to no status and no message, nothing else touched. */
  function ClearStatus(s: State): (r: State)
    ensures r.subscriptionStatus == None && r.errorMessage == None
    ensures SameWebsites(r, s)
    ensures r.isSubscribing == s.isSubscribing && r.optimisticSubscription == s.optimisticSubscription
  {
    s.(subscriptionStatus := None, errorMessage := None)
  }

  /** The optimistic record satisfies both invariants, whatever came before. */
  lemma PendingSatisfiesInvariants(s: State, websiteId: int, email: string)
    ensures StatusInvariant(Pending(s, websiteId, email))
    ensures OptimisticInvariant(Pending(s, websiteId, email))
    ensures HookInvariant(s) ==> HookInvariant(Pending(s, websiteId, email))
  {
  }

  /** A settled subscribe re-establishes both invariants from any record,
      even one where an earlier run of store calls broke them. */
  lemma SubscribeRestoresInvariants<R>(s: State, websiteId: int, email: string, response: Result<R, string>)
    ensures StatusInvariant(Subscribe(s, websiteId, email, response))
    ensures OptimisticInvariant(Subscribe(s, websiteId, email, response))
  {
  }

  /** The settled record depends only on the list and the outcome: two
      records with the same list give the same result. */
  lemma SubscribeForgetsEarlierAttempts<R>(s: State, t: State, websiteId: int, email: string, response: Result<R, string>)
    requires SameWebsites(s, t)
    ensures Subscribe(s, websiteId, email, response) == Subscribe(t, websiteId, email, response)
  {
  }

  /** After a settled attempt, `clearStatus()` returns to the idle state. */
  lemma ClearAfterSubscribeIsIdle<R>(s: State, websiteId: int, email: string, response: Result<R, string>)
    ensures var r := ClearStatus(Subscribe(s, websiteId, email, response));
      && r.subscriptionStatus == None && r.errorMessage == None
      && !r.isSubscribing && r.optimisticSubscription == None
      && SameWebsites(r, s)
  {
  }

  /** One hook operation, with the outcome of its API call. */
  datatype HookOp =
    | LoadOp(fetched: Result<seq<Website>, string>)
    | SubscribeOp(websiteId: int, email: string, response: Result<(), string>)
    | ClearOp

  function Step(s: State, op: HookOp): State {
    match op
    case LoadOp(fetched) => LoadWebsites(s, fetched)
    case SubscribeOp(websiteId, email, response) => Subscribe(s, websiteId, email, response)
    case ClearOp => ClearStatus(s)
  }

  /** The record after the operations run one after another, each subscribe
      settling before the next operation starts. */
  function Run(s: State, ops: seq<HookOp>): State
    decreases |ops|
  {
    if ops == [] then s else Run(Step(s, ops[0]), ops[1..])
  }

  lemma StepKeepsInvariant(s: State, op: HookOp)
    requires HookInvariant(s)
    ensures HookInvariant(Step(s, op))
  {
  }

  /** The invariants hold after every sequence of hook operations. */
  lemma {:induction false} RunKeepsInvariant(s: State, ops: seq<HookOp>)
    requires HookInvariant(s)
    ensures HookInvariant(Run(s, ops))
    decreases |ops|
  {
    if ops != [] {
      StepKeepsInvariant(s, ops[0]);
      RunKeepsInvariant(Step(s, ops[0]), ops[1..]);
    }
  }

  /** From the initial record: `errorMessage` is non-null exactly when the
      status is 'error', an attempt is recorded exactly while one is in
      flight, and the loading flag stays false. */
  lemma SessionFromInitial(ops: seq<HookOp>)
    ensures HookInvariant(Run(Initial(), ops))
  {
    RunKeepsInvariant(Initial(), ops);
  }

  /** Hook operations never undo a loaded list except by loading another:
      the list after a run is the last one fetched successfully, or the
      one before the run. */
  function LastLoaded(current: seq<Website>, ops: seq<HookOp>): seq<Website>
    decreases |ops|
  {
    if ops == [] then current
    else if ops[0].LoadOp? && ops[0].fetched.Ok? then LastLoaded(ops[0].fetched.value, ops[1..])
    else LastLoaded(current, ops[1..])
  }

  lemma {:induction false} RunWebsitesAreLastLoaded(s: State, ops: seq<HookOp>)
    ensures Run(s, ops).websites == LastLoaded(s.websites, ops)
    decreases |ops|
  {
    if ops != [] {
      RunWebsitesAreLastLoaded(Step(s, ops[0]), ops[1..]);
    }
  }

  /** Operations that can run while a subscribe is awaiting its response:
      a (re)load of the list and `clearStatus()`. */
  predicate RunsDuringAwait(op: HookOp) {
    op.LoadOp? || op.ClearOp?
  }

  /** Loads and clears during the await keep the invariants and leave no
      message behind. */
  lemma {:induction false} AwaitOpsKeepNoMessage(p: State, ops: seq<HookOp>)
    requires HookInvariant(p) && p.errorMessage == None
    requires forall i :: 0 <= i < |ops| ==> RunsDuringAwait(ops[i])
    ensures HookInvariant(Run(p, ops)) && Run(p, ops).errorMessage == None
    decreases |ops|
  {
    if ops != [] {
      StepKeepsInvariant(p, ops[0]);
      AwaitOpsKeepNoMessage(Step(p, ops[0]), ops[1..]);
    }
  }

  /** The invariants also hold when loads and clears run between the
      optimistic start of a subscribe and its settlement. */
  lemma SubscribeWithInterleavedOpsKeepsInvariant<R>(s: State, websiteId: int, email: string,
                                                    ops: seq<HookOp>, response: Result<R, string>)
    requires HookInvariant(s)
    requires forall i :: 0 <= i < |ops| ==> RunsDuringAwait(ops[i])
    ensures HookInvariant(Settle(Run(Pending(s, websiteId, email), ops), response))
  {
    AwaitOpsKeepNoMessage(Pending(s, websiteId, email), ops);
  }
}
