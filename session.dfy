/**
 * The session context: who is signed in, and whether the first lookup of the
 * persisted session has finished. The provider starts out loading with no
 * session, lets the one initial fetch settle both fields, and afterwards lets
 * every auth-state change replace the session wholesale.
 */
module SessionContext {
  import opened Optional

  /** The part of the backend's user record this client reads. `username` is
      `user_metadata.username`, absent when the profile has none. */
  datatype User = User(id: string, email: string, username: Option<string>)

  /** A backend session; its `user` is read through optional chaining, so it
      is kept optional. */
  datatype Session = Session(user: Option<User>)

  /** `session?.user`, present only for a present session that carries a user. */
  function UserOf(s: Option<Session>): (u: Option<User>)
    ensures u.Some? <==> s.Some? && s.value.user.Some?
    ensures u.Some? ==> u == s.value.user
  {
    match s
    case None => None
    case Some(session) => session.user
  }

  /** The provider's state: the two React state fields, whether the auth
      listener handed back a subscription, and how many times teardown called
      its `unsubscribe`. */
  datatype Store = Store(session: Option<Session>, loading: bool, subscribed: bool, unsubscribes: nat)

  /** What can happen to the provider, in the order it happens. */
  datatype StoreEvent =
    | Fetched(fetched: Option<Session>)      // the getSession() promise settled
    | AuthChanged(changed: Option<Session>)  // the onAuthStateChange callback fired
    | Teardown                               // the effect's cleanup ran

  /** The state right after mounting: no session, loading, listener registered. */
  function Initial(subscribed: bool): (s: Store)
    ensures s.session.None? && s.loading && s.unsubscribes == 0 && s.subscribed == subscribed
  {
    Store(None, true, subscribed, 0)
  }

  function StoreStep(s: Store, e: StoreEvent): (t: Store)
    ensures e.Fetched? ==> t.session == e.fetched && !t.loading
    ensures e.AuthChanged? ==> t.session == e.changed && t.loading == s.loading
    ensures e.Teardown? ==> t.session == s.session && t.loading == s.loading
    ensures t.subscribed == s.subscribed
    ensures t.unsubscribes == s.unsubscribes + (if e.Teardown? && s.subscribed then 1 else 0)
  {
    match e
    case Fetched(fetched) => s.(session := fetched, loading := false)
    case AuthChanged(changed) => s.(session := changed)
    case Teardown => if s.subscribed then s.(unsubscribes := s.unsubscribes + 1) else s
  }

  function StoreRun(s: Store, es: seq<StoreEvent>): Store
    decreases |es|
  {
    if es == [] then s else StoreRun(StoreStep(s, es[0]), es[1..])
  }

  /** Loading only ever goes from true to false: the one setter call writes false. */
  lemma {:induction false} LoadingMonotone(s: Store, es: seq<StoreEvent>)
    requires !s.loading
    ensures !StoreRun(s, es).loading
    decreases |es|
  {
    if es != [] {
      LoadingMonotone(StoreStep(s, es[0]), es[1..]);
    }
  }

  predicate HasFetch(es: seq<StoreEvent>)
  {
    exists i :: 0 <= i < |es| && es[i].Fetched?
  }

  /** From any starting state, the provider is still loading after a trace
      exactly when the trace holds no resolution of the initial fetch and it
      was loading before. */
  lemma {:induction false} LoadingUntilFetched(s: Store, es: seq<StoreEvent>)
    ensures StoreRun(s, es).loading <==> s.loading && !HasFetch(es)
    decreases |es|
  {
    if es != [] {
      var t := StoreStep(s, es[0]);
      LoadingUntilFetched(t, es[1..]);
      if es[0].Fetched? {
        LoadingMonotone(t, es[1..]);
      } else {
        assert HasFetch(es) <==> HasFetch(es[1..]) by {
          if HasFetch(es) {
            var i :| 0 <= i < |es| && es[i].Fetched?;
            assert es[1..][i - 1].Fetched?;
          }
          if HasFetch(es[1..]) {
            var i :| 0 <= i < |es[1..]| && es[1..][i].Fetched?;
            assert es[i + 1].Fetched?;
          }
        }
      }
    }
  }

  function CountTeardowns(es: seq<StoreEvent>): nat
    decreases |es|
  {
    if es == [] then 0 else (if es[0].Teardown? then 1 else 0) + CountTeardowns(es[1..])
  }

  /** Teardown calls `unsubscribe` once per cleanup, and never when the
      listener gave back no subscription. */
  lemma {:induction false} UnsubscribeOnlyWithSubscription(s: Store, es: seq<StoreEvent>)
    ensures StoreRun(s, es).unsubscribes == s.unsubscribes + (if s.subscribed then CountTeardowns(es) else 0)
    ensures StoreRun(s, es).subscribed == s.subscribed
    decreases |es|
  {
    if es != [] {
      UnsubscribeOnlyWithSubscription(StoreStep(s, es[0]), es[1..]);
    }
  }

  /** Once the fetch resolves, the session is the one that the last event
      carrying a session delivered; teardown never touches it. */
  lemma {:induction false} SessionIsLastDelivered(s: Store, es: seq<StoreEvent>, k: nat)
    requires k < |es| && !es[k].Teardown?
    requires forall j :: k < j < |es| ==> es[j].Teardown?
    ensures StoreRun(s, es).session == (if es[k].Fetched? then es[k].fetched else es[k].changed)
    decreases |es|
  {
    if k == 0 {
      TeardownsKeepSession(StoreStep(s, es[0]), es[1..]);
    } else {
      SessionIsLastDelivered(StoreStep(s, es[0]), es[1..], k - 1);
    }
  }

  lemma {:induction false} TeardownsKeepSession(s: Store, es: seq<StoreEvent>)
    requires forall j :: 0 <= j < |es| ==> es[j].Teardown?
    ensures StoreRun(s, es).session == s.session
    decreases |es|
  {
    if es != [] {
      TeardownsKeepSession(StoreStep(s, es[0]), es[1..]);
    }
  }

  /** The provider component, its state updated in place by the callbacks it
      registers on mount. */
  class SessionProvider {
    var session: Option<Session>
    var loading: bool
    var subscribed: bool
    var unsubscribes: nat

    function State(): Store
      reads this
    {
      Store(session, loading, subscribed, unsubscribes)
    }

    /** Mounting: `useState(null)`, `useState(true)`, then the effect starts
        the fetch and registers the auth listener, which hands back a
        subscription or not. */
    constructor (listenerSubscribed: bool)
      ensures State() == Initial(listenerSubscribed)
    {
      session := None;
      loading := true;
      subscribed := listenerSubscribed;
      unsubscribes := 0;
    }

    /** The initial getSession() settles: store its session, stop loading. */
    method SessionFetched(fetched: Option<Session>)
      modifies this
      ensures State() == StoreStep(old(State()), Fetched(fetched))
    {
      session := fetched;
      loading := false;
    }

    /** An auth-state event: replace the session, leave loading alone. */
    method AuthStateChanged(changed: Option<Session>)
      modifies this
      ensures State() == StoreStep(old(State()), AuthChanged(changed))
    {
      session := changed;
    }

    /** The effect's cleanup: `subscription && subscription.unsubscribe()`. */
    method Unmount()
      modifies this
      ensures State() == StoreStep(old(State()), Teardown)
    {
      if subscribed {
        unsubscribes := unsubscribes + 1;
      }
    }
  }
}
