/**
 * The route guard. A page declares which kind of visitor it keeps out
 * (`prevent`: "user" keeps signed-in users out, "guest" keeps anonymous
 * visitors out); the guard reads the session context and either renders the
 * page, renders it under a loading overlay, redirects, or renders nothing.
 */
module Wrapper {
  import opened Optional
  import opened SessionContext

  /** What the guard renders. */
  datatype View =
    | OverlayAndChildren     // spinner overlay with the page underneath it
    | Navigate(to: string)   // a redirect
    | Children               // the page alone
    | Nothing                // the function returns undefined

  /** The guard's decision; a session counts as present when it is not null. */
  function Gate(loading: bool, session: Option<Session>, prevent: string): (v: View)
    ensures loading <==> v == OverlayAndChildren
    ensures v.Navigate? ==> !loading && (v.to == "/" || v.to == "/login")
    ensures v == Navigate("/") <==> !loading && prevent == "user" && session.Some?
    ensures v == Navigate("/login") <==> !loading && prevent == "guest" && session.None?
    ensures v == Children <==>
      !loading && ((prevent == "user" && session.None?) || (prevent == "guest" && session.Some?))
    ensures v == Nothing <==> !loading && prevent != "user" && prevent != "guest"
  {
    if loading then OverlayAndChildren
    else if prevent == "user" then (if session.Some? then Navigate("/") else Children)
    else if prevent == "guest" then (if session.Some? then Children else Navigate("/login"))
    else Nothing
  }

  /** The guard as it sees the provider's state. */
  function GateOn(s: Store, prevent: string): View
  {
    Gate(s.loading, s.session, prevent)
  }

  /** Mounted under a freshly created provider, a guarded page shows the
      overlay until the initial fetch resolves and never again afterwards,
      whatever auth-state changes or teardowns follow. */
  lemma OverlayExactlyUntilFetched(subscribed: bool, es: seq<StoreEvent>, prevent: string)
    ensures GateOn(StoreRun(Initial(subscribed), es), prevent) == OverlayAndChildren <==> !HasFetch(es)
  {
    LoadingUntilFetched(Initial(subscribed), es);
  }

  /** After the fetch has resolved, a page that keeps guests out renders
      exactly when the stored session is present, and redirects to sign-in
      otherwise. */
  lemma GuestGateFollowsSession(subscribed: bool, es: seq<StoreEvent>)
    requires HasFetch(es)
    ensures var s := StoreRun(Initial(subscribed), es);
      (GateOn(s, "guest") == Children <==> s.session.Some?) &&
      (GateOn(s, "guest") == Navigate("/login") <==> s.session.None?)
  {
    LoadingUntilFetched(Initial(subscribed), es);
  }
}
