/**
 * The customer-portal entry page (src/pages/auth/PortalInit.tsx): with a
 * token in the route, clear the client cache, then hand the token to the
 * client, then show the portal.
 */
module PortalInit {
  import opened Wrappers

  /** What the page asks of the outside world, in order. */
  datatype Event = ClearStore | AccessCustomerPortal(token: string)

  datatype View = Spinner | CustomerPortal

  function ClearStoreCount(events: seq<Event>): nat {
    if events == [] then 0
    else ClearStoreCount(events[..|events| - 1]) + if events[|events| - 1].ClearStore? then 1 else 0
  }

  function AccessCount(events: seq<Event>): nat {
    if events == [] then 0
    else AccessCount(events[..|events| - 1]) + if events[|events| - 1].AccessCustomerPortal? then 1 else 0
  }

  /** Every `onAccessCustomerPortal` is preceded by a `clearStore` that it is the settlement of. */
  predicate AccessAfterClear(events: seq<Event>) {
    forall n :: 0 <= n <= |events| ==> AccessCount(events[..n]) <= ClearStoreCount(events[..n])
  }

  lemma CountsAppend(events: seq<Event>, e: Event)
    ensures ClearStoreCount(events + [e]) == ClearStoreCount(events) + if e.ClearStore? then 1 else 0
    ensures AccessCount(events + [e]) == AccessCount(events) + if e.AccessCustomerPortal? then 1 else 0
  {
    assert (events + [e])[..|events|] == events;
  }

  /** Appending a call that keeps the access count within the clear count keeps the ordering. */
  lemma {:induction false} AccessAfterClearAppend(events: seq<Event>, e: Event)
    requires AccessAfterClear(events)
    requires AccessCount(events + [e]) <= ClearStoreCount(events + [e])
    ensures AccessAfterClear(events + [e])
  {
    var all := events + [e];
    forall n | 0 <= n <= |all|
      ensures AccessCount(all[..n]) <= ClearStoreCount(all[..n])
    {
      if n <= |events| {
        assert all[..n] == events[..n];
      } else {
        assert all[..n] == all;
      }
    }
  }

  /** One mounted `PortalInit`: its route token, its `isReady` state and the calls it made. */
  class Page {
    const token: Option<string>
    var isReady: bool
    /** `clearStore` calls that have not settled yet, with the token each effect run captured. */
    var pending: seq<string>
    ghost var events: seq<Event>

    ghost predicate Valid()
      reads this
    {
      && ClearStoreCount(events) == AccessCount(events) + |pending|
      && AccessAfterClear(events)
      && (isReady <==> AccessCount(events) > 0)
      && (forall k :: 0 <= k < |pending| ==> HasToken() && pending[k] == token.value)
      && (forall t :: AccessCustomerPortal(t) in events ==> HasToken() && t == token.value)
    }

    predicate HasToken() {
      token.Some? && token.value != ""
    }

    constructor(token: Option<string>)
      ensures this.token == token && !isReady && pending == [] && events == []
      ensures Valid()
    {
      this.token := token;
      isReady := false;
      pending := [];
      events := [];
    }

    /** The effect: with a token, start clearing the cache; without one, do nothing. */
    method RunEffect()
      requires Valid()
      modifies this
      ensures Valid()
      ensures isReady == old(isReady)
      ensures HasToken() ==> events == old(events) + [ClearStore] && pending == old(pending) + [token.value]
      ensures !HasToken() ==> events == old(events) && pending == old(pending)
    {
      if HasToken() {
        CountsAppend(events, ClearStore);
        AccessAfterClearAppend(events, ClearStore);
        ghost var before := events;
        events := events + [ClearStore];
        pending := pending + [token.value];
        assert forall t :: AccessCustomerPortal(t) in events ==> AccessCustomerPortal(t) in before;
      }
    }

    /**
     * The `finally` of clearing number `i`: whether the clearing resolved
     * or was rejected, the token is handed over and the page becomes ready.
     */
    method SettleClearStore(i: nat, rejected: bool)
      requires Valid()
      requires i < |pending|
      modifies this
      ensures Valid()
      ensures isReady
      ensures events == old(events) + [AccessCustomerPortal(old(pending)[i])]
      ensures pending == old(pending)[..i] + old(pending)[i + 1..]
    {
      var t := pending[i];
      CountsAppend(events, AccessCustomerPortal(t));
      AccessAfterClearAppend(events, AccessCustomerPortal(t));
      ghost var before := pending;
      events := events + [AccessCustomerPortal(t)];
      pending := pending[..i] + pending[i + 1..];
      isReady := true;
      assert forall k :: 0 <= k < |pending| ==> pending[k] == if k < i then before[k] else before[k + 1];
    }

    /** The render: the portal only once there is a token and the page is ready. */
    function Render(): (v: View)
      reads this
      ensures v == CustomerPortal <==> HasToken() && isReady
    {
      if !HasToken() || !isReady then Spinner else CustomerPortal
    }
  }

  /** Without a token the page never calls anything and never leaves the spinner. */
  method NoTokenStaysOnSpinner(effectRuns: nat) returns (page: Page)
    ensures page.token == None && page.events == [] && page.Render() == Spinner
  {
    page := new Page(None);
    var k := 0;
    while k < effectRuns
      invariant page.Valid() && page.token == None && page.events == [] && page.pending == [] && !page.isReady
    {
      page.RunEffect();
      k := k + 1;
    }
  }

  /** With a token, one effect run whose clearing fails still ends with the portal shown and the token handed over. */
  method TokenThenFailedClear(token: string) returns (page: Page)
    requires token != ""
    ensures page.events == [ClearStore, AccessCustomerPortal(token)]
    ensures page.Render() == CustomerPortal
  {
    page := new Page(Some(token));
    assert page.Render() == Spinner;
    page.RunEffect();
    assert page.Render() == Spinner;
    page.SettleClearStore(0, true);
  }

  /** The portal is shown only after a token was handed over, which in turn followed a cache clear. */
  lemma PortalFollowsAccess(page: Page)
    requires page.Valid()
    requires page.Render() == CustomerPortal
    ensures AccessCount(page.events) > 0 && ClearStoreCount(page.events) > 0
  {
  }
}
