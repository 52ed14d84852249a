/**
 * The chat room. For the signed-in user the room opens one realtime channel,
 * keyed in presence by the user's id, and folds what arrives on it into the
 * view: broadcast "message" events are appended to the log, presence "sync"
 * events replace the online list. Sending only publishes; the sender's copy
 * shows up when the broadcast comes back. Every session change releases the
 * previous channel and, when there is a user, opens a fresh one.
 *
 * The backend is not modelled; what it delivers arrives as `RoomEvent`s and
 * what the room asks of it is recorded, in order, as `BackendCall`s.
 */
module Chat {
  import opened Optional
  import opened SessionContext

  const RoomName: string := "room_one"
  const SubscribedStatus: string := "SUBSCRIBED"
  const AnonymousPrefix: string := "AnonymousUser-"

  /** A broadcast message, as published and as kept in the log. */
  datatype MessagePayload = MessagePayload(
    id: int,                  // the sender's clock in milliseconds
    user: string,             // the sender's display name
    senderId: Option<string>,
    email: Option<string>,
    content: string,
    timestamp: string,        // the sender's clock as an ISO-8601 string
    isMine: bool)

  /** One own key of the presence-state object, with its tracked payloads;
      the sequence order is the order in which the keys are enumerated. */
  datatype PresenceEntry = PresenceEntry(key: string, metas: seq<string>)

  /** The channel the session effect opened, with the user its handlers close over. */
  datatype Channel = Channel(name: string, presenceKey: string, owner: User)

  /** What the room asks of the backend. */
  datatype BackendCall =
    | Open(channel: string, presenceKey: string)
    | Track(trackedId: string)
    | Publish(target: string, payload: MessagePayload)
    | Insert(row: string)
    | Unsubscribe(released: string)
    | SignOut

  /** The room's state: the session it last saw, its open channel, the three
      React state fields (`messages`, `usersOnline`, the input `message`) and
      the backend calls made so far. */
  datatype Room = Room(
    session: Option<Session>,
    channel: Option<Channel>,
    messages: seq<MessagePayload>,
    usersOnline: seq<string>,
    input: string,
    calls: seq<BackendCall>)

  datatype RoomEvent =
    | SessionChanged(next: Option<Session>)
    | Broadcast(payload: MessagePayload)
    | PresenceSync(state: seq<PresenceEntry>)
    | Status(status: string)
    | Typed(text: string)
    | Send(now: int, isoTime: string, publishThrows: bool)
    | SignOutPressed
    | Unmount

  // ---------------------------------------------------------------------------
  // Helpers the handlers use

  function Min(a: int, b: int): int { if a < b then a else b }

  /** `s.slice(0, n)` for a non-negative `n`. */
  function Prefix(s: string, n: nat): (p: string)
    ensures |p| == Min(n, |s|) && p <= s
  {
    s[..Min(n, |s|)]
  }

  /** JavaScript truthiness of an optional string. */
  predicate Truthy(o: Option<string>) { o.Some? && o.value != "" }

  /** `user_metadata.username || "AnonymousUser-" + id.slice(0, 4)`; without a
      user the optional chain yields `undefined`, which the template spells out. */
  function SenderName(user: Option<User>): (name: string)
    ensures user.Some? && Truthy(user.value.username) ==> name == user.value.username.value
    ensures user.Some? && !Truthy(user.value.username) ==>
      && AnonymousPrefix <= name
      && |name| == |AnonymousPrefix| + Min(4, |user.value.id|)
      && name[|AnonymousPrefix|..] <= user.value.id
    ensures user.None? ==> name == AnonymousPrefix + "undefined"
  {
    if user.Some? && Truthy(user.value.username) then user.value.username.value
    else AnonymousPrefix + (if user.Some? then Prefix(user.value.id, 4) else "undefined")
  }

  function IdOf(user: Option<User>): Option<string>
  {
    if user.Some? then Some(user.value.id) else None
  }

  function EmailOf(user: Option<User>): Option<string>
  {
    if user.Some? then Some(user.value.email) else None
  }

  /** The payload sendMessage publishes. */
  function Outgoing(session: Option<Session>, content: string, now: int, isoTime: string): (p: MessagePayload)
    ensures p.isMine && p.content == content && p.id == now && p.timestamp == isoTime
    ensures p.user == SenderName(UserOf(session))
    ensures p.senderId == IdOf(UserOf(session)) && p.email == EmailOf(UserOf(session))
  {
    var user := UserOf(session);
    MessagePayload(now, SenderName(user), IdOf(user), EmailOf(user), content, isoTime, true)
  }

  /** `{ ...payload, isMine: payload.email === user.email }` */
  function Received(p: MessagePayload, owner: User): (m: MessagePayload)
    ensures m.isMine <==> p.email == Some(owner.email)
    ensures m.(isMine := p.isMine) == p
  {
    p.(isMine := p.email == Some(owner.email))
  }

  /** `Object.keys(presenceState())` */
  function Keys(state: seq<PresenceEntry>): (ks: seq<string>)
    ensures |ks| == |state|
    ensures forall i :: 0 <= i < |state| ==> ks[i] == state[i].key
    decreases |state|
  {
    if state == [] then [] else [state[0].key] + Keys(state[1..])
  }

  predicate DistinctKeys(state: seq<PresenceEntry>)
  {
    forall i, j :: 0 <= i < j < |state| ==> state[i].key != state[j].key
  }

  predicate Distinct(s: seq<string>)
  {
    forall i, j :: 0 <= i < j < |s| ==> s[i] != s[j]
  }

  /** The cleanup of an effect run: it exists only if that run opened a channel. */
  function Released(channel: Option<Channel>): seq<BackendCall>
  {
    if channel.Some? then [Unsubscribe(channel.value.name)] else []
  }

  // ---------------------------------------------------------------------------
  // The room as a function of its events

  /** Before the first effect run. */
  const Mounted: Room := Room(None, None, [], [], "", [])

  /** The room after one event: the session effect (re-run on every session
      change, its cleanup first), the three channel handlers, typing,
      sending, sign-out and the unmount cleanup. */
  function Step(r: Room, e: RoomEvent): (t: Room)
    ensures r.calls <= t.calls
    ensures r.messages <= t.messages && |t.messages| <= |r.messages| + 1
    ensures |t.messages| == |r.messages| + 1 <==> e.Broadcast? && r.channel.Some?
    ensures t.usersOnline != r.usersOnline ==> e.SessionChanged? || (e.PresenceSync? && r.channel.Some?)
    ensures t.session != r.session ==> e.SessionChanged?
    ensures t.channel != r.channel ==> e.SessionChanged? || e.Unmount?
    ensures t.input != r.input ==> e.Typed? || e.Send?
  {
    match e
    case SessionChanged(next) =>
      var calls := r.calls + Released(r.channel);
      (match UserOf(next)
       case None => r.(session := next, channel := None, usersOnline := [], calls := calls)
       case Some(u) =>
         r.(session := next, channel := Some(Channel(RoomName, u.id, u)), calls := calls + [Open(RoomName, u.id)]))
    case Broadcast(p) =>
      if r.channel.None? then r
      else r.(messages := r.messages + [Received(p, r.channel.value.owner)])
    case PresenceSync(state) =>
      if r.channel.None? then r else r.(usersOnline := Keys(state))
    case Status(status) =>
      if r.channel.Some? && status == SubscribedStatus
      then r.(calls := r.calls + [Track(r.channel.value.owner.id)])
      else r
    case Typed(text) =>
      r.(input := text)
    case Send(now, isoTime, publishThrows) =>
      var published := [Publish(RoomName, Outgoing(r.session, r.input, now, isoTime))];
      r.(input := "", calls := r.calls + published + (if publishThrows then [] else [Insert(r.input)]))
    case SignOutPressed =>
      r.(calls := r.calls + [SignOut])
    case Unmount =>
      r.(channel := None, calls := r.calls + Released(r.channel))
  }

  function Run(r: Room, es: seq<RoomEvent>): Room
    decreases |es|
  {
    if es == [] then r else Run(Step(r, es[0]), es[1..])
  }

  lemma {:induction false} RunAppend(r: Room, a: seq<RoomEvent>, b: seq<RoomEvent>)
    ensures Run(r, a + b) == Run(Run(r, a), b)
    decreases |a|
  {
    if a != [] {
      assert (a + b)[0] == a[0] && (a + b)[1..] == a[1..] + b;
      RunAppend(Step(r, a[0]), a[1..], b);
    } else {
      assert a + b == b;
    }
  }

  // ---------------------------------------------------------------------------
  // One event at a time

  /** Without a user the online list is emptied, no channel is opened, and the
      previous channel, if any, is released exactly once; the log stays. */
  lemma SignedOutClearsPresence(r: Room, next: Option<Session>)
    requires UserOf(next).None?
    ensures var t := Step(r, SessionChanged(next));
      && t.usersOnline == [] && t.channel.None? && t.messages == r.messages
      && t.calls == r.calls + Released(r.channel)
  {
  }

  /** With a user the previous channel is released and one channel is opened,
      keyed by the user's id. */
  lemma SignedInOpensChannel(r: Room, next: Option<Session>)
    requires UserOf(next).Some?
    ensures var t := Step(r, SessionChanged(next)); var u := UserOf(next).value;
      && t.channel == Some(Channel(RoomName, u.id, u))
      && t.calls == r.calls + Released(r.channel) + [Open(RoomName, u.id)]
      && t.messages == r.messages && t.usersOnline == r.usersOnline
  {
  }

  /** A broadcast on the open channel appends exactly one entry at the end;
      its `isMine` compares emails and overrides the sender's flag. */
  lemma BroadcastAppendsOne(r: Room, p: MessagePayload)
    requires r.channel.Some?
    ensures var t := Step(r, Broadcast(p)); var n := |r.messages|;
      && |t.messages| == n + 1
      && t.messages[..n] == r.messages
      && t.messages[n].(isMine := p.isMine) == p
      && (t.messages[n].isMine <==> p.email == Some(r.channel.value.owner.email))
      && t.usersOnline == r.usersOnline && t.calls == r.calls && t.input == r.input
  {
    var t := Step(r, Broadcast(p));
    assert t.messages[..|r.messages|] == r.messages;
  }

  /** A presence sync on the open channel replaces the online list with the
      keys of the presence state; distinct keys give a list without repeats. */
  lemma PresenceSyncReplaces(r: Room, state: seq<PresenceEntry>)
    requires r.channel.Some?
    ensures var t := Step(r, PresenceSync(state));
      && t.usersOnline == Keys(state)
      && |t.usersOnline| == |state|
      && (DistinctKeys(state) ==> Distinct(t.usersOnline))
      && (forall k :: k in t.usersOnline <==> exists i :: 0 <= i < |state| && state[i].key == k)
      && t.messages == r.messages && t.calls == r.calls
      && t.input == r.input && t.channel == r.channel && t.session == r.session
  {
    var ks := Keys(state);
    forall k ensures k in ks <==> exists i :: 0 <= i < |state| && state[i].key == k {
      if k in ks {
        var i :| 0 <= i < |ks| && ks[i] == k;
        assert state[i].key == k;
      }
    }
  }

  /** Only a "SUBSCRIBED" status on the open channel tracks presence, and the
      tracked id is the channel owner's id. */
  lemma TrackOnlyWhenSubscribed(r: Room, status: string)
    ensures var t := Step(r, Status(status));
      && t.calls == r.calls + (if r.channel.Some? && status == SubscribedStatus
                               then [Track(r.channel.value.owner.id)] else [])
      && t.messages == r.messages && t.usersOnline == r.usersOnline
  {
  }

  /** Sending publishes once, never touches the log and always clears the
      input; the insert happens unless the publish threw. */
  lemma SendOnlyPublishes(r: Room, now: int, isoTime: string, publishThrows: bool)
    ensures var t := Step(r, Send(now, isoTime, publishThrows));
      && t.messages == r.messages && t.input == ""
      && t.calls == r.calls + [Publish(RoomName, Outgoing(r.session, r.input, now, isoTime))]
                    + (if publishThrows then [] else [Insert(r.input)])
  {
  }

  // ---------------------------------------------------------------------------
  // Invariants over whole traces

  /** The open channel belongs to the current user, under the room's name and
      the user's id; without a user no channel is open. */
  predicate Coherent(r: Room)
  {
    && (r.channel.Some? ==>
          && UserOf(r.session) == Some(r.channel.value.owner)
          && r.channel.value.name == RoomName
          && r.channel.value.presenceKey == r.channel.value.owner.id)
    && (UserOf(r.session).None? ==> r.channel.None?)
  }

  function Opens(calls: seq<BackendCall>): nat
    decreases |calls|
  {
    if calls == [] then 0 else Opens(calls[..|calls| - 1]) + (if calls[|calls| - 1].Open? then 1 else 0)
  }

  function Unsubscribes(calls: seq<BackendCall>): nat
    decreases |calls|
  {
    if calls == [] then 0
    else Unsubscribes(calls[..|calls| - 1]) + (if calls[|calls| - 1].Unsubscribe? then 1 else 0)
  }

  /** One backend call's effect on whether a channel is held: opening needs
      none to be held, releasing needs one; `None` once either is broken. */
  function HeldAfter(before: Option<bool>, c: BackendCall): Option<bool>
  {
    if before.None? then None
    else if c.Open? then (if before.value then None else Some(true))
    else if c.Unsubscribe? then (if before.value then Some(false) else None)
    else before
  }

  /** Whether a channel is held after a sequence of calls, or `None` when a
      channel was opened while another was held or released while none was. */
  function Held(calls: seq<BackendCall>): Option<bool>
    decreases |calls|
  {
    if calls == [] then Some(false) else HeldAfter(Held(calls[..|calls| - 1]), calls[|calls| - 1])
  }

  lemma HeldSnoc(a: seq<BackendCall>, c: BackendCall)
    ensures Held(a + [c]) == HeldAfter(Held(a), c)
  {
    assert (a + [c])[..|a + [c]| - 1] == a;
  }

  /** Calls that neither open nor release a channel leave the holding alone. */
  lemma {:induction false} HeldNeutral(a: seq<BackendCall>, extra: seq<BackendCall>)
    requires forall i :: 0 <= i < |extra| ==> !extra[i].Open? && !extra[i].Unsubscribe?
    ensures Held(a + extra) == Held(a)
    decreases |extra|
  {
    if extra == [] {
      assert a + extra == a;
    } else {
      var init := extra[..|extra| - 1];
      assert a + extra == (a + init) + [extra[|extra| - 1]];
      HeldSnoc(a + init, extra[|extra| - 1]);
      HeldNeutral(a, init);
    }
  }

  /** While the calls pair up, the opens outnumber the unsubscribes by exactly
      the channel still held. */
  lemma {:induction false} HeldCounts(calls: seq<BackendCall>)
    requires Held(calls).Some?
    ensures Opens(calls) == Unsubscribes(calls) + (if Held(calls).value then 1 else 0)
    decreases |calls|
  {
    if calls != [] {
      HeldCounts(calls[..|calls| - 1]);
    }
  }

  /** Every prefix of well-paired calls is well paired. */
  lemma {:induction false} HeldPrefix(calls: seq<BackendCall>, n: nat)
    requires Held(calls).Some? && n <= |calls|
    ensures Held(calls[..n]).Some?
    decreases |calls|
  {
    if n < |calls| {
      var init := calls[..|calls| - 1];
      assert init[..n] == calls[..n];
      HeldPrefix(init, n);
    } else {
      assert calls[..n] == calls;
    }
  }

  /** At every point of well-paired calls, the unsubscribes never exceed the
      opens, and the opens never exceed the unsubscribes by more than one. */
  lemma ChannelsPaired(calls: seq<BackendCall>)
    requires Held(calls).Some?
    ensures forall n :: 0 <= n <= |calls| ==>
      Unsubscribes(calls[..n]) <= Opens(calls[..n]) <= Unsubscribes(calls[..n]) + 1
  {
    forall n | 0 <= n <= |calls|
      ensures Unsubscribes(calls[..n]) <= Opens(calls[..n]) <= Unsubscribes(calls[..n]) + 1
    {
      HeldPrefix(calls, n);
      HeldCounts(calls[..n]);
    }
  }

  /** Channels are opened and released strictly in turn, and one is held
      exactly while the room has one open. */
  predicate Balanced(r: Room)
  {
    Held(r.calls) == Some(r.channel.Some?)
  }

  /** Releasing the open channel, if any, leaves none held. */
  lemma ReleaseFrees(r: Room)
    requires Balanced(r)
    ensures Held(r.calls + Released(r.channel)) == Some(false)
  {
    if r.channel.Some? {
      HeldSnoc(r.calls, Unsubscribe(r.channel.value.name));
    } else {
      assert r.calls + Released(r.channel) == r.calls;
    }
  }

  lemma SessionChangeKeepsInvariants(r: Room, next: Option<Session>)
    requires Coherent(r) && Balanced(r)
    ensures Coherent(Step(r, SessionChanged(next))) && Balanced(Step(r, SessionChanged(next)))
  {
    var released := r.calls + Released(r.channel);
    ReleaseFrees(r);
    if UserOf(next).Some? {
      HeldSnoc(released, Open(RoomName, UserOf(next).value.id));
    }
  }

  /** Calls that neither open nor release a channel keep the balance. */
  lemma NeutralCallsKeepBalance(r: Room, extra: seq<BackendCall>)
    requires Balanced(r)
    requires forall i :: 0 <= i < |extra| ==> !extra[i].Open? && !extra[i].Unsubscribe?
    ensures Balanced(r.(calls := r.calls + extra))
  {
    HeldNeutral(r.calls, extra);
  }

  lemma SendKeepsInvariants(r: Room, now: int, isoTime: string, publishThrows: bool)
    requires Coherent(r) && Balanced(r)
    ensures Coherent(Step(r, Send(now, isoTime, publishThrows))) && Balanced(Step(r, Send(now, isoTime, publishThrows)))
  {
    var published := [Publish(RoomName, Outgoing(r.session, r.input, now, isoTime))];
    var inserted := if publishThrows then [] else [Insert(r.input)];
    var t := Step(r, Send(now, isoTime, publishThrows));
    assert t == r.(input := "", calls := r.calls + published + inserted);
    var u := r.(input := "");
    NeutralCallsKeepBalance(u, published);
    NeutralCallsKeepBalance(u.(calls := u.calls + published), inserted);
  }

  lemma CallsOnlyKeepInvariants(r: Room, e: RoomEvent)
    requires Coherent(r) && Balanced(r)
    requires e.Status? || e.SignOutPressed? || e.Unmount?
    ensures Coherent(Step(r, e)) && Balanced(Step(r, e))
  {
    match e
    case Status(status) =>
      if r.channel.Some? && status == SubscribedStatus {
        NeutralCallsKeepBalance(r, [Track(r.channel.value.owner.id)]);
      }
    case SignOutPressed =>
      NeutralCallsKeepBalance(r, [SignOut]);
    case Unmount =>
      ReleaseFrees(r);
  }

  lemma StepKeepsInvariants(r: Room, e: RoomEvent)
    requires Coherent(r) && Balanced(r)
    ensures Coherent(Step(r, e)) && Balanced(Step(r, e))
  {
    if e.SessionChanged? {
      SessionChangeKeepsInvariants(r, e.next);
    } else if e.Send? {
      SendKeepsInvariants(r, e.now, e.isoTime, e.publishThrows);
    } else if e.Status? || e.SignOutPressed? || e.Unmount? {
      CallsOnlyKeepInvariants(r, e);
    }
  }

  /** From a coherent, balanced room, whatever the events: at most one channel
      is open and it belongs to the current user; channels were opened and
      released strictly in turn, so at no point has the room unsubscribed more
      often than it opened or held two channels, and every channel but the
      open one was unsubscribed exactly once. */
  lemma {:induction false} OneChannelAtATime(r: Room, es: seq<RoomEvent>)
    requires Coherent(r) && Balanced(r)
    ensures Coherent(Run(r, es)) && Balanced(Run(r, es))
    ensures var calls := Run(r, es).calls;
      && Opens(calls) == Unsubscribes(calls) + (if Run(r, es).channel.Some? then 1 else 0)
      && forall n :: 0 <= n <= |calls| ==>
           Unsubscribes(calls[..n]) <= Opens(calls[..n]) <= Unsubscribes(calls[..n]) + 1
    decreases |es|
  {
    if es != [] {
      StepKeepsInvariants(r, es[0]);
      OneChannelAtATime(Step(r, es[0]), es[1..]);
    } else {
      HeldCounts(r.calls);
      ChannelsPaired(r.calls);
    }
  }

  /** Once the pairing is broken, no later call mends it. */
  lemma {:induction false} BrokenStaysBroken(a: seq<BackendCall>, b: seq<BackendCall>)
    requires Held(a).None?
    ensures Held(a + b).None?
    decreases |b|
  {
    if b == [] {
      assert a + b == a;
    } else {
      var init := b[..|b| - 1];
      assert a + b == (a + init) + [b[|b| - 1]];
      BrokenStaysBroken(a, init);
      HeldSnoc(a + init, b[|b| - 1]);
    }
  }

  /** A release made while no channel is held breaks the pairing for good,
      whatever calls follow, even ones that bring the totals back level. */
  lemma SpuriousReleaseBreaksPairing(a: seq<BackendCall>, name: string, b: seq<BackendCall>)
    requires Held(a) == Some(false)
    ensures Held(a + [Unsubscribe(name)] + b).None?
  {
    HeldSnoc(a, Unsubscribe(name));
    BrokenStaysBroken(a + [Unsubscribe(name)], b);
  }

  lemma MountedIsCoherent()
    ensures Coherent(Mounted) && Balanced(Mounted)
  {
  }

  /** The log is append-only: whatever happens, earlier entries stay, in order. */
  lemma {:induction false} LogOnlyGrows(r: Room, es: seq<RoomEvent>)
    ensures r.messages <= Run(r, es).messages
    decreases |es|
  {
    if es != [] {
      LogOnlyGrows(Step(r, es[0]), es[1..]);
    }
  }

  /** No event but a broadcast on the open channel adds to the log. */
  lemma {:induction false} OnlyBroadcastsAppend(r: Room, es: seq<RoomEvent>)
    requires forall i :: 0 <= i < |es| ==> !es[i].Broadcast?
    ensures Run(r, es).messages == r.messages
    decreases |es|
  {
    if es != [] {
      OnlyBroadcastsAppend(Step(r, es[0]), es[1..]);
    }
  }

  /** Presence does not accumulate: after the last sync on the open channel,
      and with no later sync or session change, the online list is exactly the
      keys of that sync's state. */
  lemma {:induction false} LastSyncWins(r: Room, es: seq<RoomEvent>, k: nat)
    requires k < |es| && es[k].PresenceSync?
    requires Run(r, es[..k]).channel.Some?
    requires forall j :: k < j < |es| ==> !es[j].PresenceSync? && !es[j].SessionChanged?
    ensures Run(r, es).usersOnline == Keys(es[k].state)
  {
    var before := Run(r, es[..k]);
    assert es == es[..k] + [es[k]] + es[k + 1..];
    RunAppend(r, es[..k] + [es[k]], es[k + 1..]);
    RunAppend(r, es[..k], [es[k]]);
    KeepsOnline(Step(before, es[k]), es[k + 1..]);
  }

  lemma {:induction false} KeepsOnline(r: Room, es: seq<RoomEvent>)
    requires forall j :: 0 <= j < |es| ==> !es[j].PresenceSync? && !es[j].SessionChanged?
    ensures Run(r, es).usersOnline == r.usersOnline
    decreases |es|
  {
    if es != [] {
      KeepsOnline(Step(r, es[0]), es[1..]);
    }
  }

  /** A user's own message comes back once: sending, then receiving the
      published payload, adds one entry, marked as the user's own and named
      by the user's display name. */
  lemma OwnEchoAppendsOnce(r: Room, now: int, isoTime: string, publishThrows: bool)
    requires Coherent(r) && r.channel.Some?
    ensures var sent := Step(r, Send(now, isoTime, publishThrows));
      var p := Outgoing(r.session, r.input, now, isoTime);
      var t := Step(sent, Broadcast(p));
      && t.messages == r.messages + [p]
      && p.isMine && p.user == SenderName(Some(r.channel.value.owner))
  {
  }

  // ---------------------------------------------------------------------------
  // The header's online indicator

  function DigitChar(d: int): (c: char)
    requires 0 <= d < 10
    ensures '0' <= c <= '9'
  {
    ('0' as int + d) as char
  }

  predicate AllDigits(s: string)
  {
    forall i :: 0 <= i < |s| ==> '0' <= s[i] <= '9'
  }

  /** A number in a template literal: its decimal digits, no leading zero. */
  function Decimal(n: nat): (s: string)
    ensures |s| >= 1 && AllDigits(s)
    ensures s[0] == '0' ==> n == 0
    decreases n
  {
    if n < 10 then [DigitChar(n)] else Decimal(n / 10) + [DigitChar(n % 10)]
  }

  function DigitsValue(s: string): nat
    requires AllDigits(s)
    decreases |s|
  {
    if s == [] then 0 else DigitsValue(s[..|s| - 1]) * 10 + (s[|s| - 1] as int - '0' as int)
  }

  /** The digits read back as the count they were written from. */
  lemma {:induction false} DecimalReadsBack(n: nat)
    ensures DigitsValue(Decimal(n)) == n
    decreases n
  {
    if n >= 10 {
      var s := Decimal(n);
      assert s[..|s| - 1] == Decimal(n / 10);
      DecimalReadsBack(n / 10);
    }
  }

  /** The online label for `count` users. */
  function OnlineLabel(count: nat): (caption: string)
    ensures caption == "Offline" <==> count == 0
    ensures caption == "One user online" <==> count == 1
    ensures count > 1 ==> caption == Decimal(count) + " users online"
  {
    if count == 1 then "One user online"
    else if count > 1 then
      var digits := Decimal(count);
      assert (digits + " users online")[0] == digits[0];
      digits + " users online"
    else "Offline"
  }

  /** For more than one user the label's number reads back as the count. */
  lemma LabelShowsCount(count: nat)
    requires count > 1
    ensures var caption := OnlineLabel(count); var digits := caption[..|caption| - |" users online"|];
      AllDigits(digits) && DigitsValue(digits) == count
  {
    var caption := OnlineLabel(count);
    assert caption[..|caption| - |" users online"|] == Decimal(count);
    DecimalReadsBack(count);
  }

  /** The dot is green exactly when the label is not "Offline". */
  function IndicatorColor(count: nat): (color: string)
    ensures color == "bg-green-500" <==> OnlineLabel(count) != "Offline"
    ensures color == "bg-gray-500" <==> OnlineLabel(count) == "Offline"
  {
    if count >= 1 then "bg-green-500" else "bg-gray-500"
  }

  // ---------------------------------------------------------------------------
  // The component

  /** The chat page's state, updated in place by its handlers. */
  class RoomController {
    var session: Option<Session>
    var channel: Option<Channel>
    var messages: seq<MessagePayload>
    var usersOnline: seq<string>
    var message: string
    var calls: seq<BackendCall>

    function State(): Room
      reads this
    {
      Room(session, channel, messages, usersOnline, message, calls)
    }

    constructor ()
      ensures State() == Mounted
    {
      session, channel := None, None;
      messages, usersOnline, message, calls := [], [], "", [];
    }

    /** The session effect: clean up the previous run, then either clear the
        online list or open, configure and subscribe a channel. */
    method OnSessionChange(next: Option<Session>)
      modifies this
      ensures State() == Step(old(State()), SessionChanged(next))
    {
      if channel.Some? {
        calls := calls + [Unsubscribe(channel.value.name)];
      }
      session := next;
      var user := UserOf(next);
      if user.None? {
        usersOnline := [];
        channel := None;
        return;
      }
      channel := Some(Channel(RoomName, user.value.id, user.value));
      calls := calls + [Open(RoomName, user.value.id)];
    }

    /** The broadcast "message" handler. */
    method OnBroadcast(p: MessagePayload)
      modifies this
      ensures State() == Step(old(State()), Broadcast(p))
    {
      if channel.Some? {
        var mine := p.email == Some(channel.value.owner.email);
        messages := messages + [p.(isMine := mine)];
      }
    }

    /** The presence "sync" handler. */
    method OnPresenceSync(state: seq<PresenceEntry>)
      modifies this
      ensures State() == Step(old(State()), PresenceSync(state))
    {
      if channel.Some? {
        usersOnline := Keys(state);
      }
    }

    /** The subscribe callback. */
    method OnSubscribeStatus(status: string)
      modifies this
      ensures State() == Step(old(State()), Status(status))
    {
      if channel.Some? && status == SubscribedStatus {
        calls := calls + [Track(channel.value.owner.id)];
      }
    }

    /** The input's change handler. */
    method OnInput(text: string)
      modifies this
      ensures State() == Step(old(State()), Typed(text))
    {
      message := text;
    }

    /** Publish the input as a broadcast, archive it, clear the input in any case. */
    method SendMessage(now: int, isoTime: string, publishThrows: bool)
      modifies this
      ensures State() == Step(old(State()), Send(now, isoTime, publishThrows))
    {
      calls := calls + [Publish(RoomName, Outgoing(session, message, now, isoTime))];
      if !publishThrows {
        calls := calls + [Insert(message)];
      }
      message := "";
    }

    /** The sign-out button: one sign-out call; its busy flag is set and
        cleared around the call, and the session change it causes arrives
        later through `OnSessionChange`. */
    method SignOutClicked()
      modifies this
      ensures State() == Step(old(State()), SignOutPressed)
    {
      calls := calls + [SignOut];
    }

    /** Unmounting runs the last effect's cleanup. */
    method Close()
      modifies this
      ensures State() == Step(old(State()), Unmount)
    {
      if channel.Some? {
        calls := calls + [Unsubscribe(channel.value.name)];
      }
      channel := None;
    }
  }
}
