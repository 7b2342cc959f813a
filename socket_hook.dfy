/**
 * The client presence hook `useSocket`: it wraps one socket.io connection for
 * one room, tracks whether the connection is up, emits the client-to-server
 * events, and passes server-to-client events on to the page's callbacks.
 * The transport is reduced to the calls the hook makes on it (`emit`,
 * `disconnect`) and the events it delivers to the hook's handlers.
 */
module SocketHook {

  /** The payload of a `new-message` event. */
  datatype ChatMessage = ChatMessage(id: string, chatroomId: string, alias: string, message: string, timestamp: string)

  /** A `socket.emit` call: `join-room`, `set-alias` or `send-message`. */
  datatype Outbound =
    | JoinRoom(roomId: string)
    | SetAlias(alias: string)
    | SendMessage(roomId: string, alias: string, message: string)

  /** A call of one of the page's callbacks: `onNewMessage`, `onUsersUpdated`
      or `onAliasRejected`. */
  datatype Notification =
    | NewMessage(msg: ChatMessage)
    | UsersUpdated(aliases: seq<string>)
    | AliasRejected(reason: string)

  /** The payload of an `alias-rejected` event. */
  datatype Rejection = Rejection(reason: string)

  /** An event the transport delivers to one of the hook's handlers. */
  datatype Inbound =
    | Connect
    | Disconnect
    | IncomingMessage(msg: ChatMessage)
    | IncomingUsers(aliases: seq<string>)
    | IncomingRejection(payload: Rejection)

  /** Anything that can happen to a mounted hook. */
  datatype Action =
    | Receive(event: Inbound)
    | CallSetAlias(alias: string)
    | CallEmitMessage(alias: string, message: string)
    | Unmount

  /** The hook's observable state: its room, the connectivity flag, every
      `emit` so far, every callback call so far, and whether the transport is
      still open. */
  datatype HookState = HookState(roomId: string, isConnected: bool, outbox: seq<Outbound>,
                                 delivered: seq<Notification>, transportOpen: bool)

  /** Mounting: the transport is opened, nothing is emitted, not yet connected. */
  function Mount(roomId: string): (r: HookState)
    ensures r.roomId == roomId && r.transportOpen && !r.isConnected
    ensures r.outbox == [] && r.delivered == [] && Protocol(r)
  {
    HookState(roomId, false, [], [], true)
  }

  /** The effect of one action: the room never changes, the emit and callback
      histories only grow, by at most one entry each, connectivity changes only
      on a connect or disconnect event, and only unmounting closes the transport. */
  function Step(s: HookState, a: Action): (r: HookState)
    ensures r.roomId == s.roomId
    ensures s.outbox <= r.outbox && |r.outbox| <= |s.outbox| + 1
    ensures s.delivered <= r.delivered && |r.delivered| <= |s.delivered| + 1
    ensures r.isConnected != s.isConnected ==> a == Receive(Connect) || a == Receive(Disconnect)
    ensures r.transportOpen != s.transportOpen ==> a == Unmount && !r.transportOpen
  {
    match a
    case Receive(Connect) => s.(isConnected := true, outbox := s.outbox + [JoinRoom(s.roomId)])
    case Receive(Disconnect) => s.(isConnected := false)
    case Receive(IncomingMessage(m)) =>
      if m.chatroomId == s.roomId then s.(delivered := s.delivered + [NewMessage(m)]) else s
    case Receive(IncomingUsers(aliases)) => s.(delivered := s.delivered + [UsersUpdated(aliases)])
    case Receive(IncomingRejection(p)) => s.(delivered := s.delivered + [AliasRejected(p.reason)])
    case CallSetAlias(alias) => if s.isConnected then s.(outbox := s.outbox + [SetAlias(alias)]) else s
    case CallEmitMessage(alias, message) => s.(outbox := s.outbox + [SendMessage(s.roomId, alias, message)])
    case Unmount => s.(transportOpen := false)
  }

  /** The effect of a sequence of actions, first to last. */
  function Run(s: HookState, actions: seq<Action>): HookState
    decreases |actions|
  {
    if actions == [] then s else Run(Step(s, actions[0]), actions[1..])
  }

  lemma {:induction false} RunSnoc(s: HookState, actions: seq<Action>, a: Action)
    ensures Run(s, actions + [a]) == Step(Run(s, actions), a)
    decreases |actions|
  {
    if actions == [] {
      assert actions + [a] == [a];
    } else {
      assert (actions + [a])[1..] == actions[1..] + [a];
      RunSnoc(Step(s, actions[0]), actions[1..], a);
    }
  }

  /** Every emit speaks for `roomId`, and every `set-alias` follows a `join-room`. */
  predicate OutboxProtocol(roomId: string, outbox: seq<Outbound>) {
    (forall i :: 0 <= i < |outbox| && outbox[i].JoinRoom? ==> outbox[i].roomId == roomId) &&
    (forall i :: 0 <= i < |outbox| && outbox[i].SendMessage? ==> outbox[i].roomId == roomId) &&
    (forall i :: 0 <= i < |outbox| && outbox[i].SetAlias? ==> JoinRoom(roomId) in outbox[..i])
  }

  /** Only messages of `roomId` reach the page. */
  predicate DeliveredProtocol(roomId: string, delivered: seq<Notification>) {
    forall i :: 0 <= i < |delivered| && delivered[i].NewMessage? ==> delivered[i].msg.chatroomId == roomId
  }

  /** What the hook guarantees about its own history: it only ever speaks for
      its own room, it has joined whenever it is connected, every `set-alias`
      comes after a `join-room`, and only messages of its room reach the page. */
  predicate Protocol(s: HookState) {
    OutboxProtocol(s.roomId, s.outbox) &&
    (s.isConnected ==> JoinRoom(s.roomId) in s.outbox) &&
    DeliveredProtocol(s.roomId, s.delivered)
  }

  lemma EmitKeepsProtocol(roomId: string, outbox: seq<Outbound>, e: Outbound)
    requires OutboxProtocol(roomId, outbox)
    requires (e.JoinRoom? || e.SendMessage?) ==> e.roomId == roomId
    requires e.SetAlias? ==> JoinRoom(roomId) in outbox
    ensures OutboxProtocol(roomId, outbox + [e])
  {
    var t := outbox + [e];
    forall i | 0 <= i < |t| && t[i].SetAlias? ensures JoinRoom(roomId) in t[..i] {
      if i < |outbox| {
        assert t[..i] == outbox[..i];
      } else {
        assert t[..i] == outbox;
      }
    }
  }

  lemma StepKeepsProtocol(s: HookState, a: Action)
    requires Protocol(s)
    ensures Protocol(Step(s, a)) && Step(s, a).roomId == s.roomId
  {
    match a
    case Receive(Connect) =>
      EmitKeepsProtocol(s.roomId, s.outbox, JoinRoom(s.roomId));
      assert Step(s, a).outbox[|s.outbox|] == JoinRoom(s.roomId);
    case CallSetAlias(alias) =>
      if s.isConnected {
        EmitKeepsProtocol(s.roomId, s.outbox, SetAlias(alias));
        assert JoinRoom(s.roomId) in s.outbox;
        assert s.outbox <= Step(s, a).outbox;
      }
    case CallEmitMessage(alias, message) =>
      EmitKeepsProtocol(s.roomId, s.outbox, SendMessage(s.roomId, alias, message));
      assert JoinRoom(s.roomId) in s.outbox ==> JoinRoom(s.roomId) in Step(s, a).outbox;
    case _ =>
  }

  /** Every reachable state of a mounted hook satisfies the protocol. */
  lemma {:induction false} RunKeepsProtocol(s: HookState, actions: seq<Action>)
    requires Protocol(s)
    ensures Protocol(Run(s, actions)) && Run(s, actions).roomId == s.roomId
    decreases |actions|
  {
    if actions != [] {
      StepKeepsProtocol(s, actions[0]);
      RunKeepsProtocol(Step(s, actions[0]), actions[1..]);
    }
  }

  /** The connectivity flag as the last connect/disconnect event left it
      (false when there was none). */
  function LastLifecycleIsConnect(actions: seq<Action>): bool
    decreases |actions|
  {
    if actions == [] then false
    else
      var a := actions[|actions| - 1];
      if a == Receive(Connect) then true
      else if a == Receive(Disconnect) then false
      else LastLifecycleIsConnect(actions[..|actions| - 1])
  }

  /** `isConnected` starts false and follows the connect and disconnect events. */
  lemma {:induction false} ConnectivityFollowsLifecycle(roomId: string, actions: seq<Action>)
    ensures Run(Mount(roomId), actions).isConnected == LastLifecycleIsConnect(actions)
    decreases |actions|
  {
    if actions != [] {
      var init := actions[..|actions| - 1];
      assert actions == init + [actions[|actions| - 1]];
      RunSnoc(Mount(roomId), init, actions[|actions| - 1]);
      ConnectivityFollowsLifecycle(roomId, init);
    }
  }

  /** An incoming message reaches `onNewMessage` exactly when it was received
      and belongs to the hook's room. */
  lemma {:induction false} MessageDeliveredIff(roomId: string, actions: seq<Action>, m: ChatMessage)
    ensures NewMessage(m) in Run(Mount(roomId), actions).delivered <==>
      Receive(IncomingMessage(m)) in actions && m.chatroomId == roomId
    decreases |actions|
  {
    if actions != [] {
      var init, last := actions[..|actions| - 1], actions[|actions| - 1];
      assert actions == init + [last];
      RunSnoc(Mount(roomId), init, last);
      RunKeepsProtocol(Mount(roomId), init);
      MessageDeliveredIff(roomId, init, m);
      assert Receive(IncomingMessage(m)) in actions <==>
        Receive(IncomingMessage(m)) in init || last == Receive(IncomingMessage(m));
    }
  }

  /** A `send-message` is emitted exactly for each `emitMessage` call, always
      with the hook's own room, connected or not. */
  lemma {:induction false} MessageSentIff(roomId: string, actions: seq<Action>,
                                         room: string, alias: string, message: string)
    ensures SendMessage(room, alias, message) in Run(Mount(roomId), actions).outbox <==>
      room == roomId && CallEmitMessage(alias, message) in actions
    decreases |actions|
  {
    if actions != [] {
      var init, last := actions[..|actions| - 1], actions[|actions| - 1];
      assert actions == init + [last];
      RunSnoc(Mount(roomId), init, last);
      RunKeepsProtocol(Mount(roomId), init);
      MessageSentIff(roomId, init, room, alias, message);
      assert CallEmitMessage(alias, message) in actions <==>
        CallEmitMessage(alias, message) in init || last == CallEmitMessage(alias, message);
    }
  }

  /** Before the first connect event nothing but `send-message` is emitted:
      no `join-room` and no `set-alias`. */
  lemma {:induction false} NothingJoinedBeforeConnect(roomId: string, actions: seq<Action>)
    requires Receive(Connect) !in actions
    ensures !Run(Mount(roomId), actions).isConnected
    ensures forall i :: 0 <= i < |Run(Mount(roomId), actions).outbox| ==>
      Run(Mount(roomId), actions).outbox[i].SendMessage?
    decreases |actions|
  {
    if actions != [] {
      var init, last := actions[..|actions| - 1], actions[|actions| - 1];
      assert actions == init + [last];
      assert last in actions;
      RunSnoc(Mount(roomId), init, last);
      NothingJoinedBeforeConnect(roomId, init);
    }
  }

  /** The transport stays open until the hook is unmounted. */
  lemma {:induction false} OpenUntilUnmount(roomId: string, actions: seq<Action>)
    ensures Run(Mount(roomId), actions).transportOpen == (Unmount !in actions)
    decreases |actions|
  {
    if actions != [] {
      var init, last := actions[..|actions| - 1], actions[|actions| - 1];
      assert actions == init + [last];
      RunSnoc(Mount(roomId), init, last);
      OpenUntilUnmount(roomId, init);
    }
  }

  /** The behaviours the hook's tests pin down, each from a fresh mount of `room-123`. */
  lemma TestedScenarios(m: ChatMessage, users: seq<string>, reason: string)
    ensures var r := "room-123";
      Run(Mount(r), [Receive(Connect)]).outbox == [JoinRoom(r)] &&
      Run(Mount(r), [Receive(Connect), CallSetAlias("TestUser")]).outbox == [JoinRoom(r), SetAlias("TestUser")] &&
      Run(Mount(r), [CallSetAlias("TestUser")]).outbox == [] &&
      Run(Mount(r), [CallEmitMessage("TestUser", "Hello world")]).outbox ==
        [SendMessage(r, "TestUser", "Hello world")] &&
      Run(Mount(r), [Receive(IncomingUsers(users))]).delivered == [UsersUpdated(users)] &&
      Run(Mount(r), [Receive(IncomingRejection(Rejection(reason)))]).delivered == [AliasRejected(reason)] &&
      !Run(Mount(r), [Unmount]).transportOpen &&
      !Mount(r).isConnected && Run(Mount(r), [Receive(Connect)]).isConnected &&
      !Run(Mount(r), [Receive(Connect), Receive(Disconnect)]).isConnected
    ensures Run(Mount("room-123"), [Receive(IncomingMessage(m))]).delivered ==
      if m.chatroomId == "room-123" then [NewMessage(m)] else []
  {
  }

  /** The mounted hook. `roomId` is fixed for the hook's lifetime. */
  class UseSocket {
    const roomId: string
    var isConnected: bool
    var outbox: seq<Outbound>
    var delivered: seq<Notification>
    var transportOpen: bool

    function State(): HookState
      reads this
    {
      HookState(roomId, isConnected, outbox, delivered, transportOpen)
    }

    /** Mounting: opens the transport and registers the five handlers. */
    constructor (roomId: string)
      ensures State() == Mount(roomId) && Protocol(State())
    {
      this.roomId := roomId;
      isConnected := false;
      outbox := [];
      delivered := [];
      transportOpen := true;
    }

    /** The `connect` handler: marks the hook connected and joins its room. */
    method OnConnect()
      requires Protocol(State())
      modifies this
      ensures isConnected && outbox == old(outbox) + [JoinRoom(roomId)]
      ensures delivered == old(delivered) && transportOpen == old(transportOpen)
      ensures State() == Step(old(State()), Receive(Connect)) && Protocol(State())
    {
      StepKeepsProtocol(State(), Receive(Connect));
      isConnected := true;
      outbox := outbox + [JoinRoom(roomId)];
    }

    /** The `disconnect` handler. */
    method OnDisconnect()
      requires Protocol(State())
      modifies this
      ensures !isConnected && outbox == old(outbox)
      ensures delivered == old(delivered) && transportOpen == old(transportOpen)
      ensures State() == Step(old(State()), Receive(Disconnect)) && Protocol(State())
    {
      StepKeepsProtocol(State(), Receive(Disconnect));
      isConnected := false;
    }

    /** The `new-message` handler: passes on only messages of this room. */
    method OnNewMessage(m: ChatMessage)
      requires Protocol(State())
      modifies this
      ensures delivered == if m.chatroomId == roomId then old(delivered) + [NewMessage(m)] else old(delivered)
      ensures isConnected == old(isConnected) && outbox == old(outbox) && transportOpen == old(transportOpen)
      ensures State() == Step(old(State()), Receive(IncomingMessage(m))) && Protocol(State())
    {
      StepKeepsProtocol(State(), Receive(IncomingMessage(m)));
      if m.chatroomId == roomId {
        delivered := delivered + [NewMessage(m)];
      }
    }

    /** The `users-updated` handler: passes the alias list on unchanged. */
    method OnUsersUpdated(aliases: seq<string>)
      requires Protocol(State())
      modifies this
      ensures delivered == old(delivered) + [UsersUpdated(aliases)]
      ensures isConnected == old(isConnected) && outbox == old(outbox) && transportOpen == old(transportOpen)
      ensures State() == Step(old(State()), Receive(IncomingUsers(aliases))) && Protocol(State())
    {
      StepKeepsProtocol(State(), Receive(IncomingUsers(aliases)));
      delivered := delivered + [UsersUpdated(aliases)];
    }

    /** The `alias-rejected` handler: passes on the reason only. */
    method OnAliasRejected(payload: Rejection)
      requires Protocol(State())
      modifies this
      ensures delivered == old(delivered) + [AliasRejected(payload.reason)]
      ensures isConnected == old(isConnected) && outbox == old(outbox) && transportOpen == old(transportOpen)
      ensures State() == Step(old(State()), Receive(IncomingRejection(payload))) && Protocol(State())
    {
      StepKeepsProtocol(State(), Receive(IncomingRejection(payload)));
      delivered := delivered + [AliasRejected(payload.reason)];
    }

    /** `setAlias`: emits `set-alias` only while connected. */
    method SetAliasAction(alias: string)
      requires Protocol(State())
      modifies this
      ensures outbox == if old(isConnected) then old(outbox) + [SetAlias(alias)] else old(outbox)
      ensures isConnected == old(isConnected) && delivered == old(delivered) && transportOpen == old(transportOpen)
      ensures State() == Step(old(State()), CallSetAlias(alias)) && Protocol(State())
    {
      StepKeepsProtocol(State(), CallSetAlias(alias));
      if isConnected {
        outbox := outbox + [SetAlias(alias)];
      }
    }

    /** `emitMessage`: emits `send-message` for this room, connected or not. */
    method EmitMessage(alias: string, message: string)
      requires Protocol(State())
      modifies this
      ensures outbox == old(outbox) + [SendMessage(roomId, alias, message)]
      ensures isConnected == old(isConnected) && delivered == old(delivered) && transportOpen == old(transportOpen)
      ensures State() == Step(old(State()), CallEmitMessage(alias, message)) && Protocol(State())
    {
      StepKeepsProtocol(State(), CallEmitMessage(alias, message));
      outbox := outbox + [SendMessage(roomId, alias, message)];
    }

    /** The effect's cleanup on unmount: `socket.disconnect()`. */
    method Unmount()
      requires Protocol(State())
      modifies this
      ensures !transportOpen
      ensures isConnected == old(isConnected) && outbox == old(outbox) && delivered == old(delivered)
      ensures State() == Step(old(State()), Action.Unmount) && Protocol(State())
    {
      StepKeepsProtocol(State(), Action.Unmount);
      transportOpen := false;
    }
  }
}
