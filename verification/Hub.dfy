/** The websocket hub: bounded client queues, removal on overflow, and the streams that clients see. */
module Hub {

  type UserId = nat
  type ClientId = nat
  type Data = seq<int>

  const QUEUE_SIZE: nat := 256

  /** What the hub's loop and the clients' write pumps do, one at a time. */
  datatype Event =
    | Register(client: ClientId, user: UserId)
    | Unregister(client: ClientId)
    | Broadcast(user: UserId, data: Data)
    | Take(client: ClientId) // the write pump receives from the send channel

  /**
   A client, its buffered send channel and what was received from it. `since` and `until` say during which events
   it was registered; they are there for the statements only.
   */
  datatype Client = Client(user: UserId, queue: seq<Data>, drained: seq<Data>, open: bool, since: nat, until: nat)

  datatype HubState = HubState(
    clients: map<ClientId, Client>,              // every client ever registered
    registered: Table)                           // the hub's own table

  /** A client registers once, when its connection is made. */
  predicate EventEnabled(s: HubState, e: Event) {
    match e
    case Register(c, _) => c !in s.clients
    case Unregister(c) => c in s.clients
    case Broadcast(_, _) => true
    case Take(c) => c in s.clients && s.clients[c].queue != []
  }

  type Table = map<UserId, set<ClientId>>

  function Members(table: Table, user: UserId): set<ClientId> {
    if user in table then table[user] else {}
  }

  predicate InHub(s: HubState, c: ClientId) {
    c in s.clients && c in Members(s.registered, s.clients[c].user)
  }

  /** Members leave; a user without members leaves the table. */
  function Without(table: Table, user: UserId, gone: set<ClientId>): Table {
    var left := Members(table, user) - gone;
    if left == {} then table - {user} else table[user := left]
  }

  function Closed(c: Client, now: nat): Client {
    c.(open := false, until := now)
  }

  predicate Full(c: Client) {
    |c.queue| >= QUEUE_SIZE
  }

  /** A non-blocking send: queued if there is room, otherwise the channel is closed. */
  function Offered(c: Client, data: Data, now: nat): Client {
    if Full(c) then Closed(c, now) else c.(queue := c.queue + [data])
  }

  /** Client `c` after those in `members` were offered `data`. */
  function Visited(s: HubState, members: set<ClientId>, c: ClientId, data: Data, now: nat): Client
    requires c in s.clients
  {
    if c in members then Offered(s.clients[c], data, now) else s.clients[c]
  }

  function FullOnes(s: HubState, members: set<ClientId>): set<ClientId> {
    set c | c in members && c in s.clients && Full(s.clients[c])
  }

  /** The hub after the clients `members` of `user` were offered `data` and the full ones were removed. */
  function Offering(s: HubState, user: UserId, members: set<ClientId>, data: Data, now: nat): HubState {
    if members == {} then s
    else
      HubState(map c | c in s.clients :: Visited(s, members, c, data, now),
               Without(s.registered, user, FullOnes(s, members)))
  }

  function Taken(c: Client): Client
    requires c.queue != []
  {
    c.(queue := c.queue[1..], drained := c.drained + [c.queue[0]])
  }

  /** The state after event `e`, the `now`-th of the run. */
  function HubStep(s: HubState, e: Event, now: nat): HubState
    requires EventEnabled(s, e)
  {
    match e
    case Register(c, user) =>
      HubState(
        s.clients[c := Client(user, [], [], true, now, now)], s.registered[user := Members(s.registered, user) + {c}])
    case Unregister(c) =>
      if InHub(s, c) then
        HubState(s.clients[c := Closed(s.clients[c], now)], Without(s.registered, s.clients[c].user, {c}))
      else s
    case Broadcast(user, data) =>
      Offering(s, user, Members(s.registered, user), data, now)
    case Take(c) =>
      s.(clients := s.clients[c := Taken(s.clients[c])])
  }

  predicate IsHubRun(run: seq<HubState>, events: seq<Event>) {
    && |run| == |events| + 1
    && run[0] == HubState(map[], map[])
    && forall i :: 0 <= i < |events| ==> EventEnabled(run[i], events[i]) && run[i + 1] == HubStep(run[i], events[i], i)
  }

  // ================================================================ streams

  /** The messages broadcast to `user` by the events from index `from` up to `to`, in order. */
  function Sent(events: seq<Event>, user: UserId, from: nat, to: nat): seq<Data>
    requires to <= |events|
  {
    if to <= from then []
    else
      var e := events[to - 1];
      Sent(events, user, from, to - 1) + if e.Broadcast? && e.user == user then [e.data] else []
  }

  /** When the client's stream ended, or `now` if it still runs. */
  function End(c: Client, now: nat): nat {
    if c.open then now else c.until
  }

  /** Registered exactly while open; queues bounded; the table has no empty and no foreign entries. */
  ghost predicate Consistent(s: HubState) {
    && (forall c :: c in s.clients ==> (s.clients[c].open <==> InHub(s, c)) && |s.clients[c].queue| <= QUEUE_SIZE)
    && (forall u :: u in s.registered ==> s.registered[u] != {})
    && (forall u, c :: u in s.registered && c in s.registered[u] ==> c in s.clients && s.clients[c].user == u)
  }

  lemma MembersAreOpen(s: HubState, user: UserId)
    requires Consistent(s)
    ensures user in s.registered ==> s.registered[user] != {}
    ensures forall c :: c in Members(s.registered, user) ==> c in s.clients && s.clients[c].open
  {
    assert forall c :: c in Members(s.registered, user) ==> c in s.clients && InHub(s, c);
  }

  lemma RemovalKeepsConsistent(s: HubState, user: UserId, gone: set<ClientId>, clients: map<ClientId, Client>)
    requires Consistent(s) && clients.Keys == s.clients.Keys && gone <= Members(s.registered, user)
    requires forall c :: c in clients ==> clients[c].user == s.clients[c].user && |clients[c].queue| <= QUEUE_SIZE
    requires forall c :: c in clients ==> clients[c].open == (s.clients[c].open && c !in gone)
    ensures Consistent(HubState(clients, Without(s.registered, user, gone)))
  {
    var s' := HubState(clients, Without(s.registered, user, gone));
    forall c | c in clients ensures clients[c].open <==> InHub(s', c) {
      var u := s.clients[c].user;
      assert Members(s'.registered, u) == Members(s.registered, u) - if u == user then gone else {};
    }
  }

  lemma StepKeepsConsistent(s: HubState, e: Event, now: nat)
    requires Consistent(s) && EventEnabled(s, e)
    ensures Consistent(HubStep(s, e, now))
  {
    match e
    case Register(c, user) =>
    case Unregister(c) =>
      if InHub(s, c) { RemovalKeepsConsistent(s, s.clients[c].user, {c}, HubStep(s, e, now).clients); }
    case Broadcast(user, data) =>
      if user in s.registered {
        MembersAreOpen(s, user);
        RemovalKeepsConsistent(s, user, FullOnes(s, s.registered[user]), HubStep(s, e, now).clients);
      }
    case Take(c) =>
  }

  // ---------------------------------------------------------------- one client on its own

  /** What event `e` does to client `c` of user `client.user`, without a table: only events about it matter. */
  function ClientStep(client: Client, c: ClientId, e: Event, now: nat): Client {
    match e
    case Register(_, _) => client
    case Unregister(d) => if d == c && client.open then Closed(client, now) else client
    case Broadcast(user, data) => if user == client.user && client.open then Offered(client, data, now) else client
    case Take(d) => if d == c && client.queue != [] then Taken(client) else client
  }

  /** The hub with its table treats each client as if it were alone, and registers it once. */
  lemma HubTreatsClientsAlone(s: HubState, e: Event, now: nat, c: ClientId)
    requires Consistent(s) && EventEnabled(s, e)
    ensures var s' := HubStep(s, e, now);
            if c in s.clients then c in s'.clients && s'.clients[c] == ClientStep(s.clients[c], c, e, now)
            else c in s'.clients <==> e.Register? && e.client == c
  {
  }

  /** What was drained and what is queued are exactly the messages broadcast to the user while registered. */
  ghost predicate Gapless(client: Client, events: seq<Event>, now: nat)
    requires now <= |events|
  {
    && client.since <= End(client, now) <= now
    && client.drained + client.queue == Sent(events, client.user, client.since, End(client, now))
  }

  lemma ClientStepKeepsGapless(client: Client, c: ClientId, events: seq<Event>, now: nat)
    requires now < |events| && Gapless(client, events, now)
    ensures Gapless(ClientStep(client, c, events[now], now), events, now + 1)
  {
    var after := ClientStep(client, c, events[now], now);
    if client.open {
      assert Sent(events, client.user, client.since, now + 1)
          == Sent(events, client.user, client.since, now)
             + if events[now].Broadcast? && events[now].user == client.user then [events[now].data] else [];
    }
  }

  /** Event `e` ends the stream of client `c`: its removal, or a message that it has no room for. */
  predicate EndsStream(client: Client, c: ClientId, e: Event) {
    client.open && (e == Unregister(c) || (e.Broadcast? && e.user == client.user && |client.queue| == QUEUE_SIZE))
  }

  /** The client was registered by event `since`, and if it is closed event `until` ended its stream. */
  predicate WellRecorded(client: Client, c: ClientId, run: seq<HubState>, events: seq<Event>, n: nat)
    requires n < |run| == |events| + 1
  {
    && client.since < n && events[client.since] == Register(c, client.user)
    && (!client.open ==> client.until < n && c in run[client.until].clients
                         && EndsStream(run[client.until].clients[c], c, events[client.until]))
  }

  lemma ClientStepKeepsRecord(client: Client, c: ClientId, run: seq<HubState>, events: seq<Event>, n: nat)
    requires n < |events| && |run| == |events| + 1 && WellRecorded(client, c, run, events, n)
    requires c in run[n].clients && run[n].clients[c] == client && |client.queue| <= QUEUE_SIZE
    ensures WellRecorded(ClientStep(client, c, events[n], n), c, run, events, n + 1)
  {
  }

  lemma {:induction false} RunIsConsistent(run: seq<HubState>, events: seq<Event>, n: nat)
    requires IsHubRun(run, events) && n < |run|
    ensures Consistent(run[n])
  {
    if n > 0 {
      RunIsConsistent(run, events, n - 1);
      StepKeepsConsistent(run[n - 1], events[n - 1], n - 1);
    }
  }

  lemma {:induction false} ClientIsWellKept(run: seq<HubState>, events: seq<Event>, n: nat, c: ClientId)
    requires IsHubRun(run, events) && n < |run| && c in run[n].clients
    ensures Gapless(run[n].clients[c], events, n) && WellRecorded(run[n].clients[c], c, run, events, n)
  {
    assert n > 0;
    var s, e := run[n - 1], events[n - 1];
    RunIsConsistent(run, events, n - 1);
    assert run[n] == HubStep(s, e, n - 1);
    HubTreatsClientsAlone(s, e, n - 1, c);
    if c in s.clients {
      ClientIsWellKept(run, events, n - 1, c);
      ClientStepKeepsGapless(s.clients[c], c, events, n - 1);
      ClientStepKeepsRecord(s.clients[c], c, run, events, n - 1);
    } else {
      assert run[n].clients[c] == Client(e.user, [], [], true, n - 1, n - 1);
    }
  }

  /**
   In every run, what a client has received followed by what is queued for it are exactly the messages broadcast to
   its user since it registered, in order and without gaps, up to now or up to the event that ended its stream; and
   that event is its unregistration or a message that found its queue full.
   */
  lemma StreamsAreGapless(run: seq<HubState>, events: seq<Event>, n: nat, c: ClientId)
    requires IsHubRun(run, events) && n < |run| && c in run[n].clients
    ensures var client := run[n].clients[c];
            && client.since < n && events[client.since] == Register(c, client.user)
            && client.since <= End(client, n) <= n
            && client.drained + client.queue == Sent(events, client.user, client.since, End(client, n))
            && (!client.open ==> client.until < n && c in run[client.until].clients
                                 && EndsStream(run[client.until].clients[c], c, events[client.until]))
            && |client.queue| <= 256 && (client.open <==> InHub(run[n], c))
  {
    RunIsConsistent(run, events, n);
    ClientIsWellKept(run, events, n, c);
  }

  /** A broadcast leaves the clients of all other users alone. */
  lemma OtherUsersUntouched(run: seq<HubState>, events: seq<Event>, n: nat, c: ClientId)
    requires IsHubRun(run, events) && n < |events| && events[n].Broadcast?
    requires c in run[n].clients && run[n].clients[c].user != events[n].user
    ensures c in run[n + 1].clients && run[n + 1].clients[c] == run[n].clients[c]
    ensures InHub(run[n + 1], c) <==> InHub(run[n], c)
  {
    RunIsConsistent(run, events, n);
    HubTreatsClientsAlone(run[n], events[n], n, c);
  }

  // ================================================================ the hub in place

  /** A connection with its buffered send channel. Sending on or closing a closed channel panics. */
  class Connection {
    const user: UserId
    var queue: seq<Data>
    var open: bool
    ghost var drained: seq<Data>
    ghost var since: nat
    ghost var until: nat

    ghost function View(): Client
      reads this
    {
      Client(user, queue, drained, open, since, until)
    }

    constructor (user: UserId, ghost now: nat)
      ensures View() == Client(user, [], [], true, now, now)
    {
      this.user, queue, open, drained, since, until := user, [], true, [], now, now;
    }

    method TrySend(data: Data) returns (sent: bool)
      requires open
      modifies this
      ensures sent == !old(Full(View()))
      ensures View() == if sent then old(View()).(queue := old(queue) + [data]) else old(View())
    {
      sent := |queue| < QUEUE_SIZE;
      if sent { queue := queue + [data]; }
    }

    method Close(ghost now: nat)
      requires open
      modifies this
      ensures View() == Closed(old(View()), now)
    {
      open, until := false, now;
    }

    method Receive() returns (data: Data)
      requires queue != []
      modifies this
      ensures data == old(queue)[0]
      ensures View() == old(View()).(queue := old(queue)[1..], drained := old(drained) + [data])
    {
      data := queue[0];
      queue, drained := queue[1..], drained + [data];
    }

    /** One write of the pump: a message and all that are queued behind it by then. */
    method WriteBatch() returns (batch: seq<Data>)
      requires queue != []
      modifies this
      ensures batch == old(queue)
      ensures View() == old(View()).(queue := [], drained := old(drained) + batch)
    {
      var first := Receive();
      batch := [first];
      var n, i := |queue|, 0;
      while i < n
        invariant i <= n && n - i == |queue|
        invariant batch + queue == old(queue)
        invariant View() == old(View()).(queue := queue, drained := old(drained) + batch)
      {
        var more := Receive();
        batch := batch + [more];
        i := i + 1;
      }
    }
  }

  lemma WithoutTwice(table: Table, user: UserId, first: set<ClientId>, second: set<ClientId>)
    ensures Without(Without(table, user, first), user, second) == Without(table, user, first + second)
  {
    var left := Members(table, user) - first;
    assert Members(table, user) - (first + second) == left - second;
    assert left == {} ==> left - second == {};
    assert Members(Without(table, user, first), user) == left;
    assert table[user := left] - {user} == table - {user};
  }

  /** One more member has been offered a message. */
  lemma OneMoreOffer(s: HubState, user: UserId, offered: set<ClientId>, c: ClientId, data: Data, now: nat)
    requires Consistent(s) && c in Members(s.registered, user) && c !in offered
    ensures var m := Offering(s, user, offered, data, now);
            && c in m.clients && m.clients[c].open && c in Members(m.registered, user)
            && Offering(s, user, offered + {c}, data, now) == Offering(m, user, {c}, data, now)
  {
    var m, m' := Offering(s, user, offered, data, now), Offering(s, user, offered + {c}, data, now);
    MembersAreOpen(s, user);
    if offered == {} {
      assert offered + {c} == {c};
    } else {
      assert FullOnes(s, offered + {c}) == FullOnes(s, offered) + FullOnes(m, {c});
      WithoutTwice(s.registered, user, FullOnes(s, offered), FullOnes(m, {c}));
      assert m'.clients == Offering(m, user, {c}, data, now).clients;
    }
  }

  lemma SingleOffer(s: HubState, user: UserId, c: ClientId, data: Data, now: nat)
    requires c in s.clients && c in Members(s.registered, user)
    ensures Offering(s, user, {c}, data, now)
         == HubState(s.clients[c := Offered(s.clients[c], data, now)],
                     if Full(s.clients[c]) then Without(s.registered, user, {c}) else s.registered)
  {
    assert FullOnes(s, {c}) == if Full(s.clients[c]) then {c} else {};
    assert s.registered[user] - {} == s.registered[user];
    assert s.registered[user := s.registered[user]] == s.registered;
    assert Offering(s, user, {c}, data, now).clients == s.clients[c := Offered(s.clients[c], data, now)];
  }

  class Hub {
    var connections: map<ClientId, Connection>
    var registered: Table

    ghost function View(): HubState
      reads this, connections.Values
    {
      HubState(map c | c in connections :: connections[c].View(), registered)
    }

    ghost predicate Valid()
      reads this
    {
      forall c, d :: c in connections && d in connections && c != d ==> connections[c] != connections[d]
    }

    /** What a change to one connection does to the abstract state. */
    twostate lemma OnlyChanged(c: ClientId)
      requires old(connections) == connections && c in connections
      requires forall d :: d in connections && d != c ==> old(connections[d].View()) == connections[d].View()
      ensures View().clients == old(View()).clients[c := connections[c].View()]
    {
    }

    constructor ()
      ensures View() == HubState(map[], map[]) && Valid()
    {
      connections, registered := map[], map[];
    }

    method Register(c: ClientId, connection: Connection, ghost now: nat)
      requires Valid() && c !in connections && connection !in connections.Values
      requires connection.View() == Client(connection.user, [], [], true, now, now)
      modifies this
      ensures Valid() && View() == HubStep(old(View()), Event.Register(c, connection.user), now)
    {
      var user := connection.user;
      if user !in registered { registered := registered[user := {}]; }
      registered := registered[user := registered[user] + {c}];
      connections := connections[c := connection];
      assert View().clients == old(View()).clients[c := connection.View()];
      assert View().registered == HubStep(old(View()), Event.Register(c, user), now).registered;
    }

    method Unregister(c: ClientId, ghost now: nat)
      requires Valid() && Consistent(View()) && c in connections
      modifies this, connections[c]
      ensures Valid() && View() == HubStep(old(View()), Event.Unregister(c), now)
    {
      var user := connections[c].user;
      assert InHub(View(), c) ==> View().clients[c].open;
      if user in registered {
        if c in registered[user] {
          registered := registered[user := registered[user] - {c}];
          connections[c].Close(now);
          if registered[user] == {} { registered := registered - {user}; }
          OnlyChanged(c);
        }
      }
    }

    /** A non-blocking send to one member, which is closed and removed if it has no room. */
    method Offer(c: ClientId, user: UserId, data: Data, ghost now: nat)
      requires Valid() && c in connections && connections[c].open && c in Members(registered, user)
      modifies this`registered, connections[c]
      ensures Valid() && View() == Offering(old(View()), user, {c}, data, now)
    {
      SingleOffer(View(), user, c, data, now);
      var sent := connections[c].TrySend(data);
      if !sent {
        connections[c].Close(now);
        registered := registered[user := registered[user] - {c}];
        if registered[user] == {} { registered := registered - {user}; }
      }
      OnlyChanged(c);
    }

    /** A snapshot of the members is walked in some order. */
    method Broadcast(user: UserId, data: Data, ghost now: nat)
      requires Valid() && Consistent(View())
      modifies this, connections.Values
      ensures Valid() && View() == HubStep(old(View()), Event.Broadcast(user, data), now)
    {
      if user in registered {
        var members := registered[user];
        var todo := members;
        while todo != {}
          invariant Valid() && todo <= members && connections == old(connections)
          invariant View() == Offering(old(View()), user, members - todo, data, now)
        {
          var c :| c in todo;
          OneMoreOffer(old(View()), user, members - todo, c, data, now);
          assert connections[c].View() == View().clients[c];
          Offer(c, user, data, now);
          assert members - todo + {c} == members - (todo - {c});
          todo := todo - {c};
        }
        assert members - todo == members;
      }
    }
  }
}
