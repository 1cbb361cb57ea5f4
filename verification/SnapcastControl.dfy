/**
 snapserver as the hub sees it (src/audio/snapcast_control.rs): its groups, the status
 snapshot a controller reads, and the two calls a controller makes.
 */
module SnapcastControl {
  import opened Wrappers

  type ClientId = Id
  datatype GroupId = GroupId(number: nat)
  type StreamId = nat

  datatype Group = Group(clients: set<ClientId>, stream: StreamId)

  /** The state of the foreign server. */
  datatype Server = Server(groups: map<GroupId, Group>, connected: set<ClientId>)

  predicate InGroup(s: Server, g: GroupId, c: ClientId) {
    g in s.groups && c in s.groups[g].clients
  }

  ghost predicate Known(s: Server, c: ClientId) {
    exists g :: InGroup(s, g, c)
  }

  /** Groups partition the clients the server knows, and every connected client is known. */
  ghost predicate ValidServer(s: Server) {
    && (forall g :: g in s.groups ==> s.groups[g].clients != {})
    && (forall g, h, c :: InGroup(s, g, c) && InGroup(s, h, c) ==> g == h)
    && (forall c :: c in s.connected ==> Known(s, c))
  }

  /** A client thrown out of a group, and the stream of the new group it is put in. */
  datatype Evicted = Evicted(client: ClientId, stream: StreamId)

  function EvictedFrom(s: Server, g: GroupId, clients: set<ClientId>): set<ClientId>
    requires g in s.groups
  {
    s.groups[g].clients - clients
  }

  ghost predicate Rehomed(added: map<GroupId, Evicted>, c: ClientId) {
    exists h :: h in added && added[h].client == c
  }

  /** `added` gives every client evicted from `g` exactly one new group id. */
  ghost predicate FreshGroups(s: Server, g: GroupId, clients: set<ClientId>, added: map<GroupId, Evicted>)
    requires g in s.groups
  {
    && added.Keys !! s.groups.Keys
    && (forall h :: h in added ==> added[h].client in EvictedFrom(s, g, clients))
    && (forall c :: c in EvictedFrom(s, g, clients) ==> Rehomed(added, c))
    && (forall h, k :: h in added && k in added && added[h].client == added[k].client ==> h == k)
  }

  /** The groups after `Group.SetClients`, given the new groups of the evicted clients. */
  function Regrouped(s: Server, g: GroupId, clients: set<ClientId>, added: map<GroupId, Evicted>): Server
    requires g in s.groups
  {
    s.(groups :=
      map h | h in s.groups.Keys + added.Keys && (h == g || h in added || !(s.groups[h].clients <= clients)) ::
        if h == g then s.groups[g].(clients := clients)
        else if h in added then Group({added[h].client}, added[h].stream)
        else s.groups[h].(clients := s.groups[h].clients - clients))
  }

  /**
   The one assumption made about foreign code. `Group.SetClients` makes group `g` exactly
   `clients`: they leave their old groups, groups left empty disappear, and every client evicted
   from `g` gets a new group of its own. Nothing is assumed about the new groups' ids or streams.
   */
  ghost predicate ClientsSet(s: Server, g: GroupId, clients: set<ClientId>, s': Server)
    requires g in s.groups
  {
    exists added :: FreshGroups(s, g, clients, added) && s' == Regrouped(s, g, clients, added)
  }

  /** `Group.SetStream` binds group `g` to `stream` and touches nothing else. */
  function WithStream(s: Server, g: GroupId, stream: StreamId): Server
    requires g in s.groups
  {
    s.(groups := s.groups[g := s.groups[g].(stream := stream)])
  }

  datatype GroupInfo = GroupInfo(id: GroupId, stream: StreamId, clients: seq<ClientId>)

  /** The slice of a `Server.GetStatus` reply the reconciler reads. */
  datatype ServerStatus = ServerStatus(groups: seq<GroupInfo>, connected: seq<ClientId>) {
    /** The id of the first listed group containing `client`. */
    function GroupOf(client: ClientId): (g: Option<GroupId>)
      ensures g.Some? ==> exists i :: 0 <= i < |groups| && groups[i].id == g.value && client in groups[i].clients
      ensures g.None? ==> forall i :: 0 <= i < |groups| ==> client !in groups[i].clients
      decreases |groups|
    {
      if groups == [] then None
      else if client in groups[0].clients then Some(groups[0].id)
      else
        var rest := ServerStatus(groups[1..], connected);
        assert forall i :: 0 <= i < |rest.groups| ==> rest.groups[i] == groups[i + 1];
        assert forall i :: 0 < i < |groups| ==> groups[i] == rest.groups[i - 1];
        rest.GroupOf(client)
    }

    predicate IsConnected(client: ClientId) {
      client in connected
    }
  }

  /** `status` is a listing, in any order, of the server state `s`. */
  ghost predicate Describes(status: ServerStatus, s: Server) {
    && (forall i :: 0 <= i < |status.groups| ==>
          && status.groups[i].id in s.groups
          && status.groups[i].stream == s.groups[status.groups[i].id].stream
          && forall c :: c in status.groups[i].clients <==> c in s.groups[status.groups[i].id].clients)
    && (forall g :: g in s.groups ==> exists i :: 0 <= i < |status.groups| && status.groups[i].id == g)
    && (forall c :: c in status.connected <==> c in s.connected)
  }

  /** Looking a client up in a snapshot finds exactly the one group it was in. */
  lemma {:induction false} GroupOfFindsTheGroup(status: ServerStatus, s: Server, c: ClientId)
    requires ValidServer(s) && Describes(status, s)
    ensures forall g :: status.GroupOf(c) == Some(g) <==> InGroup(s, g, c)
    ensures status.IsConnected(c) ==> status.GroupOf(c).Some?
  {
    forall g ensures status.GroupOf(c) == Some(g) <==> InGroup(s, g, c) {
      if status.GroupOf(c).Some? {
        assert InGroup(s, status.GroupOf(c).value, c);
      }
      if InGroup(s, g, c) {
        var i :| 0 <= i < |status.groups| && status.groups[i].id == g;
        assert c in status.groups[i].clients;
      }
    }
    if status.IsConnected(c) {
      var g :| InGroup(s, g, c);
    }
  }

  /** A reply of the server: its groups, each client flagged as connected or not. */
  datatype JsonClient = JsonClient(id: ClientId, connected: bool)
  datatype JsonGroup = JsonGroup(id: GroupId, stream: StreamId, clients: seq<JsonClient>)

  function Ids(clients: seq<JsonClient>): seq<ClientId> {
    seq(|clients|, i requires 0 <= i < |clients| => clients[i].id)
  }

  /**
   Parse a reply. `None` stands for a reply without the list of groups. Groups keep their order and
   their clients, and a client is connected iff some group lists it with the flag set.
   */
  method ParseServerStatus(reply: Option<seq<JsonGroup>>) returns (r: Result<ServerStatus, string>)
    ensures r.Ok? <==> reply.Some?
    ensures r.Ok? ==> |r.value.groups| == |reply.value|
    ensures r.Ok? ==> forall i :: 0 <= i < |reply.value| ==>
                        r.value.groups[i] ==
                        GroupInfo(reply.value[i].id, reply.value[i].stream, Ids(reply.value[i].clients))
    ensures r.Ok? ==> forall c :: c in r.value.connected <==>
                        exists i :: 0 <= i < |reply.value| && JsonClient(c, true) in reply.value[i].clients
  {
    if reply.None? {
      return Err("GetStatus: missing server.groups");
    }
    var json := reply.value;
    var groups: seq<GroupInfo> := [];
    var connected: seq<ClientId> := [];
    for i := 0 to |json|
      invariant |groups| == i
      invariant forall k :: 0 <= k < i ==> groups[k] == GroupInfo(json[k].id, json[k].stream, Ids(json[k].clients))
      invariant forall c :: c in connected <==> exists k :: 0 <= k < i && JsonClient(c, true) in json[k].clients
    {
      var clients: seq<ClientId> := [];
      ghost var before := connected;
      for j := 0 to |json[i].clients|
        invariant clients == Ids(json[i].clients)[..j]
        invariant forall c :: c in connected <==> c in before || JsonClient(c, true) in json[i].clients[..j]
      {
        var client := json[i].clients[j];
        if client.connected {
          connected := connected + [client.id];
        }
        clients := clients + [client.id];
        assert json[i].clients[..j + 1] == json[i].clients[..j] + [client];
      }
      assert json[i].clients[..|json[i].clients|] == json[i].clients;
      assert clients == Ids(json[i].clients);
      groups := groups + [GroupInfo(json[i].id, json[i].stream, clients)];
    }
    return Ok(ServerStatus(groups, connected));
  }

  /** Why a call fails: no reply, a status reply without groups, or a group the server does not know. */
  datatype ControlError = Unanswered | Malformed | Refused

  /** A reply is what the protocol says, or lacks what it should hold. */
  datatype Reply = Proper | Garbled

  /**
   A server that behaves as assumed, addressed through the calls of the control trait over one connection, which
   may break at any time: it carries the replies of `replies` and none after that. The first call left without a
   reply may still have reached the server, which `lands` tells.
   */
  class Snapserver {
    var state: Server
    var replies: seq<Reply>
    var lands: bool

    ghost predicate Valid() reads this { ValidServer(state) }

    constructor (initial: Server, replies: seq<Reply>, lands: bool)
      requires ValidServer(initial)
      ensures state == initial && this.replies == replies && this.lands == lands && Valid()
    {
      state, this.replies, this.lands := initial, replies, lands;
    }

    /** One call on the connection: its reply, if any, and whether the server got the call. */
    method Ask() returns (reply: Option<Reply>, reached: bool)
      modifies this`replies, this`lands
      ensures old(replies) == [] ==> reply == None && reached == old(lands) && replies == []
      ensures old(replies) != [] ==> reply == Some(old(replies)[0]) && reached && replies == old(replies)[1..]
    {
      if replies == [] {
        reply, reached := None, lands;
        lands := false;
      } else {
        reply, reached := Some(replies[0]), true;
        replies := replies[1..];
      }
    }

    method GetStatus() returns (r: Result<ServerStatus, ControlError>)
      requires Valid()
      modifies this
      ensures Valid() && state == old(state)
      ensures r.Ok? ==> Describes(r.value, state)
      ensures r.Ok? <==> old(replies) != [] && old(replies)[0].Proper?
      ensures r.Err? ==> r.error == if old(replies) == [] then Unanswered else Malformed
      ensures replies == if old(replies) == [] then [] else old(replies)[1..]
    {
      var reply, _ := Ask();
      if reply.None? {
        return Err(Unanswered);
      }
      if reply.value.Garbled? {
        return Err(Malformed);
      }
      var status := Listing();
      return Ok(status);
    }

    method SetGroupClients(g: GroupId, clients: seq<ClientId>) returns (r: Result<(), ControlError>)
      requires Valid()
      requires clients != [] && forall c :: c in clients ==> Known(state, c)
      modifies this
      ensures Valid()
      ensures r == if old(replies) == [] then Err(Unanswered)
                   else if g !in old(state).groups then Err(Refused)
                   else Ok(())
      ensures r.Ok? ==> ClientsSet(old(state), g, (set c | c in clients), state)
      ensures r == Err(Refused) ==> state == old(state)
      ensures state == old(state)
              || (g in old(state).groups && ClientsSet(old(state), g, (set c | c in clients), state))
      ensures replies == if old(replies) == [] then [] else old(replies)[1..]
    {
      var reply, reached := Ask();
      if reached && g in state.groups {
        Regroup(g, clients);
      } else if reply.Some? {
        return Err(Refused);
      }
      return if reply.Some? then Ok(()) else Err(Unanswered);
    }

    method SetGroupStream(g: GroupId, stream: StreamId) returns (r: Result<(), ControlError>)
      requires Valid()
      modifies this
      ensures Valid()
      ensures r == if old(replies) == [] then Err(Unanswered)
                   else if g !in old(state).groups then Err(Refused)
                   else Ok(())
      ensures r.Ok? ==> state == WithStream(old(state), g, stream)
      ensures r == Err(Refused) ==> state == old(state)
      ensures state == old(state) || (g in old(state).groups && state == WithStream(old(state), g, stream))
      ensures replies == if old(replies) == [] then [] else old(replies)[1..]
    {
      var reply, reached := Ask();
      if reached && g in state.groups {
        ghost var was := state;
        state := WithStream(state, g, stream);
        RebindKeepsValid(was, g, stream);
      } else if reply.Some? {
        return Err(Refused);
      }
      return if reply.Some? then Ok(()) else Err(Unanswered);
    }

    /** What the server replies when it is asked for its status. */
    method Listing() returns (status: ServerStatus)
      requires Valid()
      ensures Describes(status, state)
    {
      var reply: seq<JsonGroup> := [];
      var todo := state.groups.Keys;
      while todo != {}
        invariant todo <= state.groups.Keys
        invariant forall g: GroupId :: g in state.groups.Keys - todo ==> Listed(reply, g)
        invariant forall i :: 0 <= i < |reply| ==>
                    reply[i].id in state.groups && Lists(reply[i], state.groups[reply[i].id], state.connected)
        decreases |todo|
      {
        var g :| g in todo;
        var clients := ListClients(state.groups[g].clients, state.connected);
        var listed := JsonGroup(g, state.groups[g].stream, clients);
        ghost var before := reply;
        reply := reply + [listed];
        forall h | h in state.groups.Keys - (todo - {g}) ensures Listed(reply, h) {
          ListedStays(before, listed, h);
        }
        todo := todo - {g};
      }
      var parsed := ParseServerStatus(Some(reply));
      status := parsed.value;
      forall i | 0 <= i < |status.groups|
        ensures forall c :: c in status.groups[i].clients <==> c in state.groups[status.groups[i].id].clients
      {
        ListedIds(reply[i], state.groups[reply[i].id], state.connected);
      }
      forall g | g in state.groups ensures exists i :: 0 <= i < |status.groups| && status.groups[i].id == g {
        assert Listed(reply, g);
        var i :| 0 <= i < |reply| && reply[i].id == g;
        assert status.groups[i].id == g;
      }
      forall c ensures c in status.connected <==> c in state.connected {
        if c in state.connected {
          var g :| InGroup(state, g, c);
          assert Listed(reply, g);
          var i :| 0 <= i < |reply| && reply[i].id == g;
          assert JsonClient(c, true) in reply[i].clients;
        }
      }
    }

    /** What the server does when a group is given clients. */
    method Regroup(g: GroupId, clients: seq<ClientId>)
      requires Valid() && g in state.groups
      requires clients != [] && forall c :: c in clients ==> Known(state, c)
      modifies this`state
      ensures ClientsSet(old(state), g, (set c | c in clients), state)
      ensures Valid()
    {
      var members := set c | c in clients;
      var next := FreshId(state.groups.Keys);
      var added: map<GroupId, Evicted> := map[];
      var todo := EvictedFrom(state, g, members);
      while todo != {}
        invariant todo <= EvictedFrom(state, g, members)
        invariant forall h :: h in state.groups || h in added ==> h.number < next
        invariant added.Keys !! state.groups.Keys
        invariant forall h :: h in added ==> added[h].client in EvictedFrom(state, g, members) - todo
        invariant forall c :: c in EvictedFrom(state, g, members) ==> c in todo || Rehomed(added, c)
        invariant forall h, k :: h in added && k in added && added[h].client == added[k].client ==> h == k
        decreases |todo|
      {
        var c :| c in todo;
        ghost var before := added;
        added := added[GroupId(next) := Evicted(c, state.groups[g].stream)];
        assert added[GroupId(next)].client == c;
        forall d | Rehomed(before, d) ensures Rehomed(added, d) {
          var h :| h in before && before[h].client == d;
          assert added[h].client == d;
        }
        next := next + 1;
        todo := todo - {c};
      }
      ghost var was := state;
      state := Regrouped(state, g, members, added);
      assert clients[0] in members;
      CallKeepsValid(was, g, members, added);
    }
  }

  /** A number larger than every id of `ids`. */
  method FreshId(ids: set<GroupId>) returns (next: nat)
    ensures forall g :: g in ids ==> g.number < next
  {
    next := 0;
    var todo := ids;
    while todo != {}
      invariant todo <= ids
      invariant forall g :: g in ids - todo ==> g.number < next
      decreases |todo|
    {
      var g :| g in todo;
      if next <= g.number {
        next := g.number + 1;
      }
      todo := todo - {g};
    }
  }

  ghost predicate Listed(reply: seq<JsonGroup>, g: GroupId) {
    exists i :: 0 <= i < |reply| && reply[i].id == g
  }

  lemma {:induction false} ListedStays(reply: seq<JsonGroup>, listed: JsonGroup, g: GroupId)
    requires Listed(reply, g) || listed.id == g
    ensures Listed(reply + [listed], g)
  {
    if listed.id == g {
      assert (reply + [listed])[|reply|].id == g;
    } else {
      var i :| 0 <= i < |reply| && reply[i].id == g;
      assert (reply + [listed])[i].id == g;
    }
  }

  ghost predicate Lists(json: JsonGroup, group: Group, connected: set<ClientId>) {
    && json.stream == group.stream
    && (forall c, on :: JsonClient(c, on) in json.clients <==> c in group.clients && on == (c in connected))
  }

  method ListClients(members: set<ClientId>, connected: set<ClientId>) returns (clients: seq<JsonClient>)
    ensures forall c, on :: JsonClient(c, on) in clients <==> c in members && on == (c in connected)
  {
    clients := [];
    var todo := members;
    while todo != {}
      invariant todo <= members
      invariant forall c, on :: JsonClient(c, on) in clients <==> c in members - todo && on == (c in connected)
      decreases |todo|
    {
      var c :| c in todo;
      clients := clients + [JsonClient(c, c in connected)];
      todo := todo - {c};
    }
  }

  lemma {:induction false} ListedIds(json: JsonGroup, group: Group, connected: set<ClientId>)
    requires Lists(json, group, connected)
    ensures forall c :: c in Ids(json.clients) <==> c in group.clients
  {
    forall c ensures c in Ids(json.clients) <==> c in group.clients {
      if c in Ids(json.clients) {
        var i :| 0 <= i < |json.clients| && json.clients[i].id == c;
        assert json.clients[i] == JsonClient(c, json.clients[i].connected);
        assert json.clients[i] in json.clients;
      }
      if c in group.clients {
        var i :| 0 <= i < |json.clients| && json.clients[i] == JsonClient(c, c in connected);
        assert Ids(json.clients)[i] == c;
      }
    }
  }

  /** The assumed call keeps the groups a partition of the same clients. */
  lemma {:induction false} CallKeepsValid(s: Server, g: GroupId, clients: set<ClientId>, added: map<GroupId, Evicted>)
    requires ValidServer(s) && g in s.groups && FreshGroups(s, g, clients, added)
    requires clients != {} && forall c :: c in clients ==> Known(s, c)
    ensures ValidServer(Regrouped(s, g, clients, added))
    ensures forall c :: Known(Regrouped(s, g, clients, added), c) <==> Known(s, c)
  {
    var s' := Regrouped(s, g, clients, added);
    forall h | h in s'.groups ensures s'.groups[h].clients != {} {
      if h != g && h !in added {
        var c :| c in s.groups[h].clients && c !in clients;
        assert c in s'.groups[h].clients;
      }
    }
    forall h, k, c | InGroup(s', h, c) && InGroup(s', k, c) ensures h == k {
      assert h != g && k != g && h !in added && k in added ==> InGroup(s, h, c) && InGroup(s, g, c);
      assert h != g && k != g && h in added && k !in added ==> InGroup(s, k, c) && InGroup(s, g, c);
      CallMoves(s, g, clients, added, h, c);
      CallMoves(s, g, clients, added, k, c);
    }
    forall c | Known(s, c) ensures Known(s', c) {
      var h :| InGroup(s, h, c);
      if c in clients {
        assert InGroup(s', g, c);
      } else if h == g {
        assert c in EvictedFrom(s, g, clients) && Rehomed(added, c);
        var k :| k in added && added[k].client == c;
        assert InGroup(s', k, c);
      } else {
        assert InGroup(s', h, c);
      }
    }
    forall c | Known(s', c) ensures Known(s, c) {
      var h :| InGroup(s', h, c);
      if h in added {
        assert InGroup(s, g, c);
      } else if h != g {
        assert InGroup(s, h, c);
      }
    }
  }

  /** Where one client can be found after the call. */
  lemma {:induction false} CallMoves(s: Server, g: GroupId, clients: set<ClientId>, added: map<GroupId, Evicted>,
                                     h: GroupId, c: ClientId)
    requires g in s.groups && FreshGroups(s, g, clients, added)
    ensures InGroup(Regrouped(s, g, clients, added), h, c) <==>
            if h == g then c in clients
            else if h in added then added[h].client == c
            else InGroup(s, h, c) && c !in clients
  {
  }

  /** The call keeps a valid server valid, and neither adds nor loses a client. */
  lemma {:induction false} ClientsSetKeeps(s: Server, g: GroupId, clients: set<ClientId>, s': Server)
    requires ValidServer(s) && g in s.groups && ClientsSet(s, g, clients, s')
    requires clients != {} && forall c :: c in clients ==> Known(s, c)
    ensures ValidServer(s') && s'.connected == s.connected
    ensures g in s'.groups
    ensures forall c :: Known(s', c) <==> Known(s, c)
  {
    var added :| FreshGroups(s, g, clients, added) && s' == Regrouped(s, g, clients, added);
    CallKeepsValid(s, g, clients, added);
  }

  lemma {:induction false} RebindKeepsValid(s: Server, g: GroupId, stream: StreamId)
    requires ValidServer(s) && g in s.groups
    ensures ValidServer(WithStream(s, g, stream))
    ensures forall h, c :: InGroup(WithStream(s, g, stream), h, c) <==> InGroup(s, h, c)
    ensures forall c :: Known(WithStream(s, g, stream), c) <==> Known(s, c)
  {
    var s' := WithStream(s, g, stream);
    forall h, c ensures InGroup(s', h, c) <==> InGroup(s, h, c) {
    }
    forall c ensures Known(s', c) <==> Known(s, c) {
      if Known(s, c) {
        var h :| InGroup(s, h, c);
        assert InGroup(s', h, c);
      }
    }
  }
}
