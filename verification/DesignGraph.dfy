/**
  The Fluid design graph: services with client and server ports, and the application
  that joins them directly or over the network on chip.
 */
module DesignGraph {
  import opened Options

  type ServiceId = nat

  datatype Client = Client(service: ServiceId, name: string)

  datatype Server = Server(service: ServiceId, name: string, argSize: int, dataSize: int)

  /** What drawing without the service would join: whoever drives `server` to what `client` drives. */
  datatype Bypass = Bypass(client: Client, server: Server)

  datatype Service = Service(clients: seq<Client>, servers: seq<Server>, bypasses: seq<Bypass>, hidden: bool)

  /** What serves a client: a server, or the number of an unused interface. */
  datatype Provider = Served(server: Server) | Unused(number: nat)

  type Graph = map<Client, Server>

  /** A dictionary of connections; `keys` are in insertion order. */
  datatype Dict = Dict(keys: seq<Client>, at: Graph) {

    ghost predicate Valid() {
      && Distinct(keys)
      && (forall c :: c in keys <==> c in at)
    }

    function Set(c: Client, s: Server): Dict {
      Dict(AddNew(keys, c), at[c := s])
    }

    function Del(c: Client): Dict {
      Dict(Remove(keys, c), at - {c})
    }
  }

  // ---------------------------------------------------------------------
  // Lists used as sets
  // ---------------------------------------------------------------------

  ghost predicate Distinct<T>(s: seq<T>) {
    forall i, j | 0 <= i < j < |s| :: s[i] != s[j]
  }

  function AddNew<T(==,!new)>(s: seq<T>, x: T): (r: seq<T>)
    ensures forall y :: y in r <==> y in s || y == x
    ensures Distinct(s) ==> Distinct(r)
  {
    if x in s then s else s + [x]
  }

  /** `s` without the first `x`. */
  function Remove<T(==,!new)>(s: seq<T>, x: T): (r: seq<T>)
    ensures Distinct(s) ==> Distinct(r) && forall y :: y in r <==> y in s && y != x
  {
    if s == [] then []
    else if s[0] == x then
      assert forall y | y in s :: y == x || y in s[1..];
      s[1..]
    else
      assert forall y | y in s :: y == s[0] || y in s[1..];
      var rest := Remove(s[1..], x);
      assert Distinct(s) ==> Distinct(s[1..]) && s[0] !in s[1..];
      assert Distinct(s) ==> s[0] !in rest;
      [s[0]] + rest
  }

  // ---------------------------------------------------------------------
  // What every sequence of connections keeps
  // ---------------------------------------------------------------------

  ghost predicate DirectOk(services: seq<ServiceId>, m: Dict, clients: seq<Client>, servers: seq<Server>) {
    && m.Valid()
    && Distinct(clients) && Distinct(servers)
    && (forall c :: c in clients <==> c in m.at)
    && (forall c | c in m.at :: m.at[c] in servers && c.service in services)
    && (forall s | s in servers :: s.service in services)
  }

  ghost predicate NocOk(services: seq<ServiceId>, m: Graph, clients: seq<Client>, servers: seq<Server>) {
    && Distinct(clients) && Distinct(servers)
    && (forall c :: c in clients <==> c in m)
    && (forall c | c in m :: m[c] in servers && c.service in services)
    && (forall s | s in servers :: s.service in services)
  }

  /** `m` gives the position of every element of `s`. */
  ghost predicate Indexes<T(!new)>(s: seq<T>, m: map<T, nat>) {
    && (forall x :: x in m <==> x in s)
    && (forall i | 0 <= i < |s| :: m[s[i]] == i)
  }

  /** Every connected client is provided by the server one of its connections names. */
  ghost predicate Provided(direct: Graph, noc: Graph, provider: map<Client, Provider>) {
    forall c | c in direct || c in noc ::
      && c in provider && provider[c].Served?
      && ((c in direct && provider[c].server == direct[c]) || (c in noc && provider[c].server == noc[c]))
  }

  /** Only connected clients have a provider. */
  ghost predicate OnlyConnected(direct: Graph, noc: Graph, provider: map<Client, Provider>) {
    forall c | c in provider :: c in direct || c in noc
  }

  lemma DictSetKeeps(m: Dict, c: Client, s: Server)
    requires m.Valid()
    ensures m.Set(c, s).Valid()
  {
    hide AddNew, Distinct;
  }

  lemma DirectKeeps(services: seq<ServiceId>, m: Dict, clients: seq<Client>, servers: seq<Server>, c: Client, s: Server)
    requires DirectOk(services, m, clients, servers)
    ensures DirectOk(AddNew(AddNew(services, c.service), s.service), m.Set(c, s), AddNew(clients, c),
            AddNew(servers, s))
  {
    hide AddNew, Distinct;
    DictSetKeeps(m, c, s);
    hide Dict.Valid;
    var services1 := AddNew(AddNew(services, c.service), s.service);
    assert forall v | v in services :: v in services1;
  }

  lemma NocKeeps(services: seq<ServiceId>, m: Graph, clients: seq<Client>, servers: seq<Server>, c: Client, s: Server)
    requires NocOk(services, m, clients, servers)
    ensures NocOk(AddNew(AddNew(services, c.service), s.service), m[c := s], AddNew(clients, c), AddNew(servers, s))
    ensures Distinct(AddNew(clients, c)) && Distinct(AddNew(servers, s))
  {
    hide AddNew, Distinct;
    var services1 := AddNew(AddNew(services, c.service), s.service);
    assert forall v | v in services :: v in services1;
  }

  lemma MoreServicesDirect(services: seq<ServiceId>, m: Dict, clients: seq<Client>, servers: seq<Server>,
                           a: ServiceId, b: ServiceId)
    requires DirectOk(services, m, clients, servers)
    ensures DirectOk(AddNew(AddNew(services, a), b), m, clients, servers)
  {
    hide AddNew, Distinct, Dict.Valid;
  }

  lemma MoreServicesNoc(services: seq<ServiceId>, m: Graph, clients: seq<Client>, servers: seq<Server>,
                        a: ServiceId, b: ServiceId)
    requires NocOk(services, m, clients, servers)
    ensures NocOk(AddNew(AddNew(services, a), b), m, clients, servers)
  {
    hide AddNew, Distinct;
  }

  lemma ConnectProvides(direct: Graph, noc: Graph, provider: map<Client, Provider>, c: Client, s: Server)
    requires Provided(direct, noc, provider)
    ensures Provided(direct[c := s], noc, provider[c := Served(s)])
    ensures Provided(direct, noc[c := s], provider[c := Served(s)])
    ensures OnlyConnected(direct, noc, provider) ==>
              && OnlyConnected(direct[c := s], noc, provider[c := Served(s)])
              && OnlyConnected(direct, noc[c := s], provider[c := Served(s)])
  {
  }

  // ---------------------------------------------------------------------
  // The application
  // ---------------------------------------------------------------------

  class Application {
    /** All service objects, whether or not the application uses them. */
    const catalog: map<ServiceId, Service>

    var services: seq<ServiceId>
    var directMap: Dict
    var directClients: seq<Client>
    var directServers: seq<Server>
    var nocMap: map<Client, Server>
    var nocClients: seq<Client>
    var nocServers: seq<Server>
    var serverToIdx: map<Server, nat>
    var clientToIdx: map<Client, nat>
    var provider: map<Client, Provider>

    constructor (catalog: map<ServiceId, Service>)
      ensures this.catalog == catalog && Valid() && Fresh()
      ensures services == [] && directMap == Dict([], map[]) && nocMap == map[] && provider == map[]
      ensures directClients == [] && directServers == [] && nocClients == [] && nocServers == []
    {
      this.catalog := catalog;
      services, directMap, directClients, directServers := [], Dict([], map[]), [], [];
      nocMap, nocClients, nocServers, serverToIdx, clientToIdx := map[], [], [], map[], map[];
      provider := map[];
    }

    ghost predicate Valid()
      reads this
    {
      && Distinct(services)
      && DirectOk(services, directMap, directClients, directServers)
      && NocOk(services, nocMap, nocClients, nocServers)
      && Indexes(nocServers, serverToIdx) && Indexes(nocClients, clientToIdx)
      && Provided(directMap.at, nocMap, provider)
    }

    /** Nothing but connections has given a client a provider: no elaboration or rewrite has run. */
    ghost predicate Fresh()
      reads this
    {
      OnlyConnected(directMap.at, nocMap, provider)
    }

    method Direct(client: Client, server: Server)
      modifies this
      ensures old(Valid()) ==> Valid()
      ensures old(Valid() && Fresh()) ==> Fresh()
      ensures directMap == old(directMap).Set(client, server)
      ensures directClients == AddNew(old(directClients), client)
      ensures directServers == AddNew(old(directServers), server)
      ensures services == AddNew(AddNew(old(services), client.service), server.service)
      ensures provider == old(provider)[client := Served(server)]
      ensures unchanged(`nocMap, `nocClients, `nocServers, `serverToIdx, `clientToIdx)
    {
      hide AddNew, Distinct, DirectOk, NocOk, Indexes, Provided, OnlyConnected;
      if Valid() {
        ConnectProvides(directMap.at, nocMap, provider, client, server);
        DirectKeeps(services, directMap, directClients, directServers, client, server);
        MoreServicesNoc(services, nocMap, nocClients, nocServers, client.service, server.service);
      }
      directMap := directMap.Set(client, server);
      provider := provider[client := Served(server)];
      services := AddNew(services, client.service);
      services := AddNew(services, server.service);
      directClients := AddNew(directClients, client);
      directServers := AddNew(directServers, server);
    }

    method Noc(client: Client, server: Server)
      modifies this
      ensures old(Valid()) ==> Valid()
      ensures old(Valid() && Fresh()) ==> Fresh()
      ensures nocMap == old(nocMap)[client := server]
      ensures nocClients == AddNew(old(nocClients), client)
      ensures nocServers == AddNew(old(nocServers), server)
      ensures services == AddNew(AddNew(old(services), client.service), server.service)
      ensures provider == old(provider)[client := Served(server)]
      ensures unchanged(`directMap, `directClients, `directServers)
    {
      hide AddNew, Distinct, DirectOk, NocOk, Indexes, Provided, OnlyConnected;
      if Valid() {
        ConnectProvides(directMap.at, nocMap, provider, client, server);
        NocKeeps(services, nocMap, nocClients, nocServers, client, server);
        MoreServicesDirect(services, directMap, directClients, directServers, client.service, server.service);
      }
      nocMap := nocMap[client := server];
      provider := provider[client := Served(server)];
      services := AddNew(services, client.service);
      services := AddNew(services, server.service);
      nocClients := AddNew(nocClients, client);
      nocServers := AddNew(nocServers, server);
      Renumber();
    }

    /** Numbers the network's servers and clients in the order of their lists. */
    method Renumber()
      modifies this`serverToIdx, this`clientToIdx
      ensures Distinct(nocServers) ==> Indexes(nocServers, serverToIdx)
      ensures Distinct(nocClients) ==> Indexes(nocClients, clientToIdx)
    {
      hide Distinct, Indexes;
      serverToIdx := Numbered(nocServers);
      clientToIdx := Numbered(nocClients);
    }
  }

  /** The last position of every element of a list. */
  method Numbered<T(==,!new)>(s: seq<T>) returns (m: map<T, nat>)
    ensures forall x :: x in m <==> x in s
    ensures forall x | x in m :: m[x] < |s| && s[m[x]] == x && forall i | m[x] < i < |s| :: s[i] != x
    ensures Distinct(s) ==> Indexes(s, m)
  {
    m := map[];
    for i := 0 to |s|
      invariant forall x :: x in m <==> x in s[..i]
      invariant forall x | x in m :: m[x] < i && s[m[x]] == x && forall j | m[x] < j < i :: s[j] != x
    {
      m := m[s[i] := i];
      assert s[..i + 1] == s[..i] + [s[i]];
    }
    assert s[..|s|] == s;
  }
}
