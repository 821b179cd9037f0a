/**
  Elaboration of an application into a netlist: interfaces are declared for the network,
  for unused ports and for directly driven servers, and then every port of every service
  is connected to one of them, through a width adapter where the network needs one.
 */
module Elaboration {
  import opened Options
  import opened DesignGraph

  /** The smallest power of two from 2 on that is at least `num`; nothing needs none. */
  method NextPow2(num: nat) returns (p: nat)
    ensures num == 0 ==> p == 0
    ensures num != 0 ==> p >= num && p >= 2 && (p == 2 || p / 2 < num) && exists k :: p == Pow2(k)
  {
    if num == 0 {
      return 0;
    }
    p := 2;
    ghost var k := 1;
    while num > p
      invariant p == Pow2(k) && p >= 2 && (p == 2 || p / 2 < num)
      decreases num - p
    {
      p, k := p * 2, k + 1;
    }
  }

  function Pow2(k: nat): nat {
    if k == 0 then 1 else 2 * Pow2(k - 1)
  }

  // ---------------------------------------------------------------------
  // Netlists
  // ---------------------------------------------------------------------

  /** An interface a port can be connected to; distinct interfaces stand for distinct generated names. */
  datatype Ifc =
    | DirectIfc(server: Server)
    | UnusedIfc(number: nat)
    | NocSvr(index: nat)
    | NocClt(index: nat)
    | FixClt(server: Server)
    | FixSvr(client: Client)

  /** What a declaration names: one interface, or the network's array of them. */
  datatype Target = One(ifc: Ifc) | NocSvrs(size: nat) | NocClts(size: nat)

  datatype Decl = Decl(target: Target, argBits: int, dataBits: int)

  datatype Port = ServerPort(server: Server) | ClientPort(client: Client)

  datatype Conn = Conn(port: Port, ifc: Ifc)

  /** A width adapter, with what its client side and its server side are connected to. */
  datatype Fix = Fix(toC: Ifc, toS: Ifc)

  predicate Declares(d: Decl, i: Ifc) {
    match d.target
    case One(j) => i == j
    case NocSvrs(n) => i.NocSvr? && i.index < n
    case NocClts(n) => i.NocClt? && i.index < n
  }

  /** How many declarations declare the interface. */
  function Count(ds: seq<Decl>, i: Ifc): nat {
    if ds == [] then 0 else Count(ds[..|ds| - 1], i) + if Declares(ds[|ds| - 1], i) then 1 else 0
  }

  lemma CountAdd(ds: seq<Decl>, d: Decl, i: Ifc)
    ensures Count(ds + [d], i) == Count(ds, i) + if Declares(d, i) then 1 else 0
  {
    assert (ds + [d])[..|ds|] == ds;
  }

  // ---------------------------------------------------------------------
  // What an application asks for
  // ---------------------------------------------------------------------

  datatype Config = Config(direct: Graph, directServers: seq<Server>, nocClients: seq<Client>, nocServers: seq<Server>,
                           clientToIdx: map<Client, nat>, serverToIdx: map<Server, nat>,
                           provider: map<Client, Provider>)

  ghost predicate Sound(cfg: Config) {
    && (forall c | c in cfg.direct :: cfg.direct[c] in cfg.directServers)
    && Indexes(cfg.nocClients, cfg.clientToIdx) && Indexes(cfg.nocServers, cfg.serverToIdx)
    && (forall c | c in cfg.nocClients :: c in cfg.provider && cfg.provider[c].Served?)
    && (cfg.nocServers == [] ==> cfg.nocClients == [])
  }

  predicate Native(s: Server) {
    s.argSize == 64 && s.dataSize == 512
  }

  predicate Spare(cfg: Config, s: Server) {
    s !in cfg.directServers && s !in cfg.nocServers
  }

  /** The network client talks to a server of other than the network's widths. */
  predicate NeedsFix(cfg: Config, c: Client) {
    && c !in cfg.direct && c in cfg.nocClients
    && c in cfg.provider && cfg.provider[c].Served? && !Native(cfg.provider[c].server)
  }

  /** How often an interface is declared once the three phases have seen the given ports. */
  function Owed(cfg: Config, spare: seq<Port>, direct: seq<Port>, wired: seq<Port>, unused: nat, i: Ifc): nat {
    match i
    case NocSvr(k) => if k < |cfg.nocClients| then 1 else 0
    case NocClt(k) => if k < |cfg.nocServers| then 1 else 0
    case UnusedIfc(k) => if k < unused then 1 else 0
    case DirectIfc(s) =>
      (if ServerPort(s) in spare && Spare(cfg, s) then 1 else 0)
          + (if ServerPort(s) in direct && s in cfg.directServers then 1 else 0)
    case FixClt(s) => if ServerPort(s) in wired && s in cfg.nocServers && !Native(s) then 1 else 0
    case FixSvr(c) => if ClientPort(c) in wired && NeedsFix(cfg, c) then 1 else 0
  }

  /** The widths an interface should have: those of the server behind it. */
  function Widths(cfg: Config, i: Ifc): (int, int) {
    match i
    case NocSvr(_) => (64, 512)
    case NocClt(_) => (64, 512)
    case UnusedIfc(_) => (32, 512)
    case DirectIfc(s) => (s.argSize, s.dataSize)
    case FixClt(s) => (s.argSize, s.dataSize)
    case FixSvr(c) =>
      if c in cfg.provider && cfg.provider[c].Served? then
        (cfg.provider[c].server.argSize, cfg.provider[c].server.dataSize)
      else (0, 0)
  }

  ghost predicate Declared(cfg: Config, ds: seq<Decl>, spare: seq<Port>, direct: seq<Port>, wired: seq<Port>,
                           unused: nat) {
    && (forall i: Ifc :: Count(ds, i) == Owed(cfg, spare, direct, wired, unused, i))
    && (forall k, i: Ifc | 0 <= k < |ds| && Declares(ds[k], i) :: (ds[k].argBits, ds[k].dataBits) == Widths(cfg, i))
  }

  /** Adding a declaration of the interface that has become owed. */
  lemma DeclareOne(cfg: Config, ds: seq<Decl>, spare: seq<Port>, direct: seq<Port>, wired: seq<Port>, unused: nat,
                   spare1: seq<Port>, direct1: seq<Port>, wired1: seq<Port>, unused1: nat, j: Ifc, w: (int, int))
    requires Declared(cfg, ds, spare, direct, wired, unused) && w == Widths(cfg, j)
    requires forall i: Ifc ::
               Owed(cfg, spare1, direct1, wired1, unused1, i) ==
               Owed(cfg, spare, direct, wired, unused, i) + if i == j then 1 else 0
    ensures Declared(cfg, ds + [Decl(One(j), w.0, w.1)], spare1, direct1, wired1, unused1)
  {
    hide Owed, Count, Widths;
    var ds1 := ds + [Decl(One(j), w.0, w.1)];
    forall i: Ifc
      ensures Count(ds1, i) == Owed(cfg, spare1, direct1, wired1, unused1, i)
    {
      CountAdd(ds, Decl(One(j), w.0, w.1), i);
    }
  }

  /** Seeing a port that asks for no declaration. */
  lemma DeclareNone(cfg: Config, ds: seq<Decl>, spare: seq<Port>, direct: seq<Port>, wired: seq<Port>, unused: nat,
                    spare1: seq<Port>, direct1: seq<Port>, wired1: seq<Port>)
    requires Declared(cfg, ds, spare, direct, wired, unused)
    requires forall i: Ifc ::
             Owed(cfg, spare1, direct1, wired1, unused, i) == Owed(cfg, spare, direct, wired, unused, i)
    ensures Declared(cfg, ds, spare1, direct1, wired1, unused)
  {
    hide Owed, Count, Widths;
  }

  // ---------------------------------------------------------------------
  // Ports
  // ---------------------------------------------------------------------

  function ServerPorts(servers: seq<Server>): seq<Port> {
    if servers == [] then [] else [ServerPort(servers[0])] + ServerPorts(servers[1..])
  }

  function ClientPorts(clients: seq<Client>): seq<Port> {
    if clients == [] then [] else [ClientPort(clients[0])] + ClientPorts(clients[1..])
  }

  /** All ports of the listed services, in the order the passes visit them. */
  function AllPorts(catalog: map<ServiceId, Service>, ids: seq<ServiceId>): seq<Port>
    requires forall id | id in ids :: id in catalog
  {
    if ids == [] then []
    else
      var v := catalog[ids[0]];
      ServerPorts(v.servers) + ClientPorts(v.clients) + AllPorts(catalog, ids[1..])
  }

  lemma Cancel(a: seq<Port>, b: seq<Port>, rest: seq<Port>)
    requires a + rest == b + rest
    ensures a == b
  {
    assert |a + rest| == |b + rest|;
    assert a == (a + rest)[..|a|] && b == (b + rest)[..|b|];
  }

  lemma NotYet(all: seq<Port>, seen: seq<Port>, p: Port, rest: seq<Port>)
    requires all == seen + [p] + rest && Distinct(all)
    ensures p !in seen
  {
    assert all[|seen|] == p;
    assert forall k | 0 <= k < |seen| :: all[k] == seen[k];
  }

  lemma NextServer(all: seq<Port>, seen: seq<Port>, servers: seq<Server>, j: nat, rest: seq<Port>)
    requires j < |servers| && all == seen + ServerPorts(servers[j..]) + rest && Distinct(all)
    ensures ServerPort(servers[j]) !in seen
    ensures all == (seen + [ServerPort(servers[j])]) + ServerPorts(servers[j + 1..]) + rest
  {
    hide Distinct;
    var p := ServerPort(servers[j]);
    assert servers[j..][0] == servers[j] && servers[j..][1..] == servers[j + 1..];
    assert all == seen + [p] + (ServerPorts(servers[j + 1..]) + rest);
    NotYet(all, seen, p, ServerPorts(servers[j + 1..]) + rest);
  }

  lemma NextClient(all: seq<Port>, seen: seq<Port>, clients: seq<Client>, j: nat, rest: seq<Port>)
    requires j < |clients| && all == seen + ClientPorts(clients[j..]) + rest && Distinct(all)
    ensures ClientPort(clients[j]) !in seen
    ensures all == (seen + [ClientPort(clients[j])]) + ClientPorts(clients[j + 1..]) + rest
  {
    hide Distinct;
    var p := ClientPort(clients[j]);
    assert clients[j..][0] == clients[j] && clients[j..][1..] == clients[j + 1..];
    assert all == seen + [p] + (ClientPorts(clients[j + 1..]) + rest);
    NotYet(all, seen, p, ClientPorts(clients[j + 1..]) + rest);
  }

  // ---------------------------------------------------------------------
  // Steps
  // ---------------------------------------------------------------------

  lemma SpareServerStep(cfg: Config, ds: seq<Decl>, seen: seq<Port>, n: nat, s: Server)
    requires Declared(cfg, ds, seen, [], [], n) && ServerPort(s) !in seen
    ensures var ds1 := if Spare(cfg, s) then ds + [Decl(One(DirectIfc(s)), s.argSize, s.dataSize)] else ds;
            Declared(cfg, ds1, seen + [ServerPort(s)], [], [], n)
  {
    hide Declared, Count;
    var seen1 := seen + [ServerPort(s)];
    if Spare(cfg, s) {
      DeclareOne(cfg, ds, seen, [], [], n, seen1, [], [], n, DirectIfc(s), (s.argSize, s.dataSize));
    } else {
      DeclareNone(cfg, ds, seen, [], [], n, seen1, [], []);
    }
  }

  lemma SpareClientStep(cfg: Config, ds: seq<Decl>, seen: seq<Port>, n: nat, c: Client)
    requires Declared(cfg, ds, seen, [], [], n)
    ensures Declared(cfg, ds, seen + [ClientPort(c)], [], [], n)
    ensures Declared(cfg, ds + [Decl(One(UnusedIfc(n)), 32, 512)], seen + [ClientPort(c)], [], [], n + 1)
  {
    hide Declared, Count;
    var seen1 := seen + [ClientPort(c)];
    DeclareOne(cfg, ds, seen, [], [], n, seen1, [], [], n + 1, UnusedIfc(n), (32, 512));
    DeclareNone(cfg, ds, seen, [], [], n, seen1, [], []);
  }

  lemma DirectServerStep(cfg: Config, ds: seq<Decl>, all: seq<Port>, seen: seq<Port>, n: nat, s: Server)
    requires Declared(cfg, ds, all, seen, [], n) && ServerPort(s) !in seen
    ensures var ds1 := if s in cfg.directServers then ds + [Decl(One(DirectIfc(s)), s.argSize, s.dataSize)] else ds;
            Declared(cfg, ds1, all, seen + [ServerPort(s)], [], n)
  {
    hide Declared, Count;
    var seen1 := seen + [ServerPort(s)];
    if s in cfg.directServers {
      DeclareOne(cfg, ds, all, seen, [], n, all, seen1, [], n, DirectIfc(s), (s.argSize, s.dataSize));
    } else {
      DeclareNone(cfg, ds, all, seen, [], n, all, seen1, []);
    }
  }

  lemma WireServerStep(cfg: Config, ds: seq<Decl>, all: seq<Port>, seen: seq<Port>, n: nat, s: Server)
    requires Declared(cfg, ds, all, all, seen, n) && ServerPort(s) !in seen
    ensures var ds1 := if s in cfg.nocServers && !Native(s) then ds + [Decl(One(FixClt(s)), s.argSize, s.dataSize)]
                       else ds;
            Declared(cfg, ds1, all, all, seen + [ServerPort(s)], n)
  {
    hide Declared, Count;
    var seen1 := seen + [ServerPort(s)];
    if s in cfg.nocServers && !Native(s) {
      DeclareOne(cfg, ds, all, all, seen, n, all, all, seen1, n, FixClt(s), (s.argSize, s.dataSize));
    } else {
      DeclareNone(cfg, ds, all, all, seen, n, all, all, seen1);
    }
  }

  lemma WireClientStep(cfg: Config, ds: seq<Decl>, all: seq<Port>, seen: seq<Port>, n: nat, c: Client)
    requires Declared(cfg, ds, all, all, seen, n) && ClientPort(c) !in seen
    ensures var ds1 :=
              if NeedsFix(cfg, c) then
                ds + [Decl(One(FixSvr(c)), cfg.provider[c].server.argSize, cfg.provider[c].server.dataSize)]
              else ds;
            Declared(cfg, ds1, all, all, seen + [ClientPort(c)], n)
  {
    hide Declared, Count;
    var seen1 := seen + [ClientPort(c)];
    if NeedsFix(cfg, c) {
      DeclareOne(cfg, ds, all, all, seen, n, all, all, seen1, n, FixSvr(c),
          (cfg.provider[c].server.argSize, cfg.provider[c].server.dataSize));
    } else {
      DeclareNone(cfg, ds, all, all, seen, n, all, all, seen1);
    }
  }

  // ---------------------------------------------------------------------
  // Wiring
  // ---------------------------------------------------------------------

  /** The interface a port is connected to, given the providers once unused clients have been numbered. */
  function IfcOf(cfg: Config, numbered: map<Client, Provider>, p: Port): Option<Ifc> {
    match p
    case ServerPort(s) =>
      if s in cfg.nocServers then
        if !Native(s) then Some(FixClt(s))
        else if s in cfg.serverToIdx then Some(NocClt(cfg.serverToIdx[s])) else None
      else Some(DirectIfc(s))
    case ClientPort(c) =>
      if c in cfg.direct then Some(DirectIfc(cfg.direct[c]))
      else if c in cfg.nocClients then
        if NeedsFix(cfg, c) then Some(FixSvr(c))
        else if c in cfg.clientToIdx then Some(NocSvr(cfg.clientToIdx[c])) else None
      else if c in numbered && numbered[c].Unused? then Some(UnusedIfc(numbered[c].number))
      else None
  }

  /** Every client seen without a provider has been given a number of its own. */
  ghost predicate NumberedSoFar(before: map<Client, Provider>, after: map<Client, Provider>, seen: seq<Port>, n: nat) {
    && (forall c | c in before :: c in after && after[c] == before[c])
    && (forall c :: c in after ==> c in before || ClientPort(c) in seen)
    && (forall c | ClientPort(c) in seen && c !in before :: c in after && after[c].Unused? && after[c].number < n)
    && (forall c, d | ClientPort(c) in seen && ClientPort(d) in seen && c !in before && d !in before && c != d ::
          c in after && d in after && after[c] != after[d])
  }

  lemma NumberClientStep(before: map<Client, Provider>, after: map<Client, Provider>, seen: seq<Port>, n: nat,
                         c: Client)
    requires NumberedSoFar(before, after, seen, n) && ClientPort(c) !in seen
    ensures c in after ==> NumberedSoFar(before, after, seen + [ClientPort(c)], n)
    ensures c !in after ==> NumberedSoFar(before, after[c := Unused(n)], seen + [ClientPort(c)], n + 1)
  {
  }

  lemma NumberServerStep(before: map<Client, Provider>, after: map<Client, Provider>, seen: seq<Port>, n: nat,
                         s: Server)
    requires NumberedSoFar(before, after, seen, n)
    ensures NumberedSoFar(before, after, seen + [ServerPort(s)], n)
  {
  }

  /** The adapter a port is connected through. */
  function FixOf(cfg: Config, p: Port): seq<Fix> {
    match p
    case ServerPort(s) =>
      if s in cfg.nocServers && !Native(s) && s in cfg.serverToIdx then [Fix(NocClt(cfg.serverToIdx[s]), FixClt(s))]
      else []
    case ClientPort(c) =>
      if NeedsFix(cfg, c) && c in cfg.clientToIdx then [Fix(FixSvr(c), NocSvr(cfg.clientToIdx[c]))] else []
  }

  function FixesFor(cfg: Config, ports: seq<Port>): seq<Fix> {
    if ports == [] then [] else FixesFor(cfg, ports[..|ports| - 1]) + FixOf(cfg, ports[|ports| - 1])
  }

  /** The ports seen are connected, each once, to the interfaces meant for them. */
  ghost predicate WiredSoFar(cfg: Config, numbered: map<Client, Provider>, conns: seq<Conn>, fixes: seq<Fix>,
                             seen: seq<Port>) {
    && |conns| == |seen|
    && (forall k | 0 <= k < |seen| :: conns[k].port == seen[k] && IfcOf(cfg, numbered, seen[k]) == Some(conns[k].ifc))
    && fixes == FixesFor(cfg, seen)
  }

  lemma WireStep(cfg: Config, numbered: map<Client, Provider>, conns: seq<Conn>, fixes: seq<Fix>, seen: seq<Port>,
                 p: Port, i: Ifc)
    requires WiredSoFar(cfg, numbered, conns, fixes, seen) && IfcOf(cfg, numbered, p) == Some(i)
    ensures WiredSoFar(cfg, numbered, conns + [Conn(p, i)], fixes + FixOf(cfg, p), seen + [p])
  {
    hide IfcOf, FixOf;
    assert (seen + [p])[..|seen|] == seen;
  }

  /** The application is configured as `cfg` says, but for the providers of unused clients. */
  ghost predicate Matches(app: Application, cfg: Config)
    reads app
  {
    && app.directMap.at == cfg.direct && (forall c :: c in app.directClients <==> c in cfg.direct)
    && app.directServers == cfg.directServers
    && app.nocClients == cfg.nocClients && app.nocServers == cfg.nocServers
    && app.clientToIdx == cfg.clientToIdx && app.serverToIdx == cfg.serverToIdx
    && Sound(cfg)
  }

  class TopPass {
    var decls: seq<Decl>
    var conns: seq<Conn>
    var fixes: seq<Fix>
    var unusedCount: nat

    constructor ()
      ensures decls == [] && conns == [] && fixes == [] && unusedCount == 0
    {
      decls, conns, fixes, unusedCount := [], [], [], 0;
    }

    method DeclareNoc(app: Application, ghost cfg: Config)
      requires Matches(app, cfg) && decls == []
      modifies this`decls
      ensures Declared(cfg, decls, [], [], [], 0)
    {
      var clients, servers := |app.nocClients|, |app.nocServers|;
      if servers != 0 {
        decls := decls + [Decl(NocSvrs(clients), 64, 512)];
        decls := decls + [Decl(NocClts(servers), 64, 512)];
        forall i: Ifc
          ensures Count(decls, i) == Owed(cfg, [], [], [], 0, i)
        {
          CountAdd([], Decl(NocSvrs(clients), 64, 512), i);
          CountAdd([] + [Decl(NocSvrs(clients), 64, 512)], Decl(NocClts(servers), 64, 512), i);
        }
      }
    }

    ghost predicate SpareDone(app: Application, cfg: Config, seen: seq<Port>)
      reads this, app
    {
      && Matches(app, cfg) && Declared(cfg, decls, seen, [], [], unusedCount)
      && NumberedSoFar(cfg.provider, app.provider, seen, unusedCount)
    }

    method SpareServers(app: Application, servers: seq<Server>, ghost cfg: Config, ghost seen: seq<Port>,
                        ghost rest: seq<Port>)
      requires SpareDone(app, cfg, seen) && Distinct(seen + ServerPorts(servers) + rest)
      modifies this`decls
      ensures SpareDone(app, cfg, seen + ServerPorts(servers))
    {
      hide Declared, NumberedSoFar, Distinct, Sound;
      ghost var all, now := seen + ServerPorts(servers) + rest, seen;
      assert servers[0..] == servers;
      for j := 0 to |servers|
        invariant all == now + ServerPorts(servers[j..]) + rest
        invariant SpareDone(app, cfg, now)
      {
        var s := servers[j];
        NextServer(all, now, servers, j, rest);
        SpareServerStep(cfg, decls, now, unusedCount, s);
        NumberServerStep(cfg.provider, app.provider, now, unusedCount, s);
        if !(s in app.directServers || s in app.nocServers) {
          decls := decls + [Decl(One(DirectIfc(s)), s.argSize, s.dataSize)];
        }
        now := now + [ServerPort(s)];
      }
      assert now + ServerPorts([]) + rest == now + rest;
      Cancel(now, seen + ServerPorts(servers), rest);
    }

    method SpareClients(app: Application, clients: seq<Client>, ghost cfg: Config, ghost seen: seq<Port>,
                        ghost rest: seq<Port>)
      requires SpareDone(app, cfg, seen) && Distinct(seen + ClientPorts(clients) + rest)
      modifies this`decls, this`unusedCount, app`provider
      ensures SpareDone(app, cfg, seen + ClientPorts(clients))
    {
      hide Declared, NumberedSoFar, Distinct, Sound;
      ghost var all, now := seen + ClientPorts(clients) + rest, seen;
      assert clients[0..] == clients;
      for j := 0 to |clients|
        invariant all == now + ClientPorts(clients[j..]) + rest
        invariant SpareDone(app, cfg, now)
      {
        var c := clients[j];
        NextClient(all, now, clients, j, rest);
        SpareClientStep(cfg, decls, now, unusedCount, c);
        NumberClientStep(cfg.provider, app.provider, now, unusedCount, c);
        if c !in app.provider {
          app.provider := app.provider[c := Unused(unusedCount)];
          decls := decls + [Decl(One(UnusedIfc(unusedCount)), 32, 512)];
          unusedCount := unusedCount + 1;
        }
        now := now + [ClientPort(c)];
      }
      assert now + ClientPorts([]) + rest == now + rest;
      Cancel(now, seen + ClientPorts(clients), rest);
    }

    ghost predicate DirectDone(app: Application, cfg: Config, all: seq<Port>, seen: seq<Port>)
      reads this, app
    {
      Matches(app, cfg) && Declared(cfg, decls, all, seen, [], unusedCount)
    }

    method DirectServers(app: Application, servers: seq<Server>, ghost cfg: Config, ghost every: seq<Port>,
                         ghost seen: seq<Port>, ghost rest: seq<Port>)
      requires DirectDone(app, cfg, every, seen) && Distinct(seen + ServerPorts(servers) + rest)
      modifies this`decls
      ensures DirectDone(app, cfg, every, seen + ServerPorts(servers))
    {
      hide Declared, Distinct, Sound;
      ghost var all, now := seen + ServerPorts(servers) + rest, seen;
      assert servers[0..] == servers;
      for j := 0 to |servers|
        invariant all == now + ServerPorts(servers[j..]) + rest
        invariant DirectDone(app, cfg, every, now)
      {
        var s := servers[j];
        NextServer(all, now, servers, j, rest);
        DirectServerStep(cfg, decls, every, now, unusedCount, s);
        if s in app.directServers {
          decls := decls + [Decl(One(DirectIfc(s)), s.argSize, s.dataSize)];
        }
        now := now + [ServerPort(s)];
      }
      assert now + ServerPorts([]) + rest == now + rest;
      Cancel(now, seen + ServerPorts(servers), rest);
    }

    ghost predicate WireDone(app: Application, cfg: Config, all: seq<Port>, seen: seq<Port>)
      reads this, app
    {
      && Matches(app, cfg) && Declared(cfg, decls, all, all, seen, unusedCount)
      && NumberedSoFar(cfg.provider, app.provider, all, unusedCount)
      && OnlyUnusedAdded(cfg, app.provider)
      && WiredSoFar(cfg, app.provider, conns, fixes, seen)
    }

    method WireServers(app: Application, servers: seq<Server>, ghost cfg: Config, ghost every: seq<Port>,
                       ghost seen: seq<Port>, ghost rest: seq<Port>)
      requires WireDone(app, cfg, every, seen) && Distinct(seen + ServerPorts(servers) + rest)
      modifies this`decls, this`conns, this`fixes
      ensures WireDone(app, cfg, every, seen + ServerPorts(servers))
    {
      hide Declared, Distinct, NumberedSoFar, WiredSoFar, OnlyUnusedAdded;
      ghost var all, now := seen + ServerPorts(servers) + rest, seen;
      assert servers[0..] == servers;
      for j := 0 to |servers|
        invariant all == now + ServerPorts(servers[j..]) + rest
        invariant WireDone(app, cfg, every, now)
      {
        NextServer(all, now, servers, j, rest);
        WireServer(app, servers[j], cfg, every, now);
        now := now + [ServerPort(servers[j])];
      }
      assert now + ServerPorts([]) + rest == now + rest;
      Cancel(now, seen + ServerPorts(servers), rest);
    }

    method WireServer(app: Application, s: Server, ghost cfg: Config, ghost every: seq<Port>, ghost seen: seq<Port>)
      requires WireDone(app, cfg, every, seen) && ServerPort(s) !in seen
      modifies this`decls, this`conns, this`fixes
      ensures WireDone(app, cfg, every, seen + [ServerPort(s)])
    {
      hide Declared, NumberedSoFar, WiredSoFar, OnlyUnusedAdded;
      WireServerStep(cfg, decls, every, seen, unusedCount, s);
      ghost var i := IfcOf(cfg, app.provider, ServerPort(s)).value;
      WireStep(cfg, app.provider, conns, fixes, seen, ServerPort(s), i);
      assert fixes + [] == fixes;
      if s in app.nocServers {
        if s.argSize != 64 || s.dataSize != 512 {
          decls := decls + [Decl(One(FixClt(s)), s.argSize, s.dataSize)];
          fixes := fixes + [Fix(NocClt(app.serverToIdx[s]), FixClt(s))];
          conns := conns + [Conn(ServerPort(s), FixClt(s))];
        } else {
          conns := conns + [Conn(ServerPort(s), NocClt(app.serverToIdx[s]))];
        }
      } else {
        conns := conns + [Conn(ServerPort(s), DirectIfc(s))];
      }
    }

    method WireClients(app: Application, clients: seq<Client>, ghost cfg: Config, ghost every: seq<Port>,
                       ghost seen: seq<Port>, ghost rest: seq<Port>)
      requires WireDone(app, cfg, every, seen) && Distinct(seen + ClientPorts(clients) + rest)
      requires every == seen + ClientPorts(clients) + rest
      modifies this`decls, this`conns, this`fixes
      ensures WireDone(app, cfg, every, seen + ClientPorts(clients))
    {
      hide Declared, Distinct, NumberedSoFar, WiredSoFar, OnlyUnusedAdded;
      ghost var all, now := seen + ClientPorts(clients) + rest, seen;
      assert clients[0..] == clients;
      for j := 0 to |clients|
        invariant all == now + ClientPorts(clients[j..]) + rest
        invariant WireDone(app, cfg, every, now)
      {
        NextClient(all, now, clients, j, rest);
        assert all[|now|] == ClientPort(clients[j]);
        WireClient(app, clients[j], cfg, every, now);
        now := now + [ClientPort(clients[j])];
      }
      assert now + ClientPorts([]) + rest == now + rest;
      Cancel(now, seen + ClientPorts(clients), rest);
    }

    method WireClient(app: Application, c: Client, ghost cfg: Config, ghost every: seq<Port>, ghost seen: seq<Port>)
      requires WireDone(app, cfg, every, seen) && ClientPort(c) !in seen && ClientPort(c) in every
      modifies this`decls, this`conns, this`fixes
      ensures WireDone(app, cfg, every, seen + [ClientPort(c)])
    {
      hide Declared, WiredSoFar;
      UnusedIsNumbered(cfg, app.provider, every, unusedCount, c);
      hide NumberedSoFar, OnlyUnusedAdded;
      WireClientStep(cfg, decls, every, seen, unusedCount, c);
      ghost var i := IfcOf(cfg, app.provider, ClientPort(c)).value;
      WireStep(cfg, app.provider, conns, fixes, seen, ClientPort(c), i);
      assert fixes + [] == fixes;
      if c in app.directClients {
        conns := conns + [Conn(ClientPort(c), DirectIfc(app.directMap.at[c]))];
      } else if c in app.nocClients {
        var s := app.provider[c].server;
        if s.argSize != 64 || s.dataSize != 512 {
          decls := decls + [Decl(One(FixSvr(c)), s.argSize, s.dataSize)];
          fixes := fixes + [Fix(FixSvr(c), NocSvr(app.clientToIdx[c]))];
          conns := conns + [Conn(ClientPort(c), FixSvr(c))];
        } else {
          conns := conns + [Conn(ClientPort(c), NocSvr(app.clientToIdx[c]))];
        }
      } else {
        conns := conns + [Conn(ClientPort(c), UnusedIfc(app.provider[c].number))];
      }
    }

    method Spare(app: Application, ghost cfg: Config, ghost all: seq<Port>)
      requires Covered(app.catalog, app.services, all) && SpareDone(app, cfg, [])
      modifies this`decls, this`unusedCount, app`provider
      ensures SpareDone(app, cfg, all)
    {
      hide Declared, NumberedSoFar, Distinct, Matches;
      ghost var seen: seq<Port> := [];
      assert app.services[0..] == app.services;
      for i := 0 to |app.services|
        invariant all == seen + AllPorts(app.catalog, app.services[i..])
        invariant SpareDone(app, cfg, seen)
      {
        var v := app.catalog[app.services[i]];
        ghost var rest := AllPorts(app.catalog, app.services[i + 1..]);
        NextService(app.catalog, app.services, i, all, seen);
        hide AllPorts;
        SpareServers(app, v.servers, cfg, seen, ClientPorts(v.clients) + rest);
        seen := seen + ServerPorts(v.servers);
        SpareClients(app, v.clients, cfg, seen, rest);
        seen := seen + ClientPorts(v.clients);
      }
      assert all == seen;
    }

    method Driven(app: Application, ghost cfg: Config, ghost all: seq<Port>)
      requires Covered(app.catalog, app.services, all) && DirectDone(app, cfg, all, [])
      modifies this`decls
      ensures DirectDone(app, cfg, all, all)
    {
      hide Declared, Distinct, Matches;
      ghost var seen: seq<Port> := [];
      assert app.services[0..] == app.services;
      for i := 0 to |app.services|
        invariant all == seen + AllPorts(app.catalog, app.services[i..])
        invariant DirectDone(app, cfg, all, seen)
      {
        var v := app.catalog[app.services[i]];
        ghost var rest := AllPorts(app.catalog, app.services[i + 1..]);
        NextService(app.catalog, app.services, i, all, seen);
        hide AllPorts;
        DirectServers(app, v.servers, cfg, all, seen, ClientPorts(v.clients) + rest);
        seen := seen + ServerPorts(v.servers);
        DirectClientsStep(cfg, decls, all, seen, unusedCount, v.clients);
        seen := seen + ClientPorts(v.clients);
      }
      assert all == seen;
    }

    method Wire(app: Application, ghost cfg: Config, ghost all: seq<Port>)
      requires Covered(app.catalog, app.services, all) && WireDone(app, cfg, all, [])
      modifies this`decls, this`conns, this`fixes
      ensures WireDone(app, cfg, all, all)
    {
      hide Declared, NumberedSoFar, WiredSoFar, OnlyUnusedAdded, Distinct, Matches;
      ghost var seen: seq<Port> := [];
      assert app.services[0..] == app.services;
      for i := 0 to |app.services|
        invariant all == seen + AllPorts(app.catalog, app.services[i..])
        invariant WireDone(app, cfg, all, seen)
      {
        var v := app.catalog[app.services[i]];
        ghost var rest := AllPorts(app.catalog, app.services[i + 1..]);
        NextService(app.catalog, app.services, i, all, seen);
        hide AllPorts;
        WireServers(app, v.servers, cfg, all, seen, ClientPorts(v.clients) + rest);
        seen := seen + ServerPorts(v.servers);
        WireClients(app, v.clients, cfg, all, seen, rest);
        seen := seen + ClientPorts(v.clients);
      }
      assert all == seen;
    }

    /** Elaborates the application. */
    method Run(app: Application)
      requires app.Valid() && app.Fresh() && Catalogued(app)
      modifies this, app`provider
      ensures Elaborated(old(ConfigOf(app)), AllPorts(app.catalog, app.services), app.provider, decls, conns, fixes,
              unusedCount)
    {
      hide Declared, NumberedSoFar, WiredSoFar, OnlyUnusedAdded, Distinct, AllPorts, Sound, Proper, Application.Valid,
           Application.Fresh;
      ghost var cfg, all := ConfigOf(app), AllPorts(app.catalog, app.services);
      ConfigMatches(app);
      PortsCovered(app);
      decls, conns, fixes, unusedCount := [], [], [], 0;
      DeclareNoc(app, cfg);
      NoPorts(cfg, app.provider);
      Spare(app, cfg, all);
      Driven(app, cfg, all);
      OnlyUnused(cfg, app.provider, all, unusedCount);
      NoPorts(cfg, app.provider);
      Wire(app, cfg, all);
    }
  }

  /** A finished netlist: what is declared, how every port is wired, and how unused clients are numbered. */
  ghost predicate Elaborated(cfg: Config, all: seq<Port>, numbered: map<Client, Provider>, decls: seq<Decl>,
                             conns: seq<Conn>, fixes: seq<Fix>, unused: nat) {
    && Sound(cfg) && Distinct(all)
    && (forall s | s in cfg.directServers || s in cfg.nocServers :: ServerPort(s) in all)
    && Declared(cfg, decls, all, all, all, unused)
    && WiredSoFar(cfg, numbered, conns, fixes, all)
    && NumberedSoFar(cfg.provider, numbered, all, unused) && OnlyUnusedAdded(cfg, numbered)
  }

  ghost function ConfigOf(app: Application): Config
    reads app
  {
    Config(app.directMap.at, app.directServers, app.nocClients, app.nocServers, app.clientToIdx, app.serverToIdx,
        app.provider)
  }

  /** `all` are the ports of the services, without repetition. */
  ghost predicate Covered(catalog: map<ServiceId, Service>, ids: seq<ServiceId>, all: seq<Port>) {
    (forall id | id in ids :: id in catalog) && all == AllPorts(catalog, ids) && Distinct(all)
  }

  /** Every service of the application is in the catalog, which lists each port once, under its own service, and all
      connected ports. */
  ghost predicate Catalogued(app: Application)
    reads app
  {
    && (forall id | id in app.services :: id in app.catalog && Proper(id, app.catalog[id]))
    && (forall s | s in app.directServers || s in app.nocServers ::
        s.service in app.catalog && s in app.catalog[s.service].servers)
  }

  ghost predicate Proper(id: ServiceId, v: Service) {
    && Distinct(v.servers) && Distinct(v.clients)
    && (forall s | s in v.servers :: s.service == id) && (forall c | c in v.clients :: c.service == id)
  }

  lemma NextService(catalog: map<ServiceId, Service>, ids: seq<ServiceId>, i: nat, all: seq<Port>, seen: seq<Port>)
    requires (forall id | id in ids :: id in catalog) && i < |ids| && Distinct(all)
             && all == seen + AllPorts(catalog, ids[i..])
    ensures var v, rest := catalog[ids[i]], AllPorts(catalog, ids[i + 1..]);
            && all == seen + ServerPorts(v.servers) + (ClientPorts(v.clients) + rest)
            && all == (seen + ServerPorts(v.servers)) + ClientPorts(v.clients) + rest
            && all == (seen + ServerPorts(v.servers) + ClientPorts(v.clients)) + rest
  {
    hide Distinct, ServerPorts, ClientPorts;
    assert ids[i..][0] == ids[i] && ids[i..][1..] == ids[i + 1..];
  }

  lemma {:induction false} ClientsNoServers(clients: seq<Client>, s: Server)
    ensures ServerPort(s) !in ClientPorts(clients)
    decreases clients
  {
    if clients != [] {
      ClientsNoServers(clients[1..], s);
    }
  }

  lemma DirectClientsStep(cfg: Config, ds: seq<Decl>, all: seq<Port>, seen: seq<Port>, n: nat, clients: seq<Client>)
    requires Declared(cfg, ds, all, seen, [], n)
    ensures Declared(cfg, ds, all, seen + ClientPorts(clients), [], n)
  {
    hide Declared;
    var seen1 := seen + ClientPorts(clients);
    forall i: Ifc
      ensures Owed(cfg, all, seen1, [], n, i) == Owed(cfg, all, seen, [], n, i)
    {
      if i.DirectIfc? {
        ClientsNoServers(clients, i.server);
      }
    }
    DeclareNone(cfg, ds, all, seen, [], n, all, seen1, []);
  }

  lemma NoPorts(cfg: Config, provider: map<Client, Provider>)
    ensures NumberedSoFar(provider, provider, [], 0) && WiredSoFar(cfg, provider, [], [], [])
  {
  }

  lemma ConfigMatches(app: Application)
    requires app.Valid()
    ensures Matches(app, ConfigOf(app))
    ensures app.Fresh() ==> forall c | c in app.provider :: c in app.directMap.at || c in app.nocClients
  {
    hide Distinct, Dict.Valid, Indexes;
    if app.nocClients != [] {
      assert app.nocClients[0] in app.nocMap;
    }
  }

  function OwnerOf(p: Port): ServiceId {
    match p case ServerPort(s) => s.service case ClientPort(c) => c.service
  }

  lemma {:induction false} ServerPortsAre(servers: seq<Server>)
    ensures |ServerPorts(servers)| == |servers|
    ensures forall k | 0 <= k < |servers| :: ServerPorts(servers)[k] == ServerPort(servers[k])
    decreases servers
  {
    if servers != [] {
      ServerPortsAre(servers[1..]);
    }
  }

  lemma {:induction false} ClientPortsAre(clients: seq<Client>)
    ensures |ClientPorts(clients)| == |clients|
    ensures forall k | 0 <= k < |clients| :: ClientPorts(clients)[k] == ClientPort(clients[k])
    decreases clients
  {
    if clients != [] {
      ClientPortsAre(clients[1..]);
    }
  }

  lemma ServicePorts(id: ServiceId, v: Service)
    requires Proper(id, v)
    ensures Distinct(ServerPorts(v.servers) + ClientPorts(v.clients))
    ensures forall p | p in ServerPorts(v.servers) + ClientPorts(v.clients) :: OwnerOf(p) == id
    ensures forall s | s in v.servers :: ServerPort(s) in ServerPorts(v.servers) + ClientPorts(v.clients)
  {
    hide ServerPorts, ClientPorts;
    ServerPortsAre(v.servers);
    ClientPortsAre(v.clients);
    forall s | s in v.servers
      ensures ServerPort(s) in ServerPorts(v.servers) + ClientPorts(v.clients)
    {
      var k :| 0 <= k < |v.servers| && v.servers[k] == s;
      assert (ServerPorts(v.servers) + ClientPorts(v.clients))[k] == ServerPort(s);
    }
  }

  lemma DistinctJoin(a: seq<Port>, b: seq<Port>)
    requires Distinct(a) && Distinct(b) && forall p | p in a :: p !in b
    ensures Distinct(a + b)
  {
    forall i, j | 0 <= i < j < |a + b|
      ensures (a + b)[i] != (a + b)[j]
    {
      assert i < |a| <= j ==> a[i] in a && b[j - |a|] in b;
    }
  }

  lemma {:induction false} PortsDistinct(catalog: map<ServiceId, Service>, ids: seq<ServiceId>)
    requires Distinct(ids) && forall id | id in ids :: id in catalog && Proper(id, catalog[id])
    ensures Distinct(AllPorts(catalog, ids))
    ensures forall p | p in AllPorts(catalog, ids) :: OwnerOf(p) in ids
    ensures forall id, s | id in ids && s in catalog[id].servers :: ServerPort(s) in AllPorts(catalog, ids)
    decreases ids
  {
    if ids != [] {
      var id, rest := ids[0], ids[1..];
      assert Distinct(rest) && id !in rest;
      hide Distinct, Proper, ServerPorts, ClientPorts;
      ServicePorts(id, catalog[id]);
      PortsDistinct(catalog, rest);
      DistinctJoin(ServerPorts(catalog[id].servers) + ClientPorts(catalog[id].clients), AllPorts(catalog, rest));
      assert forall x | x in ids :: x == id || x in rest;
    }
  }

  lemma PortsCovered(app: Application)
    requires app.Valid() && Catalogued(app)
    ensures Covered(app.catalog, app.services, AllPorts(app.catalog, app.services))
    ensures forall s | s in app.directServers || s in app.nocServers ::
            ServerPort(s) in AllPorts(app.catalog, app.services)
  {
    hide Distinct, Proper, AllPorts, Indexes, Provided, Dict.Valid;
    PortsDistinct(app.catalog, app.services);
  }

  /** Clients that already had a provider are connected. */
  ghost predicate OnlyUnusedAdded(cfg: Config, after: map<Client, Provider>) {
    forall c | c in cfg.provider ::
        (c in cfg.direct || c in cfg.nocClients) && c in after && after[c] == cfg.provider[c]
  }

  lemma UnusedIsNumbered(cfg: Config, after: map<Client, Provider>, every: seq<Port>, n: nat, c: Client)
    requires NumberedSoFar(cfg.provider, after, every, n) && OnlyUnusedAdded(cfg, after) && Sound(cfg)
             && ClientPort(c) in every
    ensures c !in cfg.direct && c !in cfg.nocClients ==> c in after && after[c].Unused?
    ensures c in cfg.nocClients ==> c in cfg.clientToIdx && c in after && after[c] == cfg.provider[c]
    ensures IfcOf(cfg, after, ClientPort(c)).Some?
  {
  }

  lemma OnlyUnused(cfg: Config, after: map<Client, Provider>, every: seq<Port>, n: nat)
    requires NumberedSoFar(cfg.provider, after, every, n)
    requires forall c | c in cfg.provider :: c in cfg.direct || c in cfg.nocClients
    ensures OnlyUnusedAdded(cfg, after)
  {
  }

  // ---------------------------------------------------------------------
  // What a finished netlist guarantees
  // ---------------------------------------------------------------------

  /** An indexed element's index is in range, and no other element has it. */
  lemma IndexInRange<T(!new)>(s: seq<T>, m: map<T, nat>, x: T)
    requires Indexes(s, m) && x in s
    ensures x in m && m[x] < |s| && s[m[x]] == x
  {
    var k :| 0 <= k < |s| && s[k] == x;
  }

  /** The network interface a port reaches, directly or through its adapter. */
  function NetworkIfc(cfg: Config, p: Port): Option<Ifc> {
    match p
    case ServerPort(s) => if s in cfg.nocServers && s in cfg.serverToIdx then Some(NocClt(cfg.serverToIdx[s])) else None
    case ClientPort(c) =>
      if c !in cfg.direct && c in cfg.nocClients && c in cfg.clientToIdx then Some(NocSvr(cfg.clientToIdx[c]))
      else None
  }

  /** Different ports reach different network interfaces, within the declared arrays. */
  lemma NetworkIndicesDistinct(cfg: Config, p: Port, q: Port)
    requires Sound(cfg) && NetworkIfc(cfg, p).Some?
    ensures match NetworkIfc(cfg, p).value
            case NocClt(k) => k < |cfg.nocServers|
            case NocSvr(k) => k < |cfg.nocClients|
            case _ => false
    ensures NetworkIfc(cfg, q) == NetworkIfc(cfg, p) ==> p == q
  {
    if p.ServerPort? {
      IndexInRange(cfg.nocServers, cfg.serverToIdx, p.server);
      if NetworkIfc(cfg, q) == NetworkIfc(cfg, p) {
        IndexInRange(cfg.nocServers, cfg.serverToIdx, q.server);
      }
    } else {
      IndexInRange(cfg.nocClients, cfg.clientToIdx, p.client);
      if NetworkIfc(cfg, q) == NetworkIfc(cfg, p) {
        IndexInRange(cfg.nocClients, cfg.clientToIdx, q.client);
      }
    }
  }

  /** Every interface named by a port is declared exactly once. */
  lemma NamedDeclaredOnce(cfg: Config, all: seq<Port>, numbered: map<Client, Provider>, decls: seq<Decl>,
                          conns: seq<Conn>, fixes: seq<Fix>, unused: nat, k: nat)
    requires Elaborated(cfg, all, numbered, decls, conns, fixes, unused) && k < |conns|
    ensures Count(decls, conns[k].ifc) == 1
  {
    hide Count, Distinct, Indexes, FixesFor;
    var p := all[k];
    assert p in all && IfcOf(cfg, numbered, p) == Some(conns[k].ifc);
    if p.ServerPort? && p.server in cfg.nocServers {
      IndexInRange(cfg.nocServers, cfg.serverToIdx, p.server);
    } else if p.ClientPort? && p.client in cfg.nocClients {
      IndexInRange(cfg.nocClients, cfg.clientToIdx, p.client);
    }
    assert Count(decls, conns[k].ifc) == Owed(cfg, all, all, all, unused, conns[k].ifc);
  }

  lemma {:induction false} FixesAre(cfg: Config, ports: seq<Port>, f: Fix)
    requires f in FixesFor(cfg, ports)
    ensures exists p :: p in ports && FixOf(cfg, p) == [f]
    decreases ports
  {
    var last := ports[|ports| - 1];
    if f !in FixOf(cfg, last) {
      FixesAre(cfg, ports[..|ports| - 1], f);
    } else {
      assert last in ports && FixOf(cfg, last) == [f];
    }
  }

  /** Both sides of every adapter are declared exactly once. */
  lemma AdaptersDeclaredOnce(cfg: Config, all: seq<Port>, numbered: map<Client, Provider>, decls: seq<Decl>,
                             conns: seq<Conn>, fixes: seq<Fix>, unused: nat, f: Fix)
    requires Elaborated(cfg, all, numbered, decls, conns, fixes, unused) && f in fixes
    ensures Count(decls, f.toC) == 1 && Count(decls, f.toS) == 1
  {
    hide Count, Distinct, Indexes, NumberedSoFar, OnlyUnusedAdded, FixesFor;
    FixesAre(cfg, all, f);
    var p :| p in all && FixOf(cfg, p) == [f];
    if p.ServerPort? {
      IndexInRange(cfg.nocServers, cfg.serverToIdx, p.server);
    } else {
      IndexInRange(cfg.nocClients, cfg.clientToIdx, p.client);
    }
    assert Count(decls, f.toC) == Owed(cfg, all, all, all, unused, f.toC);
    assert Count(decls, f.toS) == Owed(cfg, all, all, all, unused, f.toS);
  }

  /** A client port shares its interface with a server port exactly when the direct map joins them and the server is not
      on the network. */
  lemma SharesExactly(cfg: Config, all: seq<Port>, numbered: map<Client, Provider>, decls: seq<Decl>,
                      conns: seq<Conn>, fixes: seq<Fix>, unused: nat, j: nat, k: nat)
    requires Elaborated(cfg, all, numbered, decls, conns, fixes, unused)
    requires j < |conns| && k < |conns| && conns[j].port.ClientPort? && conns[k].port.ServerPort?
    ensures var c, s := conns[j].port.client, conns[k].port.server;
            conns[j].ifc == conns[k].ifc <==> c in cfg.direct && cfg.direct[c] == s && s !in cfg.nocServers
  {
    hide Count, Distinct, Indexes, FixesFor, Declared, NumberedSoFar;
    assert IfcOf(cfg, numbered, all[j]) == Some(conns[j].ifc) && IfcOf(cfg, numbered, all[k]) == Some(conns[k].ifc);
  }

  /** The netlist is faithful to a direct connection, for all servers, exactly when its server is not also on the
      network. */
  lemma DirectFaithfulExactly(cfg: Config, all: seq<Port>, numbered: map<Client, Provider>, decls: seq<Decl>,
                              conns: seq<Conn>, fixes: seq<Fix>, unused: nat, j: nat)
    requires Elaborated(cfg, all, numbered, decls, conns, fixes, unused)
    requires j < |conns| && conns[j].port.ClientPort? && conns[j].port.client in cfg.direct
    ensures (forall k | 0 <= k < |conns| && conns[k].port.ServerPort? ::
               conns[j].ifc == conns[k].ifc <==> cfg.direct[conns[j].port.client] == conns[k].port.server)
       <==> cfg.direct[conns[j].port.client] !in cfg.nocServers
  {
    var s := cfg.direct[conns[j].port.client];
    assert ServerPort(s) in all;
    var k0 :| 0 <= k0 < |all| && all[k0] == ServerPort(s);
    assert conns[k0].port == ServerPort(s);
    hide Elaborated;
    forall k | 0 <= k < |conns| && conns[k].port.ServerPort?
      ensures conns[j].ifc == conns[k].ifc <==> s == conns[k].port.server && s !in cfg.nocServers
    {
      SharesExactly(cfg, all, numbered, decls, conns, fixes, unused, j, k);
    }
  }

  /** An unconnected client port has an interface of its own. */
  lemma UnusedNotShared(cfg: Config, all: seq<Port>, numbered: map<Client, Provider>, decls: seq<Decl>,
                        conns: seq<Conn>, fixes: seq<Fix>, unused: nat, j: nat, k: nat)
    requires Elaborated(cfg, all, numbered, decls, conns, fixes, unused)
    requires j < |conns| && k < |conns| && conns[j].ifc.UnusedIfc?
    ensures conns[j].ifc == conns[k].ifc <==> j == k
  {
    hide Count, Indexes, FixesFor, Declared;
    assert IfcOf(cfg, numbered, all[j]) == Some(conns[j].ifc) && IfcOf(cfg, numbered, all[k]) == Some(conns[k].ifc);
    assert all[j] in all && all[k] in all;
  }

  lemma {:induction false} CountedIsThere(ds: seq<Decl>, i: Ifc) returns (k: nat)
    requires Count(ds, i) > 0
    ensures k < |ds| && Declares(ds[k], i)
    decreases ds
  {
    if Declares(ds[|ds| - 1], i) {
      k := |ds| - 1;
    } else {
      k := CountedIsThere(ds[..|ds| - 1], i);
    }
  }

  /** The widths a port expects: its own, or those of the server that provides it. */
  function PortWidths(cfg: Config, p: Port): Option<(int, int)> {
    match p
    case ServerPort(s) => Some((s.argSize, s.dataSize))
    case ClientPort(c) =>
      if c in cfg.direct then Some((cfg.direct[c].argSize, cfg.direct[c].dataSize))
      else if c in cfg.nocClients && c in cfg.provider && cfg.provider[c].Served? then
        Some((cfg.provider[c].server.argSize, cfg.provider[c].server.dataSize))
      else None
  }

  /** A connected port's interface is declared with the widths the port expects. */
  lemma WidthsAgree(cfg: Config, all: seq<Port>, numbered: map<Client, Provider>, decls: seq<Decl>,
                    conns: seq<Conn>, fixes: seq<Fix>, unused: nat, k: nat) returns (d: nat)
    requires Elaborated(cfg, all, numbered, decls, conns, fixes, unused) && k < |conns|
    ensures d < |decls| && Declares(decls[d], conns[k].ifc)
    ensures PortWidths(cfg, conns[k].port).Some? ==>
            PortWidths(cfg, conns[k].port).value == (decls[d].argBits, decls[d].dataBits)
  {
    NamedDeclaredOnce(cfg, all, numbered, decls, conns, fixes, unused, k);
    d := CountedIsThere(decls, conns[k].ifc);
    hide Count, Distinct, Indexes, FixesFor, NumberedSoFar;
    assert IfcOf(cfg, numbered, all[k]) == Some(conns[k].ifc) && conns[k].port == all[k];
    assert (decls[d].argBits, decls[d].dataBits) == Widths(cfg, conns[k].ifc);
  }

  lemma {:induction false} FixesInclude(cfg: Config, ports: seq<Port>, p: Port)
    requires p in ports
    ensures forall f | f in FixOf(cfg, p) :: f in FixesFor(cfg, ports)
    decreases ports
  {
    hide FixOf;
    var n := |ports| - 1;
    if p != ports[n] {
      assert p in ports[..n];
      FixesInclude(cfg, ports[..n], p);
    }
  }

  /** A network port's interface is its network interface, or an adapter joins the two. */
  lemma NetworkReached(cfg: Config, all: seq<Port>, numbered: map<Client, Provider>, decls: seq<Decl>,
                       conns: seq<Conn>, fixes: seq<Fix>, unused: nat, k: nat)
    requires Elaborated(cfg, all, numbered, decls, conns, fixes, unused) && k < |conns|
             && NetworkIfc(cfg, conns[k].port).Some?
    ensures var i := NetworkIfc(cfg, conns[k].port).value;
            || conns[k].ifc == i
            || (conns[k].port.ServerPort? && Fix(i, conns[k].ifc) in fixes)
            || (conns[k].port.ClientPort? && Fix(conns[k].ifc, i) in fixes)
  {
    hide Count, Distinct, Indexes, FixesFor, Declared, NumberedSoFar;
    var p := all[k];
    assert p in all && IfcOf(cfg, numbered, p) == Some(conns[k].ifc) && conns[k].port == p;
    FixesInclude(cfg, all, p);
  }

  // ---------------------------------------------------------------------
  // A server with a direct client and a network client
  // ---------------------------------------------------------------------

  const SHARED := Server(0, "s", 64, 512)
  const NEAR := Client(1, "near")
  const FAR := Client(2, "far")

  const THREE_SERVICES: map<ServiceId, Service> :=
    map[0 := Service([], [SHARED], [], false), 1 := Service([NEAR], [], [], false), 2 := Service([FAR], [], [], false)]

  lemma ThreePorts()
    ensures AllPorts(THREE_SERVICES, [1, 0, 2]) == [ClientPort(NEAR), ServerPort(SHARED), ClientPort(FAR)]
  {
    var ids: seq<ServiceId> := [1, 0, 2];
    assert ids[1..] == [0, 2] && [0, 2][1..] == [2] && [2][1..] == [];
    assert ClientPorts([NEAR]) == [ClientPort(NEAR)] && ClientPorts([FAR]) == [ClientPort(FAR)];
    assert ServerPorts([SHARED]) == [ServerPort(SHARED)] && ServerPorts([]) == [] && ClientPorts([]) == [];
    hide ClientPorts, ServerPorts;
    assert AllPorts(THREE_SERVICES, [2]) == [ClientPort(FAR)];
    assert AllPorts(THREE_SERVICES, [0, 2]) == [ServerPort(SHARED), ClientPort(FAR)];
  }

  method SharedApplication() returns (app: Application)
    ensures fresh(app) && app.Valid() && app.Fresh() && app.catalog == THREE_SERVICES && app.services == [1, 0, 2]
    ensures app.directMap.at == map[NEAR := SHARED] && app.directServers == [SHARED]
    ensures app.nocServers == [SHARED] && app.nocClients == [FAR]
    ensures app.provider == map[NEAR := Served(SHARED), FAR := Served(SHARED)]
  {
    hide Application.Valid, Application.Fresh;
    app := new Application(THREE_SERVICES);
    app.Direct(NEAR, SHARED);
    assert app.services == [1, 0] && app.directServers == [SHARED];
    app.Noc(FAR, SHARED);
    assert app.services == [1, 0, 2] && app.nocServers == [SHARED] && app.nocClients == [FAR];
  }

  lemma SharedCatalogued(app: Application)
    requires app.catalog == THREE_SERVICES && app.services == [1, 0, 2]
    requires app.directServers == [SHARED] && app.nocServers == [SHARED]
    ensures Catalogued(app)
  {
  }

  lemma SharedWiring(cfg: Config, numbered: map<Client, Provider>, conns: seq<Conn>, fixes: seq<Fix>)
    requires cfg.direct == map[NEAR := SHARED] && cfg.nocServers == [SHARED] && cfg.nocClients == [FAR]
    requires Indexes(cfg.nocServers, cfg.serverToIdx) && Indexes(cfg.nocClients, cfg.clientToIdx)
    requires FAR in cfg.provider && cfg.provider[FAR] == Served(SHARED)
    requires WiredSoFar(cfg, numbered, conns, fixes, [ClientPort(NEAR), ServerPort(SHARED), ClientPort(FAR)])
    ensures conns == [Conn(ClientPort(NEAR), DirectIfc(SHARED)), Conn(ServerPort(SHARED), NocClt(0)),
                      Conn(ClientPort(FAR), NocSvr(0))]
  {
    hide FixesFor;
    assert cfg.nocServers[0] == SHARED && cfg.nocClients[0] == FAR;
    var seen := [ClientPort(NEAR), ServerPort(SHARED), ClientPort(FAR)];
    assert IfcOf(cfg, numbered, seen[0]) == Some(DirectIfc(SHARED));
    assert IfcOf(cfg, numbered, seen[1]) == Some(NocClt(0));
    assert IfcOf(cfg, numbered, seen[2]) == Some(NocSvr(0));
  }

  /** The server's port goes to the network, and the client joined to it directly is left alone
      on the interface declared for the two. */
  method DirectAndNetwork() returns (netlist: TopPass)
    ensures netlist.conns == [Conn(ClientPort(NEAR), DirectIfc(SHARED)), Conn(ServerPort(SHARED), NocClt(0)),
                              Conn(ClientPort(FAR), NocSvr(0))]
  {
    hide AllPorts, Application.Valid, Application.Fresh, Catalogued, Elaborated, WiredSoFar, Sound;
    var app := SharedApplication();
    SharedCatalogued(app);
    ThreePorts();
    netlist := new TopPass();
    ghost var cfg := ConfigOf(app);
    netlist.Run(app);
    ElaboratedWires(cfg, AllPorts(app.catalog, app.services), app.provider, netlist.decls, netlist.conns, netlist.fixes,
                    netlist.unusedCount);
    SharedWiring(cfg, app.provider, netlist.conns, netlist.fixes);
  }

  lemma ElaboratedWires(cfg: Config, all: seq<Port>, numbered: map<Client, Provider>, decls: seq<Decl>,
                        conns: seq<Conn>, fixes: seq<Fix>, unused: nat)
    requires Elaborated(cfg, all, numbered, decls, conns, fixes, unused)
    ensures WiredSoFar(cfg, numbered, conns, fixes, all)
    ensures Indexes(cfg.nocServers, cfg.serverToIdx) && Indexes(cfg.nocClients, cfg.clientToIdx)
  {
  }
}
