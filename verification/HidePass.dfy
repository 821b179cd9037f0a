/**
  The rewrite at the start of the drawing pass, step by step on the application: every
  hidden service's bypasses are joined and the service is dropped.
 */
module HidePass {
  import opened Options
  import opened DesignGraph
  import opened Visualizer

  /** The clients driving `h`, and the last of them. */
  method FindDrivers(m: Dict, h: Server) returns (found: seq<Client>, last: Option<Client>)
    ensures found == Drivers(m.keys, m.at, h)
    ensures last == LastOf(found)
  {
    found, last := [], None;
    for k := 0 to |m.keys|
      invariant found + Drivers(m.keys[k..], m.at, h) == Drivers(m.keys, m.at, h)
      invariant last == LastOf(found)
    {
      var c := m.keys[k];
      hide Drivers;
      if c in m.at && m.at[c] == h {
        found, last := found + [c], Some(c);
      }
    }
    assert found + Drivers([], m.at, h) == found;
  }

  /** All connections are between services of the application. */
  ghost predicate Grounded(services: seq<ServiceId>, g: Graph) {
    forall c | c in g :: c.service in services && g[c].service in services
  }

  /** When the rewrite of one service is a contraction. */
  ghost predicate Clean(services: seq<ServiceId>, m: Dict, clients: seq<Client>, servers: seq<Server>,
                        bs: seq<Bypass>) {
    DirectOk(services, m, clients, servers) && Tidy(m.at, bs) && SelfFree(m.at, bs)
  }

  /** `left` is `all` without the clients of `bs`. */
  ghost predicate ClientsLeft(all: seq<Client>, left: seq<Client>, bs: seq<Bypass>) {
    Distinct(left) && forall c :: c in left <==> c in all && forall i | 0 <= i < |bs| :: bs[i].client != c
  }

  ghost predicate ServersLeft(all: seq<Server>, left: seq<Server>, bs: seq<Bypass>) {
    Distinct(left) && forall s :: s in left <==> s in all && forall i | 0 <= i < |bs| :: bs[i].server != s
  }

  lemma OneClientLess(all: seq<Client>, left: seq<Client>, bs: seq<Bypass>, i: nat)
    requires i < |bs| && ClientsLeft(all, left, bs[..i])
    ensures ClientsLeft(all, Remove(left, bs[i].client), bs[..i + 1])
  {
    hide Distinct;
    assert bs[..i + 1] == bs[..i] + [bs[i]];
  }

  lemma OneServerLess(all: seq<Server>, left: seq<Server>, bs: seq<Bypass>, i: nat)
    requires i < |bs| && ServersLeft(all, left, bs[..i])
    ensures ServersLeft(all, Remove(left, bs[i].server), bs[..i + 1])
  {
    hide Distinct;
    assert bs[..i + 1] == bs[..i] + [bs[i]];
  }

  /** A clean service's next bypass is still listed. */
  lemma StillListed(services: seq<ServiceId>, m: Dict, clients: seq<Client>, servers: seq<Server>, bs: seq<Bypass>,
                    i: nat,
                    clients1: seq<Client>, servers1: seq<Server>)
    requires Clean(services, m, clients, servers, bs) && i < |bs|
    requires ClientsLeft(clients, clients1, bs[..i]) && ServersLeft(servers, servers1, bs[..i])
    ensures bs[i].client in m.at && bs[i].client in clients1 && bs[i].server in servers1
  {
    AllAreWired(m.at, bs);
    assert Wired(m.at, bs[i]);
    HiddenAt(bs, i);
    forall j | 0 <= j < i
      ensures bs[j].client != bs[i].client
    {
      HiddenAt(bs, j);
    }
  }

  /** What has been collected for the first `i` bypasses, with what the rest will add, is the whole plan. */
  ghost predicate Planned(m: Dict, bs: seq<Bypass>, i: nat, doomed: seq<Client>, joins: seq<Join>)
    requires i <= |bs|
  {
    && (forall j | 0 <= j < i :: bs[j].client in m.at)
    && doomed + Doomed(m, bs[i..]) == Doomed(m, bs)
    && (Plugged(m.at, bs) ==> joins + Joins(m, bs[i..]) == Joins(m, bs))
  }

  lemma PlanStep(m: Dict, bs: seq<Bypass>, i: nat, doomed: seq<Client>, joins: seq<Join>, found: seq<Client>)
    requires i < |bs| && Planned(m, bs, i, doomed, joins) && bs[i].client in m.at
    requires found == Drivers(m.keys, m.at, bs[i].server)
    ensures Planned(m, bs, i + 1, doomed + [bs[i].client] + found, joins + [Join(LastOf(found), m.at[bs[i].client])])
  {
    hide Drivers;
    assert bs[i..][0] == bs[i] && bs[i..][1..] == bs[i + 1..];
    assert doomed + Doomed(m, bs[i..]) == doomed + [bs[i].client] + found + Doomed(m, bs[i + 1..]);
    if Plugged(m.at, bs) {
      assert joins + Joins(m, bs[i..]) == joins + [Join(LastOf(found), m.at[bs[i].client])] + Joins(m, bs[i + 1..]);
    }
  }

  /** Takes a bypass off the application's lists of direct ports. */
  method Unlist(app: Application, b: Bypass) returns (ok: bool)
    modifies app`directClients, app`directServers
    ensures ok <==> b.client in old(app.directClients) && b.server in old(app.directServers)
    ensures ok ==> app.directClients == Remove(old(app.directClients), b.client)
    ensures ok ==> app.directServers == Remove(old(app.directServers), b.server)
  {
    hide Remove;
    if b.client !in app.directClients {
      return false;
    }
    app.directClients := Remove(app.directClients, b.client);
    if b.server !in app.directServers {
      return false;
    }
    app.directServers := Remove(app.directServers, b.server);
    ok := true;
  }

  /**
    Reads off what bypassing a service deletes and joins, taking its ports off the lists;
    `ok` is false where an exception is raised.
   */
  method Collect(app: Application, bs: seq<Bypass>) returns (ok: bool, doomed: seq<Client>, joins: seq<Join>)
    modifies app`directClients, app`directServers
    ensures ok ==> Plugged(app.directMap.at, bs)
    ensures ok ==> doomed == Doomed(app.directMap, bs) && joins == Joins(app.directMap, bs)
    ensures old(Clean(app.services, app.directMap, app.directClients, app.directServers, bs)) ==>
              ok && ClientsLeft(old(app.directClients), app.directClients, bs)
                  && ServersLeft(old(app.directServers), app.directServers, bs)
  {
    ghost var m, services, clients, servers := app.directMap, app.services, app.directClients, app.directServers;
    ghost var clean := Clean(services, m, clients, servers, bs);
    hide Clean, Left, Remove, Drivers, Planned, Doomed, Joins, Plugged, ClientsLeft, ServersLeft;
    doomed, joins := [], [];
    PlanStart(m, bs);
    if clean {
      StartsListed(services, m, clients, servers, bs);
    }
    for i := 0 to |bs|
      invariant Planned(m, bs, i, doomed, joins)
      invariant clean ==> Left(clients, app.directClients, servers, app.directServers, bs, i)
    {
      if clean {
        LeftStep(services, m, clients, app.directClients, servers, app.directServers, bs, i);
      }
      if bs[i].client !in app.directMap.at {
        return false, [], [];
      }
      var target := app.directMap.at[bs[i].client];
      var found, last := FindDrivers(app.directMap, bs[i].server);
      PlanStep(m, bs, i, doomed, joins, found);
      doomed := doomed + [bs[i].client] + found;
      ok := Unlist(app, bs[i]);
      if !ok {
        return;
      }
      joins := joins + [Join(last, target)];
    }
    if clean {
      LeftDone(clients, app.directClients, servers, app.directServers, bs);
    }
    ok := true;
  }

  lemma PlanStart(m: Dict, bs: seq<Bypass>)
    ensures Planned(m, bs, 0, [], [])
  {
    assert bs[0..] == bs;
  }

  /** The lists of direct ports once the first `i` bypasses have been taken off them. */
  ghost predicate Left(clients: seq<Client>, clients1: seq<Client>, servers: seq<Server>, servers1: seq<Server>,
                       bs: seq<Bypass>, i: nat)
    requires i <= |bs|
  {
    ClientsLeft(clients, clients1, bs[..i]) && ServersLeft(servers, servers1, bs[..i])
  }

  lemma LeftStep(services: seq<ServiceId>, m: Dict, clients: seq<Client>, clients1: seq<Client>,
                 servers: seq<Server>, servers1: seq<Server>,
                 bs: seq<Bypass>, i: nat)
    requires Clean(services, m, clients, servers, bs) && i < |bs| && Left(clients, clients1, servers, servers1, bs, i)
    ensures bs[i].client in m.at && bs[i].client in clients1 && bs[i].server in servers1
    ensures Left(clients, Remove(clients1, bs[i].client), servers, Remove(servers1, bs[i].server), bs, i + 1)
  {
    hide Clean, ClientsLeft, ServersLeft, Remove;
    StillListed(services, m, clients, servers, bs, i, clients1, servers1);
    OneClientLess(clients, clients1, bs, i);
    OneServerLess(servers, servers1, bs, i);
  }

  lemma LeftDone(clients: seq<Client>, clients1: seq<Client>, servers: seq<Server>, servers1: seq<Server>,
                 bs: seq<Bypass>)
    requires Left(clients, clients1, servers, servers1, bs, |bs|)
    ensures ClientsLeft(clients, clients1, bs) && ServersLeft(servers, servers1, bs)
  {
    assert bs[..|bs|] == bs;
  }

  lemma StartsListed(services: seq<ServiceId>, m: Dict, clients: seq<Client>, servers: seq<Server>, bs: seq<Bypass>)
    requires Clean(services, m, clients, servers, bs)
    ensures Left(clients, clients, servers, servers, bs, 0)
  {
  }

  method DeleteDoomed(app: Application, cs: seq<Client>) returns (ok: bool)
    modifies app`directMap
    ensures ok <==> DeleteAll(old(app.directMap), cs).Some?
    ensures ok ==> DeleteAll(old(app.directMap), cs) == Some(app.directMap)
    ensures old(Grounded(app.services, app.directMap.at)) ==> Grounded(app.services, app.directMap.at)
  {
    for j := 0 to |cs|
      invariant old(Grounded(app.services, app.directMap.at)) ==> Grounded(app.services, app.directMap.at)
      invariant DeleteAll(app.directMap, cs[j..]) == DeleteAll(old(app.directMap), cs)
    {
      assert cs[j..][0] == cs[j] && cs[j..][1..] == cs[j + 1..];
      if cs[j] !in app.directMap.at {
        return false;
      }
      app.directMap := app.directMap.Del(cs[j]);
    }
    ok := true;
  }

  /** Both ends of every join belong to services of the application. */
  ghost predicate JoinsWithin(services: seq<ServiceId>, js: seq<Join>) {
    forall i | 0 <= i < |js| ::
        js[i].server.service in services && (js[i].client.Some? ==> js[i].client.value.service in services)
  }

  ghost predicate WithClients(before: seq<Client>, after: seq<Client>, js: seq<Join>) {
    && (Distinct(before) ==> Distinct(after))
    && forall c :: c in after <==> c in before || exists i :: 0 <= i < |js| && js[i].client == Some(c)
  }

  ghost predicate WithServers(before: seq<Server>, after: seq<Server>, js: seq<Join>) {
    && (Distinct(before) ==> Distinct(after))
    && forall s :: s in after <==> s in before || exists i :: 0 <= i < |js| && js[i].server == s
  }

  lemma OneJoinMore(cs0: seq<Client>, cs: seq<Client>, ss0: seq<Server>, ss: seq<Server>, js: seq<Join>, j: nat)
    requires j < |js| && js[j].client.Some? && WithClients(cs0, cs, js[..j]) && WithServers(ss0, ss, js[..j])
    ensures WithClients(cs0, AddNew(cs, js[j].client.value), js[..j + 1])
    ensures WithServers(ss0, AddNew(ss, js[j].server), js[..j + 1])
  {
    hide Distinct, AddNew;
    var was, now := js[..j], js[..j + 1];
    assert now == was + [js[j]];
    assert now[j] == js[j];
    assert forall i | 0 <= i < j :: now[i] == was[i];
  }

  method MakeJoins(app: Application, js: seq<Join>) returns (ok: bool)
    requires JoinsWithin(app.services, js)
    modifies app
    ensures app.services == old(app.services)
    ensures unchanged(app`nocMap, app`nocClients, app`nocServers, app`serverToIdx, app`clientToIdx)
    ensures old(Grounded(app.services, app.directMap.at)) ==> Grounded(app.services, app.directMap.at)
    ensures ok <==> JoinAll(old(app.directMap), js).Some?
    ensures ok ==> JoinAll(old(app.directMap), js) == Some(app.directMap)
    ensures ok ==>
              && WithClients(old(app.directClients), app.directClients, js)
              && WithServers(old(app.directServers), app.directServers, js)
  {
    ghost var services, m, cs0, ss0 := app.services, app.directMap, app.directClients, app.directServers;
    assert js[0..] == js;
    for j := 0 to |js|
      invariant app.services == services
      invariant Grounded(services, m.at) ==> Grounded(services, app.directMap.at)
      invariant unchanged(app`nocMap, app`nocClients, app`nocServers, app`serverToIdx, app`clientToIdx)
      invariant JoinAll(app.directMap, js[j..]) == JoinAll(m, js)
      invariant WithClients(cs0, app.directClients, js[..j]) && WithServers(ss0, app.directServers, js[..j])
    {
      hide WithClients, WithServers, Application.Valid, Application.Fresh, Distinct;
      assert js[j..][0] == js[j] && js[j..][1..] == js[j + 1..];
      if js[j].client.None? {
        return false;
      }
      OneJoinMore(cs0, app.directClients, ss0, app.directServers, js, j);
      app.Direct(js[j].client.value, js[j].server);
    }
    assert js[..|js|] == js && js[|js|..] == [];
    ok := true;
  }

  lemma {:induction false} JoinsAt(m: Dict, bs: seq<Bypass>, i: nat)
    requires i < |bs| && Plugged(m.at, bs)
    ensures |Joins(m, bs)| == |bs|
    ensures Joins(m, bs)[i] == Join(LastOf(Drivers(m.keys, m.at, bs[i].server)), m.at[bs[i].client])
    decreases bs
  {
    hide Drivers;
    if |bs| > 1 {
      JoinsAt(m, bs[1..], if i > 0 then i - 1 else 0);
    }
  }

  lemma PlanIsWithin(services: seq<ServiceId>, m: Dict, bs: seq<Bypass>)
    requires Grounded(services, m.at) && Plugged(m.at, bs)
    ensures JoinsWithin(services, Joins(m, bs))
  {
    hide Joins, Drivers;
    forall i | 0 <= i < |Joins(m, bs)|
      ensures Joins(m, bs)[i].server.service in services
      ensures Joins(m, bs)[i].client.Some? ==> Joins(m, bs)[i].client.value.service in services
    {
      if bs == [] {
        NoJoins(m);
      } else {
        JoinsAt(m, bs, if i < |bs| then i else 0);
        DriversAt(m.keys, m.at, bs[i].server);
      }
    }
  }

  lemma NoJoins(m: Dict)
    ensures Joins(m, []) == []
  {
  }

  // ---------------------------------------------------------------------
  // One service
  // ---------------------------------------------------------------------

  lemma {:induction false} JoinedStay(m: Dict, js: seq<Join>, i: nat)
    requires JoinAll(m, js).Some? && i < |js|
    ensures js[i].client.Some? && js[i].client.value in JoinAll(m, js).value.at
    decreases js
  {
    var m1 := m.Set(js[0].client.value, js[0].server);
    if i > 0 {
      JoinedStay(m1, js[1..], i - 1);
    } else {
      KeysStay(m1, js[1..], js[0].client.value);
    }
  }

  lemma {:induction false} KeysStay(m: Dict, js: seq<Join>, c: Client)
    requires JoinAll(m, js).Some? && c in m.at
    ensures c in JoinAll(m, js).value.at
    decreases js
  {
    if js != [] {
      KeysStay(m.Set(js[0].client.value, js[0].server), js[1..], c);
    }
  }

  lemma {:induction false} BypassClients(bs: seq<Bypass>, c: Client)
    requires Separate(bs)
    ensures c in HiddenBy(bs).Values <==> exists i :: 0 <= i < |bs| && bs[i].client == c
  {
    if c in HiddenBy(bs).Values {
      var h :| h in HiddenBy(bs) && HiddenBy(bs)[h] == c;
      HiddenServers(bs, h);
      var i :| 0 <= i < |bs| && bs[i].server == h;
      HiddenAt(bs, i);
    }
    if i :| 0 <= i < |bs| && bs[i].client == c {
      HiddenAt(bs, i);
      assert bs[i].server in HiddenBy(bs);
    }
  }

  /** The clients listed after rewiring are the connected ones. */
  lemma ClientsMatch(m: Dict, m1: Dict, m2: Dict, clients: seq<Client>, clients1: seq<Client>, clients2: seq<Client>,
                     bs: seq<Bypass>, js: seq<Join>)
    requires Separate(bs) && (forall c :: c in clients <==> c in m.at) && ClientsLeft(clients, clients1, bs)
    requires WithClients(clients1, clients2, js)
    requires JoinAll(m1, js) == Some(m2) && m2.at.Keys == m.at.Keys - HiddenBy(bs).Values
    ensures Distinct(clients2) && forall c :: c in clients2 <==> c in m2.at
  {
    hide Distinct, JoinAll, HiddenBy, Separate;
    forall c
      ensures c in clients2 <==> c in m2.at
    {
      BypassClients(bs, c);
      if i :| 0 <= i < |js| && js[i].client == Some(c) {
        JoinedStay(m1, js, i);
        assert c in m2.at;
      }
      assert c in clients1 <==> c in m2.at;
    }
  }

  /** The servers listed after rewiring cover the connections. */
  lemma ServersMatch(services: seq<ServiceId>, m: Dict, m2: Dict, servers: seq<Server>, servers1: seq<Server>,
                     servers2: seq<Server>,
                     bs: seq<Bypass>, js: seq<Join>)
    requires ServersLeft(servers, servers1, bs) && WithServers(servers1, servers2, js) && JoinsWithin(services, js)
    requires forall c | c in m.at :: m.at[c] in servers
    requires forall s | s in servers :: s.service in services
    requires forall c | c in m2.at :: m2.at[c] !in HiddenBy(bs) && m2.at[c] in m.at.Values
    ensures Distinct(servers2)
    ensures (forall s | s in servers2 :: s.service in services) && forall c | c in m2.at :: m2.at[c] in servers2
  {
    hide Distinct, HiddenBy;
    forall c | c in m2.at
      ensures m2.at[c] in servers2
    {
      HiddenServers(bs, m2.at[c]);
    }
  }

  lemma StaysListed(services: seq<ServiceId>, m: Dict, m1: Dict, m2: Dict, clients: seq<Client>,
                    clients1: seq<Client>, clients2: seq<Client>,
                    servers: seq<Server>, bs: seq<Bypass>, js: seq<Join>)
    requires Clean(services, m, clients, servers, bs) && ClientsLeft(clients, clients1, bs)
             && WithClients(clients1, clients2, js)
    requires JoinAll(m1, js) == Some(m2) && m2.at == Contracted(m.at, bs)
    ensures Distinct(clients2) && (forall c :: c in clients2 <==> c in m2.at) && m2.at.Keys <= m.at.Keys
  {
    hide Contracted, HiddenBy, JoinAll, Distinct, Dict.Valid, ClientsLeft, WithClients, Connected, Foldable, SelfFree,
         Separate;
    SelfFreeFolds(m.at, bs);
    HidingRemovesBypasses(m.at, bs);
    ClientsMatch(m, m1, m2, clients, clients1, clients2, bs, js);
  }

  lemma StaysCovered(services: seq<ServiceId>, m: Dict, m2: Dict, clients: seq<Client>, servers: seq<Server>,
                     servers1: seq<Server>,
                     servers2: seq<Server>, bs: seq<Bypass>, js: seq<Join>)
    requires Clean(services, m, clients, servers, bs) && ServersLeft(servers, servers1, bs)
             && WithServers(servers1, servers2, js)
    requires m2.at == Contracted(m.at, bs) && JoinsWithin(services, js)
    ensures Distinct(servers2)
    ensures (forall s | s in servers2 :: s.service in services) && forall c | c in m2.at :: m2.at[c] in servers2
  {
    hide Contracted, HiddenBy, Distinct, Dict.Valid, ServersLeft, WithServers, Tidy, SelfFree, Foldable, JoinsWithin;
    SelfFreeFolds(m.at, bs);
    HidingRemovesBypasses(m.at, bs);
    ServersMatch(services, m, m2, servers, servers1, servers2, bs, js);
  }

  lemma CleanGrounded(services: seq<ServiceId>, m: Dict, clients: seq<Client>, servers: seq<Server>, bs: seq<Bypass>)
    requires Clean(services, m, clients, servers, bs)
    ensures m.Valid() && Tidy(m.at, bs) && SelfFree(m.at, bs) && Grounded(services, m.at)
  {
    hide Distinct, Tidy, SelfFree, Foldable;
  }

  lemma StaysDirectOk(services: seq<ServiceId>, m: Dict, m1: Dict, m2: Dict, clients: seq<Client>,
                      clients1: seq<Client>, clients2: seq<Client>,
                      servers: seq<Server>, servers1: seq<Server>, servers2: seq<Server>, bs: seq<Bypass>)
    requires Clean(services, m, clients, servers, bs) && Rewire(m, bs) == Some(m2)
    requires Plugged(m.at, bs)
    requires JoinAll(m1, Joins(m, bs)) == Some(m2)
    requires ClientsLeft(clients, clients1, bs) && ServersLeft(servers, servers1, bs)
    requires WithClients(clients1, clients2, Joins(m, bs)) && WithServers(servers1, servers2, Joins(m, bs))
    ensures DirectOk(services, m2, clients2, servers2) && m2.at == Contracted(m.at, bs)
  {
    hide Clean, Rewire, Contracted, HiddenBy, Joins, JoinAll, Distinct, Dict.Valid, ClientsLeft, ServersLeft,
         WithClients, WithServers, Tidy, SelfFree, Foldable, JoinsWithin;
    CleanGrounded(services, m, clients, servers, bs);
    RewireContracts(m, bs);
    PlanIsWithin(services, m, bs);
    StaysListed(services, m, m1, m2, clients, clients1, clients2, servers, bs, Joins(m, bs));
    StaysCovered(services, m, m2, clients, servers, servers1, servers2, bs, Joins(m, bs));
  }

  lemma CleanRewires(services: seq<ServiceId>, m: Dict, clients: seq<Client>, servers: seq<Server>, bs: seq<Bypass>)
    requires Clean(services, m, clients, servers, bs)
    ensures DeleteAll(m, Doomed(m, bs)).Some? && Plugged(m.at, bs)
    ensures JoinAll(DeleteAll(m, Doomed(m, bs)).value, Joins(m, bs)).Some?
  {
    hide Tidy, SelfFree, Contracted, DeleteAll, JoinAll, Doomed, Joins, Distinct;
    RewireContracts(m, bs);
  }

  lemma RewireSteps(m: Dict, bs: seq<Bypass>, m1: Dict, m2: Dict)
    requires Plugged(m.at, bs)
    requires DeleteAll(m, Doomed(m, bs)) == Some(m1) && JoinAll(m1, Joins(m, bs)) == Some(m2)
    ensures Rewire(m, bs) == Some(m2)
  {
    hide DeleteAll, JoinAll, Doomed, Joins;
  }

  /**
    Bypasses one service.  Whatever the wiring, success leaves the specified rewiring; when
    the bypasses can be hidden it succeeds and contracts them.
   */
  method HideService(app: Application, bs: seq<Bypass>) returns (ok: bool)
    requires Grounded(app.services, app.directMap.at)
    modifies app
    ensures app.services == old(app.services)
    ensures unchanged(app`nocMap, app`nocClients, app`nocServers, app`serverToIdx, app`clientToIdx)
    ensures Grounded(app.services, app.directMap.at)
    ensures ok ==> Rewire(old(app.directMap), bs) == Some(app.directMap)
    ensures old(Clean(app.services, app.directMap, app.directClients, app.directServers, bs)) ==>
              && ok && DirectOk(app.services, app.directMap, app.directClients, app.directServers)
              && app.directMap.at == Contracted(old(app.directMap.at), bs)
  {
    ghost var services, m, clients, servers := app.services, app.directMap, app.directClients, app.directServers;
    ghost var clean := Clean(services, m, clients, servers, bs);
    hide Clean, DirectOk, Contracted, Doomed, Joins, DeleteAll, JoinAll, ClientsLeft, ServersLeft, WithClients,
         WithServers, JoinsWithin, Rewire, Grounded, Plugged;
    if clean {
      CleanRewires(services, m, clients, servers, bs);
    }
    var doomed, joins;
    ok, doomed, joins := Collect(app, bs);
    if !ok { return; }
    ghost var clients1, servers1 := app.directClients, app.directServers;
    PlanIsWithin(services, m, bs);
    ghost var m1;
    ok, m1 := DeleteAndJoin(app, doomed, joins);
    if ok {
      RewireSteps(m, bs, m1, app.directMap);
    }
    if clean {
      StaysDirectOk(services, m, m1, app.directMap, clients, clients1, app.directClients, servers, servers1,
          app.directServers, bs);
    }
  }

  method DeleteAndJoin(app: Application, doomed: seq<Client>, joins: seq<Join>) returns (ok: bool, ghost m1: Dict)
    requires JoinsWithin(app.services, joins) && Grounded(app.services, app.directMap.at)
    modifies app
    ensures app.services == old(app.services) && Grounded(app.services, app.directMap.at)
    ensures unchanged(app`nocMap, app`nocClients, app`nocServers, app`serverToIdx, app`clientToIdx)
    ensures ok <==> DeleteAll(old(app.directMap), doomed) == Some(m1) && JoinAll(m1, joins).Some?
    ensures DeleteAll(old(app.directMap), doomed).Some? ==> m1 == DeleteAll(old(app.directMap), doomed).value
    ensures ok ==> JoinAll(m1, joins) == Some(app.directMap)
    ensures ok ==>
              && WithClients(old(app.directClients), app.directClients, joins)
              && WithServers(old(app.directServers), app.directServers, joins)
  {
    hide DeleteAll, JoinAll, WithClients, WithServers, JoinsWithin, Grounded;
    m1 := app.directMap;
    ok := DeleteDoomed(app, doomed);
    if !ok { return; }
    m1 := app.directMap;
    ok := MakeJoins(app, joins);
  }

  // ---------------------------------------------------------------------
  // The whole application
  // ---------------------------------------------------------------------

  type Catalog = map<ServiceId, Service>

  predicate Hides(catalog: Catalog, id: ServiceId) {
    id in catalog && catalog[id].hidden
  }

  /** The bypasses a service contributes: its own if it is hidden. */
  function BypassesOf(catalog: Catalog, id: ServiceId): seq<Bypass> {
    if Hides(catalog, id) then catalog[id].bypasses else []
  }

  /** Each service's bypasses, in the order of the services. */
  function Bypasses(catalog: Catalog, ids: seq<ServiceId>): seq<seq<Bypass>> {
    if ids == [] then [] else [BypassesOf(catalog, ids[0])] + Bypasses(catalog, ids[1..])
  }

  lemma NothingToRewire(m: Dict)
    ensures Rewire(m, []) == Some(m)
  {
  }

  function Without(ids: seq<ServiceId>, gone: seq<ServiceId>): seq<ServiceId> {
    if ids == [] then []
    else (if ids[0] in gone then [] else [ids[0]]) + Without(ids[1..], gone)
  }

  function VisibleServices(catalog: Catalog, ids: seq<ServiceId>): seq<ServiceId> {
    if ids == [] then []
    else (if Hides(catalog, ids[0]) then [] else [ids[0]]) + VisibleServices(catalog, ids[1..])
  }

  lemma {:induction false} WithoutHidden(catalog: Catalog, ids: seq<ServiceId>, gone: seq<ServiceId>)
    requires forall x | x in ids :: x in gone <==> Hides(catalog, x)
    ensures Without(ids, gone) == VisibleServices(catalog, ids)
    decreases ids
  {
    if ids != [] {
      WithoutHidden(catalog, ids[1..], gone);
    }
  }

  lemma {:induction false} WithoutNone(ids: seq<ServiceId>)
    ensures Without(ids, []) == ids
    decreases ids
  {
    if ids != [] {
      WithoutNone(ids[1..]);
    }
  }

  lemma {:induction false} WithoutElsewhere(ids: seq<ServiceId>, gone: seq<ServiceId>, x: ServiceId)
    requires x !in ids
    ensures Without(ids, gone + [x]) == Without(ids, gone) && x !in Without(ids, gone)
    decreases ids
  {
    if ids != [] {
      WithoutElsewhere(ids[1..], gone, x);
    }
  }

  lemma {:induction false} WithoutOneMore(ids: seq<ServiceId>, gone: seq<ServiceId>, x: ServiceId)
    requires Distinct(ids) && x in ids && x !in gone
    ensures x in Without(ids, gone) && Remove(Without(ids, gone), x) == Without(ids, gone + [x])
    decreases ids
  {
    var rest := ids[1..];
    assert ids == [ids[0]] + rest;
    assert Distinct(rest) && ids[0] !in rest;
    if ids[0] == x {
      WithoutElsewhere(rest, gone, x);
      var w := Without(ids, gone);
      assert w[0] == x && w[1..] == Without(rest, gone);
    } else {
      WithoutOneMore(rest, gone, x);
      var w := Without(ids, gone);
      if ids[0] in gone {
        assert w == Without(rest, gone);
      } else {
        assert w[0] == ids[0] && w[1..] == Without(rest, gone);
      }
    }
  }

  lemma BypassesStep(catalog: Catalog, ids: seq<ServiceId>, i: nat)
    requires i < |ids|
    ensures Bypasses(catalog, ids[i..]) == [BypassesOf(catalog, ids[i])] + Bypasses(catalog, ids[i + 1..])
  {
    assert ids[i..][0] == ids[i] && ids[i..][1..] == ids[i + 1..];
  }

  /** One service's turn: the rest is as if it had come first. */
  lemma TurnStep(m: Dict, m1: Dict, bs: seq<Bypass>, gs: seq<seq<Bypass>>, rest: seq<seq<Bypass>>)
    requires gs == [bs] + rest && Rewire(m, bs) == Some(m1)
    ensures RewireAll(m, gs) == RewireAll(m1, rest)
  {
    hide Rewire;
    assert gs[1..] == rest;
  }

  lemma TidyStep(g: Graph, bs: seq<Bypass>, gs: seq<seq<Bypass>>, rest: seq<seq<Bypass>>)
    requires gs == [bs] + rest && Tidy(g, Flat(gs)) && InTurnFree(g, gs)
    ensures Tidy(g, bs) && SelfFree(g, bs)
    ensures Tidy(Contracted(g, bs), Flat(rest)) && InTurnFree(Contracted(g, bs), rest)
  {
    hide Tidy, SelfFree, Contracted, Foldable;
    assert gs[1..] == rest && gs[0] == bs;
    TidyPrefix(g, bs, Flat(rest));
    SelfFreeFolds(g, bs);
    HidingInTurn(g, bs, Flat(rest));
  }

  /** Visible clients and servers are joined exactly when the old connections led from one to the other. */
  ghost predicate PathsContracted(g: Graph, g1: Graph, hid: Hidden) {
    forall c, s | c !in hid.Values && s !in hid :: (c in g1 && g1[c] == s) <==> Leads(g, hid, c, s)
  }

  lemma AllPathsContracted(g: Graph, bs: seq<Bypass>)
    requires Hideable(g, bs)
    ensures PathsContracted(g, Contracted(g, bs), HiddenBy(bs))
  {
    forall c, s | c !in HiddenBy(bs).Values && s !in HiddenBy(bs)
      ensures (c in Contracted(g, bs) && Contracted(g, bs)[c] == s) <==> Leads(g, HiddenBy(bs), c, s)
    {
      HidingContractsPaths(g, bs, c, s);
    }
  }

  /** `gone` lists the hidden services among the first `i`. */
  ghost predicate HiddenAmong(catalog: Catalog, ids: seq<ServiceId>, i: nat, gone: seq<ServiceId>)
    requires i <= |ids|
  {
    && Distinct(gone)
    && (forall x | x in gone :: x in ids[..i])
    && (forall x :: x in gone <==> x in ids[..i] && Hides(catalog, x))
  }

  lemma HiddenAmongStep(catalog: Catalog, ids: seq<ServiceId>, i: nat, gone: seq<ServiceId>)
    requires Distinct(ids) && i < |ids| && HiddenAmong(catalog, ids, i, gone)
    ensures HiddenAmong(catalog, ids, i + 1, if Hides(catalog, ids[i]) then gone + [ids[i]] else gone)
  {
    assert ids[..i + 1] == ids[..i] + [ids[i]];
    assert ids[i] !in ids[..i];
  }

  method RewireServices(app: Application) returns (ok: bool, gone: seq<ServiceId>)
    requires Distinct(app.services) && Grounded(app.services, app.directMap.at)
    modifies app
    ensures app.services == old(app.services)
    ensures ok ==> RewireAll(old(app.directMap), Bypasses(app.catalog, app.services)) == Some(app.directMap)
    ensures ok ==> HiddenAmong(app.catalog, app.services, |app.services|, gone)
    ensures old(Promising(app)) ==> ok && DirectOk(app.services, app.directMap, app.directClients, app.directServers)
  {
    ghost var ids, m, gs := app.services, app.directMap, Bypasses(app.catalog, app.services);
    ghost var clean := Promising(app);
    hide HiddenAmong, RewireAll, DirectOk, Contracted, Bypasses, Flat, Grounded, Rewire, Tidy, SelfFree, InTurnFree,
         Distinct;
    gone := [];
    var i := 0;
    assert ids[0..] == ids;
    NoneHidden(app.catalog, ids);
    while i < |app.services|
      invariant i <= |ids| && app.services == ids && Grounded(ids, app.directMap.at)
      invariant HiddenAmong(app.catalog, ids, i, gone)
      invariant RewireAll(app.directMap, Bypasses(app.catalog, ids[i..])) == RewireAll(m, gs)
      invariant clean ==> DirectOk(ids, app.directMap, app.directClients, app.directServers)
      invariant clean ==> Tidy(app.directMap.at, Flat(Bypasses(app.catalog, ids[i..])))
      invariant clean ==> InTurnFree(app.directMap.at, Bypasses(app.catalog, ids[i..]))
      decreases |ids| - i
    {
      ghost var was, bs, rest := app.directMap, BypassesOf(app.catalog, ids[i]), Bypasses(app.catalog, ids[i + 1..]);
      HiddenAmongStep(app.catalog, ids, i, gone);
      BypassesStep(app.catalog, ids, i);
      if clean {
        TidyStep(was.at, bs, Bypasses(app.catalog, ids[i..]), rest);
      }
      if Hides(app.catalog, app.services[i]) {
        gone := gone + [app.services[i]];
        ok := HideService(app, app.catalog[app.services[i]].bypasses);
        if !ok { return; }
      } else {
        NothingToRewire(was);
        NothingToContract(was.at);
      }
      TurnStep(was, app.directMap, bs, Bypasses(app.catalog, ids[i..]), rest);
      i := i + 1;
    }
    assert ids[|ids|..] == [];
    NothingLeft(app.catalog, app.directMap);
    ok := true;
  }

  lemma NoneHidden(catalog: Catalog, ids: seq<ServiceId>)
    ensures HiddenAmong(catalog, ids, 0, [])
  {
  }

  lemma NothingLeft(catalog: Catalog, m: Dict)
    ensures RewireAll(m, Bypasses(catalog, [])) == Some(m)
  {
  }

  /** Nothing stands in the way of hiding the application's hidden services. */
  ghost predicate Promising(app: Application)
    reads app
  {
    var gs := Bypasses(app.catalog, app.services);
    && DirectOk(app.services, app.directMap, app.directClients, app.directServers)
    && Tidy(app.directMap.at, Flat(gs)) && InTurnFree(app.directMap.at, gs)
  }

  lemma NothingToContract(g: Graph)
    ensures Contracted(g, []) == g
  {
  }

  method DropServices(app: Application, gone: seq<ServiceId>)
    requires Distinct(app.services) && Distinct(gone) && forall x | x in gone :: x in app.services
    modifies app`services
    ensures app.services == Without(old(app.services), gone)
  {
    ghost var ids := app.services;
    WithoutNone(ids);
    for j := 0 to |gone|
      invariant app.services == Without(ids, gone[..j])
    {
      hide Without, Remove;
      assert gone[..j + 1] == gone[..j] + [gone[j]];
      WithoutOneMore(ids, gone[..j], gone[j]);
      app.services := Remove(app.services, gone[j]);
    }
    assert gone[..|gone|] == gone;
  }

  lemma AllHidden(catalog: Catalog, ids: seq<ServiceId>, gone: seq<ServiceId>)
    requires HiddenAmong(catalog, ids, |ids|, gone)
    ensures Distinct(gone) && (forall x | x in gone :: x in ids) && Without(ids, gone) == VisibleServices(catalog, ids)
  {
    assert ids[..|ids|] == ids;
    WithoutHidden(catalog, ids, gone);
  }

  /**
    Hides every service marked so.  Success leaves the services rewired in turn.  With every
    bypass connected and one driver per hidden server it succeeds exactly when no service
    feeds itself through the services before it; it then contracts every chain of bypasses
    and drops one connection per bypass.
   */
  method HideServices(app: Application) returns (ok: bool)
    requires app.Valid()
    modifies app
    ensures var gs := Bypasses(app.catalog, old(app.services));
            && (ok ==> RewireAll(old(app.directMap), gs) == Some(app.directMap))
            && (ok ==> app.services == VisibleServices(app.catalog, old(app.services)))
            && (Tidy(old(app.directMap.at), Flat(gs)) ==>
                  && (ok <==> ServicesApart(old(app.directMap.at), gs))
                  && (ok ==> DirectOk(old(app.services), app.directMap, app.directClients, app.directServers))
                  && (ok ==> PathsContracted(old(app.directMap.at), app.directMap.at, HiddenBy(Flat(gs))))
                  && (ok ==> |app.directMap.at| == |old(app.directMap.at)| - |Flat(gs)|))
  {
    hide RewireAll, Bypasses, Flat, Tidy, InTurnFree, ServicesApart, DirectOk, Distinct, HiddenAmong, Without,
         VisibleServices, Grounded, HiddenBy, PathsContracted;
    ghost var ids, m, gs := app.services, app.directMap, Bypasses(app.catalog, app.services);
    ValidGrounded(app);
    if Tidy(m.at, Flat(gs)) {
      HidingSucceeds(m, gs);
    }
    var gone;
    ok, gone := RewireServices(app);
    if !ok { return; }
    AllHidden(app.catalog, ids, gone);
    DropServices(app, gone);
  }

  lemma ValidGrounded(app: Application)
    requires app.Valid()
    ensures app.directMap.Valid() && Grounded(app.services, app.directMap.at)
  {
    hide Distinct, NocOk, Indexes, Provided;
  }

  /** What rewiring the services in turn comes to, with every bypass connected and one driver per hidden server. */
  lemma HidingSucceeds(m: Dict, gs: seq<seq<Bypass>>)
    requires m.Valid() && Tidy(m.at, Flat(gs))
    ensures InTurnFree(m.at, gs) <==> ServicesApart(m.at, gs)
    ensures RewireAll(m, gs).Some? <==> InTurnFree(m.at, gs)
    ensures RewireAll(m, gs).Some? ==>
              && PathsContracted(m.at, RewireAll(m, gs).value.at, HiddenBy(Flat(gs)))
              && |RewireAll(m, gs).value.at| == |m.at| - |Flat(gs)|
  {
    hide Tidy, InTurnFree, ServicesApart, RewireAll, PathsContracted, HiddenBy, Dict.Valid, Foldable;
    ApartExactly(m.at, gs);
    RewireAllExactly(m, gs);
    if InTurnFree(m.at, gs) {
      InTurnFreeFolds(m.at, gs);
      AllPathsContracted(m.at, Flat(gs));
      HidingRemovesBypasses(m.at, Flat(gs));
    }
  }
}
