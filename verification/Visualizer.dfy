/**
  Hiding FIFO services from the drawing.  A hidden service passes traffic from its
  server to its client (a bypass); removing it joins whoever drives the server to
  whatever the client drives.  The rewritten map is the contraction of all hidden
  chains, of any length.
 */
module Visualizer {
  import opened Options
  import opened DesignGraph

  /** The hidden servers, each with the client its traffic continues at. */
  type Hidden = map<Server, Client>

  // ---------------------------------------------------------------------
  // Chains through hidden services
  // ---------------------------------------------------------------------

  /** The client at which traffic from `c` continues, when `c` drives a hidden server. */
  function Next(g: Graph, hid: Hidden, c: Client): Option<Client> {
    if c in g && g[c] in hid then Some(hid[g[c]]) else None
  }

  /** The client reached after passing `n` hidden services. */
  function Walk(g: Graph, hid: Hidden, c: Client, n: nat): Option<Client>
    decreases n
  {
    if n == 0 then Some(c)
    else if Next(g, hid, c).None? then None
    else Walk(g, hid, Next(g, hid, c).value, n - 1)
  }

  /** The original graph leads from `c` to the visible server `s` through a chain of `n` bypasses. */
  predicate LeadsIn(g: Graph, hid: Hidden, c: Client, s: Server, n: nat) {
    var w := Walk(g, hid, c, n);
    w.Some? && w.value in g && g[w.value] == s && s !in hid
  }

  ghost predicate Leads(g: Graph, hid: Hidden, c: Client, s: Server) {
    exists n: nat :: LeadsIn(g, hid, c, s, n)
  }

  /** Client `d` alone drives server `h`. */
  ghost predicate Drives(g: Graph, d: Client, h: Server) {
    d in g && g[d] == h && forall c | c in g && g[c] == h :: c == d
  }

  /** Every bypass is connected, has a client of its own, and its server has one driver. */
  ghost predicate Connected(g: Graph, hid: Hidden) {
    && (forall h | h in hid :: hid[h] in g && exists d :: Drives(g, d, h))
    && (forall h, h' | h in hid && h' in hid && hid[h] == hid[h'] :: h == h')
  }

  // ---------------------------------------------------------------------
  // Contracting one bypass
  // ---------------------------------------------------------------------

  /** The driver `d` of a hidden server takes over what the bypass client `b` drives. */
  function Contract(g: Graph, b: Client, d: Client): Graph
    requires b in g
  {
    (g - {b, d})[d := g[b]]
  }

  /** A bypass that can be contracted. */
  ghost predicate Contractible(g: Graph, hid: Hidden, h: Server, d: Client) {
    Connected(g, hid) && h in hid && hid[h] in g && Drives(g, d, h) && d != hid[h]
  }

  lemma ContractEdges(g: Graph, hid: Hidden, h: Server, d: Client)
    requires Contractible(g, hid, h, d)
    ensures var g1 := Contract(g, hid[h], d);
            && g1.Keys == g.Keys - {hid[h]}
            && (forall c | c in g1 :: g1[c] == if c == d then g[hid[h]] else g[c])
            && (forall c | c in g1 :: g1[c] != h)
            && |g1| == |g| - 1
  {
    var g1 := Contract(g, hid[h], d);
    assert g1.Keys == g.Keys - {hid[h]};
    assert |g1.Keys| == |g.Keys| - 1;
  }

  /** After contracting `h`, every walk is the old one without its visits to `h`. */
  lemma {:induction false} NextContracted(g: Graph, hid: Hidden, h: Server, d: Client, c: Client)
    requires Contractible(g, hid, h, d) && c != hid[h]
    ensures var g1, hid1 := Contract(g, hid[h], d), hid - {h};
            && Next(g1, hid1, c) == Next(g, hid, if c == d then hid[h] else c)
            && Next(g1, hid1, c) != Some(hid[h])
  {
    ContractEdges(g, hid, h, d);
  }

  /** A walk in the contracted graph is a walk, at least as long, in the original one. */
  lemma {:induction false} WalkExpands(g: Graph, hid: Hidden, h: Server, d: Client, c: Client, n: nat,
                                       x: Client) returns (m: nat)
    requires Contractible(g, hid, h, d) && c != hid[h]
    requires Walk(Contract(g, hid[h], d), hid - {h}, c, n) == Some(x)
    ensures m >= n && Walk(g, hid, c, m) == Some(x) && x != hid[h]
    decreases n
  {
    var g1, hid1 := Contract(g, hid[h], d), hid - {h};
    if n == 0 {
      m := 0;
    } else {
      NextContracted(g, hid, h, d, c);
      var y := Next(g1, hid1, c).value;
      m := WalkExpands(g, hid, h, d, y, n - 1, x);
      if c == d {
        assert Next(g, hid, d) == Some(hid[h]);
        assert Walk(g, hid, hid[h], m + 1) == Walk(g, hid, y, m);
        m := m + 2;
      } else {
        m := m + 1;
      }
    }
  }

  /** A walk in the original graph that ends elsewhere than at the contracted bypass survives. */
  lemma {:induction false} WalkShrinks(g: Graph, hid: Hidden, h: Server, d: Client, c: Client, n: nat,
                                       x: Client) returns (m: nat)
    requires Contractible(g, hid, h, d) && c != hid[h] && x != hid[h]
    requires Walk(g, hid, c, n) == Some(x)
    ensures Walk(Contract(g, hid[h], d), hid - {h}, c, m) == Some(x) && (n >= 1 ==> m >= 1)
    decreases n
  {
    var g1, hid1 := Contract(g, hid[h], d), hid - {h};
    if n == 0 {
      m := 0;
    } else {
      NextContracted(g, hid, h, d, c);
      if c == d {
        assert Next(g, hid, d) == Some(hid[h]);
        assert n >= 2;
        m := WalkShrinks(g, hid, h, d, Next(g1, hid1, d).value, n - 2, x);
      } else {
        m := WalkShrinks(g, hid, h, d, Next(g1, hid1, c).value, n - 1, x);
      }
      m := m + 1;
    }
  }

  lemma {:induction false} LeadsExpands(g: Graph, hid: Hidden, h: Server, d: Client, c: Client, s: Server, n: nat)
    requires Contractible(g, hid, h, d) && c != hid[h] && s !in hid
    requires LeadsIn(Contract(g, hid[h], d), hid - {h}, c, s, n)
    ensures Leads(g, hid, c, s)
  {
    hide Connected, Walk;
    var x := Walk(Contract(g, hid[h], d), hid - {h}, c, n).value;
    var m := WalkExpands(g, hid, h, d, c, n, x);
    ContractEdges(g, hid, h, d);
    if x == d {
      WalkOneMore(g, hid, c, m, d, hid[h]);
      assert LeadsIn(g, hid, c, s, m + 1);
    } else {
      assert LeadsIn(g, hid, c, s, m);
    }
  }

  lemma {:induction false} LeadsShrinks(g: Graph, hid: Hidden, h: Server, d: Client, c: Client, s: Server, n: nat)
    requires Contractible(g, hid, h, d) && c != hid[h] && s !in hid
    requires LeadsIn(g, hid, c, s, n)
    ensures Leads(Contract(g, hid[h], d), hid - {h}, c, s)
  {
    var x := Walk(g, hid, c, n).value;
    if x == hid[h] {
      assert n == 0 ==> Walk(g, hid, c, n) == Some(c);
      hide Connected, Walk, Leads, Contract;
      WalkBack(g, hid, h, d, c, n);
      var m := WalkShrinks(g, hid, h, d, c, n - 1, d);
      LeadsFrom(g, hid, h, d, c, s, m, d);
    } else {
      hide Connected, Walk, Leads, Contract;
      var m := WalkShrinks(g, hid, h, d, c, n, x);
      LeadsFrom(g, hid, h, d, c, s, m, x);
    }
  }

  lemma LeadsFrom(g: Graph, hid: Hidden, h: Server, d: Client, c: Client, s: Server, m: nat, x: Client)
    requires Contractible(g, hid, h, d) && s !in hid && x in g && x != hid[h]
    requires Walk(Contract(g, hid[h], d), hid - {h}, c, m) == Some(x) && s == g[if x == d then hid[h] else x]
    ensures Leads(Contract(g, hid[h], d), hid - {h}, c, s)
  {
    hide Connected, Walk, Contract;
    ContractEdges(g, hid, h, d);
    assert LeadsIn(Contract(g, hid[h], d), hid - {h}, c, s, m);
  }

  /** Contracting one bypass changes nothing about where visible clients lead. */
  lemma ContractKeepsLeads(g: Graph, hid: Hidden, h: Server, d: Client, c: Client, s: Server)
    requires Contractible(g, hid, h, d) && c != hid[h] && s !in hid
    ensures Leads(Contract(g, hid[h], d), hid - {h}, c, s) <==> Leads(g, hid, c, s)
  {
    hide LeadsIn, Contract, Connected;
    if n: nat :| LeadsIn(Contract(g, hid[h], d), hid - {h}, c, s, n) {
      LeadsExpands(g, hid, h, d, c, s, n);
    }
    if n: nat :| LeadsIn(g, hid, c, s, n) {
      LeadsShrinks(g, hid, h, d, c, s, n);
    }
  }

  lemma {:induction false} WalkOneMore(g: Graph, hid: Hidden, c: Client, n: nat, x: Client, y: Client)
    requires Walk(g, hid, c, n) == Some(x) && Next(g, hid, x) == Some(y)
    ensures Walk(g, hid, c, n + 1) == Some(y)
    decreases n
  {
    if n > 0 {
      WalkOneMore(g, hid, Next(g, hid, c).value, n - 1, x, y);
    }
  }

  /** The bypass client is reached only through the driver of its server. */
  lemma {:induction false} WalkBack(g: Graph, hid: Hidden, h: Server, d: Client, c: Client, n: nat)
    requires Contractible(g, hid, h, d) && n > 0 && Walk(g, hid, c, n) == Some(hid[h])
    ensures Walk(g, hid, c, n - 1) == Some(d)
    decreases n
  {
    if n == 1 {
      assert hid[g[c]] == hid[h];
    } else {
      WalkBack(g, hid, h, d, Next(g, hid, c).value, n - 1);
    }
  }

  /** Contracting one bypass leaves the others connected. */
  lemma ContractKeepsConnected(g: Graph, hid: Hidden, h: Server, d: Client)
    requires Contractible(g, hid, h, d)
    ensures Connected(Contract(g, hid[h], d), hid - {h})
  {
    var g1, hid1 := Contract(g, hid[h], d), hid - {h};
    ContractEdges(g, hid, h, d);
    forall h' | h' in hid1
      ensures exists d' :: Drives(g1, d', h')
    {
      var d0 :| Drives(g, d0, h');
      assert Drives(g1, if d0 == hid[h] then d else d0, h');
    }
  }

  // ---------------------------------------------------------------------
  // Contracting all bypasses
  // ---------------------------------------------------------------------

  /** The client that alone drives `h`, if there is one. */
  ghost function Driver(g: Graph, h: Server): (d: Client)
    ensures (exists x :: Drives(g, x, h)) ==> Drives(g, d, h)
  {
    if d :| Drives(g, d, h) then d else Client(h.service, "")
  }

  ghost predicate Wired(g: Graph, b: Bypass) {
    b.client in g && Drives(g, Driver(g, b.server), b.server)
  }

  /** The graph after contracting the bypasses one by one. */
  ghost function Contracted(g: Graph, bs: seq<Bypass>): Graph {
    if bs == [] || !Wired(g, bs[0]) then g
    else Contracted(Contract(g, bs[0].client, Driver(g, bs[0].server)), bs[1..])
  }

  function HiddenBy(bs: seq<Bypass>): Hidden {
    if bs == [] then map[] else HiddenBy(bs[1..])[bs[0].server := bs[0].client]
  }

  /** No two bypasses share a server. */
  ghost predicate Separate(bs: seq<Bypass>) {
    forall i, j | 0 <= i < j < |bs| :: bs[i].server != bs[j].server
  }

  /** Every bypass is connected, and each hidden server has one driver. */
  ghost predicate Tidy(g: Graph, bs: seq<Bypass>) {
    Separate(bs) && Connected(g, HiddenBy(bs))
  }

  /** No bypass comes to drive itself as the ones before it are contracted. */
  ghost predicate Foldable(g: Graph, bs: seq<Bypass>)
    decreases bs
  {
    bs == []
    || (&& Wired(g, bs[0]) && Driver(g, bs[0].server) != bs[0].client
        && Foldable(Contract(g, bs[0].client, Driver(g, bs[0].server)), bs[1..]))
  }

  ghost predicate Hideable(g: Graph, bs: seq<Bypass>) {
    Tidy(g, bs) && Foldable(g, bs)
  }

  lemma {:induction false} HiddenServers(bs: seq<Bypass>, h: Server)
    ensures h in HiddenBy(bs) <==> exists i :: 0 <= i < |bs| && bs[i].server == h
    decreases bs
  {
    if bs != [] {
      HiddenServers(bs[1..], h);
      if h in HiddenBy(bs) && h != bs[0].server {
        var i :| 0 <= i < |bs[1..]| && bs[1..][i].server == h;
        assert bs[i + 1].server == h;
      }
      if i :| 0 <= i < |bs| && bs[i].server == h {
        assert i > 0 ==> bs[1..][i - 1].server == h;
      }
    }
  }

  lemma {:induction false} HiddenAt(bs: seq<Bypass>, i: nat)
    requires Separate(bs) && i < |bs|
    ensures bs[i].server in HiddenBy(bs) && HiddenBy(bs)[bs[i].server] == bs[i].client
    decreases bs
  {
    if i > 0 {
      HiddenAt(bs[1..], i - 1);
    }
  }

  /** A tidy bypass that does not drive itself can be contracted, and the rest stay tidy. */
  lemma FirstContracts(g: Graph, bs: seq<Bypass>)
    requires bs != [] && Tidy(g, bs) && Driver(g, bs[0].server) != bs[0].client
    ensures Wired(g, bs[0]) && Contractible(g, HiddenBy(bs), bs[0].server, Driver(g, bs[0].server))
    ensures HiddenBy(bs) - {bs[0].server} == HiddenBy(bs[1..]) && HiddenBy(bs)[bs[0].server] == bs[0].client
    ensures Tidy(Contract(g, bs[0].client, Driver(g, bs[0].server)), bs[1..])
  {
    hide Contract, Walk;
    var hid, h := HiddenBy(bs), bs[0].server;
    HiddenServers(bs[1..], h);
    assert HiddenBy(bs) - {h} == HiddenBy(bs[1..]);
    assert h in hid && hid[h] == bs[0].client;
    ContractKeepsConnected(g, hid, h, Driver(g, h));
  }

  /** Hiding is path contraction, for chains of any length, with one edge fewer per bypass. */
  lemma {:induction false} HidingContractsPaths(g: Graph, bs: seq<Bypass>, c: Client, s: Server)
    requires Hideable(g, bs)
    requires c !in HiddenBy(bs).Values && s !in HiddenBy(bs)
    ensures (c in Contracted(g, bs) && Contracted(g, bs)[c] == s) <==> Leads(g, HiddenBy(bs), c, s)
    decreases bs
  {
    hide Connected, Contract;
    if bs == [] {
      if n: nat :| LeadsIn(g, HiddenBy(bs), c, s, n) {
        assert n == 0;
      }
      assert c in g && g[c] == s ==> LeadsIn(g, HiddenBy(bs), c, s, 0);
    } else {
      hide Walk;
      FirstContracts(g, bs);
      var h := bs[0].server;
      assert bs[0].client in HiddenBy(bs).Values;
      assert forall x | x in HiddenBy(bs[1..]) :: x in HiddenBy(bs) && HiddenBy(bs)[x] == HiddenBy(bs[1..])[x];
      ContractKeepsLeads(g, HiddenBy(bs), h, Driver(g, h), c, s);
      HidingContractsPaths(Contract(g, bs[0].client, Driver(g, h)), bs[1..], c, s);
    }
  }

  /** Exactly the bypass clients lose their connection, and none leads to a hidden server. */
  lemma {:induction false} HidingRemovesBypasses(g: Graph, bs: seq<Bypass>)
    requires Hideable(g, bs)
    ensures Contracted(g, bs).Keys == g.Keys - HiddenBy(bs).Values
    ensures |Contracted(g, bs)| == |g| - |bs|
    ensures forall c | c in Contracted(g, bs) ::
            Contracted(g, bs)[c] !in HiddenBy(bs) && Contracted(g, bs)[c] in g.Values
    decreases bs
  {
    hide Connected, Contract, Walk;
    if bs != [] {
      FirstContracts(g, bs);
      var hid, h := HiddenBy(bs), bs[0].server;
      var g1 := Contract(g, bs[0].client, Driver(g, h));
      ContractEdges(g, hid, h, Driver(g, h));
      HidingRemovesBypasses(g1, bs[1..]);
      HiddenValues(hid, h);
      hide HiddenBy, Hideable, Driver, Drives, Contractible, Wired;
      assert forall s | s in g1.Values :: s in g.Values && s != h;
    }
  }

  lemma HiddenValues(hid: Hidden, h: Server)
    requires h in hid
    ensures (hid - {h}).Values + {hid[h]} == hid.Values
  {
    forall v | v in hid.Values
      ensures v in (hid - {h}).Values + {hid[h]}
    {
      var k :| k in hid && hid[k] == v;
      assert k != h ==> k in hid - {h};
    }
  }

  lemma {:induction false} HidingInTurn(g: Graph, bs: seq<Bypass>, rest: seq<Bypass>)
    requires Tidy(g, bs + rest) && Foldable(g, bs)
    ensures Tidy(g, bs) && Tidy(Contracted(g, bs), rest)
    ensures Foldable(g, bs + rest) <==> Foldable(Contracted(g, bs), rest)
    ensures Contracted(g, bs + rest) == Contracted(Contracted(g, bs), rest)
    decreases bs
  {
    TidyPrefix(g, bs, rest);
    if bs == [] {
      assert bs + rest == rest;
    } else {
      hide Connected, Contract, Walk, Separate;
      FirstContracts(g, bs + rest);
      assert (bs + rest)[1..] == bs[1..] + rest;
      HidingInTurn(Contract(g, bs[0].client, Driver(g, bs[0].server)), bs[1..], rest);
    }
  }

  lemma {:induction false} HiddenPrefix(bs: seq<Bypass>, rest: seq<Bypass>, h: Server)
    requires Separate(bs + rest) && h in HiddenBy(bs)
    ensures h in HiddenBy(bs + rest) && HiddenBy(bs + rest)[h] == HiddenBy(bs)[h]
  {
    HiddenServers(bs, h);
    var i :| 0 <= i < |bs| && bs[i].server == h;
    assert (bs + rest)[i] == bs[i];
    assert Separate(bs) by {
      assert forall j | 0 <= j < |bs| :: (bs + rest)[j] == bs[j];
    }
    HiddenAt(bs, i);
    HiddenAt(bs + rest, i);
  }

  lemma TidyPrefix(g: Graph, bs: seq<Bypass>, rest: seq<Bypass>)
    requires Tidy(g, bs + rest)
    ensures Tidy(g, bs)
  {
    var hid, more := HiddenBy(bs), HiddenBy(bs + rest);
    assert Separate(bs) by {
      assert forall j | 0 <= j < |bs| :: (bs + rest)[j] == bs[j];
    }
    forall h | h in hid
      ensures h in more && more[h] == hid[h]
    {
      HiddenPrefix(bs, rest, h);
    }
  }

  // ---------------------------------------------------------------------
  // Rewiring around one service, as the pass does it
  // ---------------------------------------------------------------------

  /** The clients that drive `h`, in dictionary order. */
  function Drivers(keys: seq<Client>, g: Graph, h: Server): seq<Client> {
    if keys == [] then []
    else (if keys[0] in g && g[keys[0]] == h then [keys[0]] else []) + Drivers(keys[1..], g, h)
  }

  /** The connections a service's bypasses give up. */
  function Doomed(m: Dict, bs: seq<Bypass>): seq<Client> {
    if bs == [] then []
    else [bs[0].client] + Drivers(m.keys, m.at, bs[0].server) + Doomed(m, bs[1..])
  }

  datatype Join = Join(client: Option<Client>, server: Server)

  function LastOf(cs: seq<Client>): Option<Client> {
    if cs == [] then None else Some(cs[|cs| - 1])
  }

  /** Every bypass client is connected. */
  predicate Plugged(g: Graph, bs: seq<Bypass>) {
    forall i | 0 <= i < |bs| :: bs[i].client in g
  }

  /** The connections made instead: the last driver of each hidden server takes over. */
  function Joins(m: Dict, bs: seq<Bypass>): seq<Join>
    requires Plugged(m.at, bs)
  {
    if bs == [] then []
    else [Join(LastOf(Drivers(m.keys, m.at, bs[0].server)), m.at[bs[0].client])] + Joins(m, bs[1..])
  }

  /** Deleting a connection that is not there is an error. */
  function DeleteAll(m: Dict, cs: seq<Client>): Option<Dict>
    decreases cs
  {
    if cs == [] then Some(m)
    else if cs[0] !in m.at then None
    else DeleteAll(m.Del(cs[0]), cs[1..])
  }

  /** Joining from a server nobody drives is an error. */
  function JoinAll(m: Dict, js: seq<Join>): Option<Dict>
    decreases js
  {
    if js == [] then Some(m)
    else if js[0].client.None? then None
    else JoinAll(m.Set(js[0].client.value, js[0].server), js[1..])
  }

  /** The connections once a service has been bypassed; `None` is an error. */
  function Rewire(m: Dict, bs: seq<Bypass>): Option<Dict> {
    if !Plugged(m.at, bs) then None
    else match DeleteAll(m, Doomed(m, bs))
      case None => None
      case Some(m1) => JoinAll(m1, Joins(m, bs))
  }

  /** No bypass of the service drives one of the service's own hidden servers. */
  ghost predicate SelfFree(g: Graph, bs: seq<Bypass>) {
    forall i, j | 0 <= i < |bs| && 0 <= j < |bs| && bs[i].client in g :: g[bs[i].client] != bs[j].server
  }

  ghost predicate AllWired(g: Graph, bs: seq<Bypass>) {
    forall i | 0 <= i < |bs| :: Wired(g, bs[i])
  }

  ghost function Elements(cs: seq<Client>): set<Client> {
    set c | c in cs
  }

  lemma DistinctTail(cs: seq<Client>)
    requires cs != [] && Distinct(cs)
    ensures Distinct(cs[1..]) && cs[0] !in cs[1..]
    ensures Elements(cs) == {cs[0]} + Elements(cs[1..])
  {
  }

  lemma DistinctCons(c: Client, cs: seq<Client>)
    requires c !in cs && Distinct(cs)
    ensures Distinct([c] + cs)
  {
  }

  /** Each bypass client and its driver, in turn. */
  ghost function Pairs(g: Graph, bs: seq<Bypass>): seq<Client>
    requires AllWired(g, bs)
  {
    if bs == [] then []
    else [bs[0].client, Driver(g, bs[0].server)] + Pairs(g, bs[1..])
  }

  ghost function Takeovers(g: Graph, bs: seq<Bypass>): seq<Join>
    requires AllWired(g, bs)
  {
    if bs == [] then []
    else [Join(Some(Driver(g, bs[0].server)), g[bs[0].client])] + Takeovers(g, bs[1..])
  }

  lemma {:induction false} SoleDriver(keys: seq<Client>, g: Graph, h: Server, d: Client)
    requires Distinct(keys) && Drives(g, d, h)
    ensures Drivers(keys, g, h) == if d in keys then [d] else []
    decreases keys
  {
    if keys != [] {
      assert d in keys <==> d == keys[0] || d in keys[1..];
      SoleDriver(keys[1..], g, h, d);
    }
  }

  lemma OnlyDriver(m: Dict, b: Bypass)
    requires m.Valid() && Wired(m.at, b)
    ensures Drivers(m.keys, m.at, b.server) == [Driver(m.at, b.server)]
  {
    hide Drivers, Driver, Distinct;
    var d := Driver(m.at, b.server);
    assert d in m.keys;
    SoleDriver(m.keys, m.at, b.server, d);
  }

  lemma {:induction false} DoomedArePairs(m: Dict, bs: seq<Bypass>)
    requires m.Valid() && AllWired(m.at, bs)
    ensures Doomed(m, bs) == Pairs(m.at, bs) && Joins(m, bs) == Takeovers(m.at, bs)
    decreases bs
  {
    if bs != [] {
      assert Wired(m.at, bs[0]);
      DoomedArePairs(m, bs[1..]);
      OnlyDriver(m, bs[0]);
      hide Drivers, Driver, Drives, Dict.Valid, AllWired;
      var d := Driver(m.at, bs[0].server);
      assert Doomed(m, bs) == [bs[0].client] + [d] + Doomed(m, bs[1..]);
      assert Joins(m, bs) == [Join(LastOf([d]), m.at[bs[0].client])] + Joins(m, bs[1..]);
    }
  }

  /** Contracting one bypass of a service leaves the others of that service as they were. */
  lemma RestUntouched(g: Graph, bs: seq<Bypass>, k: nat)
    requires Tidy(g, bs) && SelfFree(g, bs) && 0 < k < |bs|
    ensures Wired(g, bs[0]) && Wired(g, bs[k]) && Driver(g, bs[0].server) != bs[0].client
    ensures var b, d := bs[0].client, Driver(g, bs[0].server);
            var g1 := Contract(g, b, d);
            && bs[k].client !in {b, d} && Driver(g, bs[k].server) !in {b, d}
            && Wired(g1, bs[k]) && Driver(g1, bs[k].server) == Driver(g, bs[k].server)
            && g1[bs[k].client] == g[bs[k].client]
  {
    var hid := HiddenBy(bs);
    HiddenAt(bs, 0);
    HiddenAt(bs, k);
    var h, h' := bs[0].server, bs[k].server;
    var d, d' := Driver(g, h), Driver(g, h');
    assert d != hid[h'] && d' != hid[h] && d != hid[h];
    ContractEdges(g, hid, h, d);
    assert Drives(Contract(g, hid[h], d), d', h');
  }

  lemma {:induction false} SelfFreeFolds(g: Graph, bs: seq<Bypass>)
    requires Tidy(g, bs) && SelfFree(g, bs)
    ensures Foldable(g, bs)
    decreases bs
  {
    if bs != [] {
      SelfFreeRest(g, bs);
      FirstContracts(g, bs);
      hide Tidy, SelfFree, Contract, Driver, Wired;
      SelfFreeFolds(Contract(g, bs[0].client, Driver(g, bs[0].server)), bs[1..]);
    }
  }

  lemma SelfFreeRest(g: Graph, bs: seq<Bypass>)
    requires bs != [] && Tidy(g, bs) && SelfFree(g, bs)
    ensures Wired(g, bs[0]) && Driver(g, bs[0].server) != bs[0].client
    ensures SelfFree(Contract(g, bs[0].client, Driver(g, bs[0].server)), bs[1..])
  {
    hide Contract;
    AllAreWired(g, bs);
    assert Wired(g, bs[0]);
    var rest := bs[1..];
    var g1 := Contract(g, bs[0].client, Driver(g, bs[0].server));
    forall i, j | 0 <= i < |rest| && 0 <= j < |rest| && rest[i].client in g1
      ensures g1[rest[i].client] != rest[j].server
    {
      RestUntouched(g, bs, i + 1);
    }
  }

  lemma {:induction false} SamePairs(g: Graph, g1: Graph, bs: seq<Bypass>)
    requires AllWired(g, bs) && AllWired(g1, bs)
    requires forall i | 0 <= i < |bs| ::
             Driver(g1, bs[i].server) == Driver(g, bs[i].server) && g1[bs[i].client] == g[bs[i].client]
    ensures Pairs(g1, bs) == Pairs(g, bs) && Takeovers(g1, bs) == Takeovers(g, bs)
    decreases bs
  {
    if bs != [] {
      SamePairs(g, g1, bs[1..]);
    }
  }

  /** The graph without the listed clients' connections, and with the joins made in order. */
  ghost function Connect(g: Graph, js: seq<Join>): Graph
    requires forall i | 0 <= i < |js| :: js[i].client.Some?
    decreases js
  {
    if js == [] then g else Connect(g[js[0].client.value := js[0].server], js[1..])
  }

  lemma {:induction false} TakeoversJoin(g: Graph, bs: seq<Bypass>)
    requires AllWired(g, bs)
    ensures forall i | 0 <= i < |Takeovers(g, bs)| :: Takeovers(g, bs)[i].client.Some?
    decreases bs
  {
    if bs != [] {
      TakeoversJoin(g, bs[1..]);
    }
  }

  lemma {:induction false} AllAreWired(g: Graph, bs: seq<Bypass>)
    requires Tidy(g, bs)
    ensures AllWired(g, bs)
  {
    forall i | 0 <= i < |bs|
      ensures Wired(g, bs[i])
    {
      HiddenAt(bs, i);
    }
  }

  lemma {:induction false} PairsApart(g: Graph, bs: seq<Bypass>, c: Client)
    requires AllWired(g, bs)
    requires forall i | 0 <= i < |bs| :: c != bs[i].client && c != Driver(g, bs[i].server)
    ensures c !in Pairs(g, bs)
    decreases bs
  {
    if bs != [] {
      PairsApart(g, bs[1..], c);
    }
  }

  /** After the first bypass of a service, the rest see the same pairs and takeovers, without it. */
  lemma FirstApart(g: Graph, bs: seq<Bypass>)
    requires bs != [] && Tidy(g, bs) && SelfFree(g, bs)
    ensures AllWired(g, bs)
    ensures var b, d := bs[0].client, Driver(g, bs[0].server);
            var g1 := Contract(g, b, d);
            && AllWired(g1, bs[1..])
            && Pairs(g1, bs[1..]) == Pairs(g, bs[1..]) && Takeovers(g1, bs[1..]) == Takeovers(g, bs[1..])
            && b !in Pairs(g, bs[1..]) && d !in Pairs(g, bs[1..]) && b != d
  {
    hide Tidy, Contract, Pairs, Takeovers, SelfFree, Driver, Drives;
    AllAreWired(g, bs);
    SelfFreeRest(g, bs);
    FirstContracts(g, bs);
    var b, d := bs[0].client, Driver(g, bs[0].server);
    var g1 := Contract(g, b, d);
    forall i | 0 <= i < |bs[1..]|
      ensures Wired(g, bs[1..][i]) && Wired(g1, bs[1..][i])
      ensures bs[1..][i].client !in {b, d} && Driver(g, bs[1..][i].server) !in {b, d}
      ensures Driver(g1, bs[1..][i].server) == Driver(g, bs[1..][i].server)
              && g1[bs[1..][i].client] == g[bs[1..][i].client]
    {
      RestUntouched(g, bs, i + 1);
    }
    SamePairs(g, g1, bs[1..]);
    PairsApart(g, bs[1..], b);
    PairsApart(g, bs[1..], d);
  }

  lemma FirstJoined(g: Graph, b: Client, d: Client, rest: seq<Client>)
    requires b in g && d in g && b != d && b !in rest && d !in rest
    ensures (g - Elements([b, d] + rest))[d := g[b]] == Contract(g, b, d) - Elements(rest)
    ensures Distinct(rest) ==> Distinct([b, d] + rest)
  {
    assert Elements([b, d] + rest) == Elements(rest) + {b, d};
  }

  /** Rewiring a service's bypasses together is contracting them one by one. */
  lemma {:induction false} TogetherIsInTurn(g: Graph, bs: seq<Bypass>)
    requires Tidy(g, bs) && SelfFree(g, bs)
    ensures AllWired(g, bs) && Distinct(Pairs(g, bs))
    ensures forall i | 0 <= i < |Takeovers(g, bs)| :: Takeovers(g, bs)[i].client.Some?
    ensures Connect(g - Elements(Pairs(g, bs)), Takeovers(g, bs)) == Contracted(g, bs)
    decreases bs
  {
    if bs == [] {
      assert g - Elements([]) == g;
    } else {
      SelfFreeRest(g, bs);
      FirstContracts(g, bs);
      FirstApart(g, bs);
      TakeoversJoin(g, bs);
      var b, d := bs[0].client, Driver(g, bs[0].server);
      var g1 := Contract(g, b, d);
      TogetherIsInTurn(g1, bs[1..]);
      hide Tidy, AllWired, Driver, SelfFree, Contract, Distinct;
      FirstJoined(g, b, d, Pairs(g, bs[1..]));
    }
  }

  lemma {:induction false} PairsConnected(g: Graph, bs: seq<Bypass>)
    requires AllWired(g, bs)
    ensures forall c | c in Pairs(g, bs) :: c in g
    decreases bs
  {
    if bs != [] {
      assert Wired(g, bs[0]);
      PairsConnected(g, bs[1..]);
    }
  }

  lemma {:induction false} DeleteAllKeeps(m: Dict, cs: seq<Client>)
    requires m.Valid() && Distinct(cs) && forall c | c in cs :: c in m.at
    ensures DeleteAll(m, cs).Some? && DeleteAll(m, cs).value.Valid()
    ensures DeleteAll(m, cs).value.at == m.at - Elements(cs)
    decreases cs
  {
    if cs == [] {
      assert m.at - Elements([]) == m.at;
    } else {
      DistinctTail(cs);
      hide Remove, Dict.Valid, Distinct, Elements;
      DeleteAllKeeps(m.Del(cs[0]), cs[1..]);
      assert m.at - Elements(cs) == (m.at - {cs[0]}) - Elements(cs[1..]);
    }
  }

  lemma {:induction false} JoinAllKeeps(m: Dict, js: seq<Join>)
    requires m.Valid() && forall i | 0 <= i < |js| :: js[i].client.Some?
    ensures JoinAll(m, js).Some? && JoinAll(m, js).value.Valid() && JoinAll(m, js).value.at == Connect(m.at, js)
    decreases js
  {
    if js != [] {
      DictSetKeeps(m, js[0].client.value, js[0].server);
      JoinAllKeeps(m.Set(js[0].client.value, js[0].server), js[1..]);
    }
  }

  lemma RewireContracts(m: Dict, bs: seq<Bypass>)
    requires m.Valid() && Tidy(m.at, bs) && SelfFree(m.at, bs)
    ensures Rewire(m, bs).Some? && Rewire(m, bs).value.Valid() && Rewire(m, bs).value.at == Contracted(m.at, bs)
  {
    TogetherIsInTurn(m.at, bs);
    DoomedArePairs(m, bs);
    PairsConnected(m.at, bs);
    assert forall i | 0 <= i < |bs| :: Wired(m.at, bs[i]);
    hide DeleteAll, JoinAll, Doomed, Joins, Pairs, Takeovers, Contracted, Tidy, SelfFree, Distinct, Dict.Valid, Drives;
    DeleteAllKeeps(m, Pairs(m.at, bs));
    JoinAllKeeps(DeleteAll(m, Pairs(m.at, bs)).value, Takeovers(m.at, bs));
  }

  lemma {:induction false} DeletingMissingFails(m: Dict, cs: seq<Client>, c: Client)
    requires c in cs && c !in m.at
    ensures DeleteAll(m, cs).None?
    decreases cs
  {
    if cs[0] in m.at {
      DeletingMissingFails(m.Del(cs[0]), cs[1..], c);
    }
  }

  lemma {:induction false} DeletingTwiceFails(m: Dict, cs: seq<Client>, i: nat, j: nat)
    requires i < j < |cs| && cs[i] == cs[j]
    ensures DeleteAll(m, cs).None?
    decreases cs
  {
    if cs[0] in m.at {
      if i == 0 {
        assert cs[1..][j - 1] == cs[0];
        DeletingMissingFails(m.Del(cs[0]), cs[1..], cs[0]);
      } else {
        DeletingTwiceFails(m.Del(cs[0]), cs[1..], i - 1, j - 1);
      }
    }
  }

  lemma {:induction false} PairsAt(g: Graph, bs: seq<Bypass>, i: nat)
    requires AllWired(g, bs) && i < |bs|
    ensures |Pairs(g, bs)| == 2 * |bs|
    ensures Pairs(g, bs)[2 * i] == bs[i].client && Pairs(g, bs)[2 * i + 1] == Driver(g, bs[i].server)
    decreases bs
  {
    hide Driver, Wired;
    if |bs| > 1 {
      PairsAt(g, bs[1..], if i > 0 then i - 1 else 0);
    }
  }

  /**
    With every bypass connected and one driver per hidden server, rewiring a service
    succeeds exactly when the service does not feed itself, and is then the contraction
    of its bypasses.
   */
  lemma RewireExactly(m: Dict, bs: seq<Bypass>)
    requires m.Valid() && Tidy(m.at, bs)
    ensures Rewire(m, bs).Some? <==> SelfFree(m.at, bs)
    ensures Rewire(m, bs).Some? ==>
              Rewire(m, bs).value.Valid() && Rewire(m, bs).value.at == Contracted(m.at, bs) && Hideable(m.at, bs)
  {
    hide Rewire, Contracted, Distinct, Foldable, Tidy;
    if SelfFree(m.at, bs) {
      RewireContracts(m, bs);
      SelfFreeFolds(m.at, bs);
    } else {
      var i, j :| 0 <= i < |bs| && 0 <= j < |bs| && bs[i].client in m.at && m.at[bs[i].client] == bs[j].server;
      SelfFeedingFails(m, bs, i, j);
    }
  }

  lemma SelfFeedingFails(m: Dict, bs: seq<Bypass>, i: nat, j: nat)
    requires m.Valid() && Tidy(m.at, bs)
    requires i < |bs| && j < |bs| && bs[i].client in m.at && m.at[bs[i].client] == bs[j].server
    ensures Rewire(m, bs).None?
  {
    hide Pairs, Doomed, Joins, DeleteAll, Tidy, Distinct;
    AllAreWired(m.at, bs);
    DoomedArePairs(m, bs);
    assert Wired(m.at, bs[j]);
    PairsAt(m.at, bs, i);
    PairsAt(m.at, bs, j);
    if i <= j {
      DeletingTwiceFails(m, Pairs(m.at, bs), 2 * i, 2 * j + 1);
    } else {
      DeletingTwiceFails(m, Pairs(m.at, bs), 2 * j + 1, 2 * i);
    }
  }

  lemma {:induction false} DriversAt(keys: seq<Client>, g: Graph, h: Server)
    ensures forall c :: c in Drivers(keys, g, h) <==> c in keys && c in g && g[c] == h
    ensures Distinct(keys) ==> Distinct(Drivers(keys, g, h))
    decreases keys
  {
    if keys != [] {
      DriversAt(keys[1..], g, h);
      assert forall c :: c in keys <==> c == keys[0] || c in keys[1..];
    }
  }

  // ---------------------------------------------------------------------
  // Any number of drivers
  // ---------------------------------------------------------------------

  /** Where visible clients lead is unchanged by the rewrite. */
  ghost predicate KeepsPaths(g: Graph, g1: Graph, bs: seq<Bypass>) {
    forall c, s | c !in HiddenBy(bs).Values && s !in HiddenBy(bs) ::
      (c in g1 && g1[c] == s) <==> Leads(g, HiddenBy(bs), c, s)
  }

  /** No two bypasses share a client. */
  ghost predicate OwnClients(bs: seq<Bypass>) {
    forall i, j | 0 <= i < j < |bs| :: bs[i].client != bs[j].client
  }

  ghost predicate HasDriver(g: Graph, h: Server) {
    exists c :: c in g && g[c] == h
  }

  ghost predicate HasSoleDriver(g: Graph, h: Server) {
    exists d :: Drives(g, d, h)
  }

  /** What rewiring asks of a service: its bypasses are connected and apart from one another, it
      does not feed itself, and each of its hidden servers is driven. */
  ghost predicate Rewirable(g: Graph, bs: seq<Bypass>) {
    && Plugged(g, bs) && OwnClients(bs) && Separate(bs) && SelfFree(g, bs)
    && forall i | 0 <= i < |bs| :: HasDriver(g, bs[i].server)
  }

  /** A connection that bypass `b` gives up. */
  predicate GivesUp(g: Graph, b: Bypass, c: Client) {
    c == b.client || (c in g && g[c] == b.server)
  }

  lemma {:induction false} DoomedAre(m: Dict, bs: seq<Bypass>, c: Client)
    requires m.Valid()
    ensures c in Doomed(m, bs) <==> exists i :: 0 <= i < |bs| && GivesUp(m.at, bs[i], c)
    decreases bs
  {
    if bs != [] {
      DoomedAre(m, bs[1..], c);
      DriversAt(m.keys, m.at, bs[0].server);
      hide Drivers, Distinct;
      assert c in Doomed(m, bs) <==> GivesUp(m.at, bs[0], c) || c in Doomed(m, bs[1..]);
      if i :| 0 <= i < |bs[1..]| && GivesUp(m.at, bs[1..][i], c) {
        assert GivesUp(m.at, bs[i + 1], c);
      }
      if i :| 0 <= i < |bs| && GivesUp(m.at, bs[i], c) {
        assert i > 0 ==> GivesUp(m.at, bs[1..][i - 1], c);
      }
    }
  }

  /** Deletion succeeds only for connections that are there, each given once. */
  lemma {:induction false} DeletionNeeds(m: Dict, cs: seq<Client>)
    requires DeleteAll(m, cs).Some?
    ensures Distinct(cs) && forall c | c in cs :: c in m.at
    decreases cs
  {
    if cs != [] {
      DeletionNeeds(m.Del(cs[0]), cs[1..]);
      assert forall c | c in cs :: c == cs[0] || c in cs[1..];
      DistinctCons(cs[0], cs[1..]);
      assert [cs[0]] + cs[1..] == cs;
    }
  }

  lemma DistinctParts(a: seq<Client>, b: seq<Client>)
    requires Distinct(a + b)
    ensures Distinct(a) && Distinct(b) && forall c | c in a :: c !in b
  {
    assert forall i | 0 <= i < |a| :: (a + b)[i] == a[i];
    assert forall i | 0 <= i < |b| :: (a + b)[|a| + i] == b[i];
  }

  lemma DistinctJoined(a: seq<Client>, b: seq<Client>)
    requires Distinct(a) && Distinct(b) && forall c | c in a :: c !in b
    ensures Distinct(a + b)
  {
    forall i, j | 0 <= i < j < |a + b| ensures (a + b)[i] != (a + b)[j] {
      if i < |a| <= j {
        assert a[i] in a && b[j - |a|] in b;
      }
    }
  }

  /** The first bypass gives up nothing that another one does. */
  ghost predicate FirstAlone(g: Graph, bs: seq<Bypass>)
    requires bs != []
  {
    && !(bs[0].client in g && g[bs[0].client] == bs[0].server)
    && forall c, j | 0 < j < |bs| && GivesUp(g, bs[0], c) :: !GivesUp(g, bs[j], c)
  }

  lemma {:induction false} DoomedDistinct(m: Dict, bs: seq<Bypass>)
    requires m.Valid() && bs != []
    ensures Distinct(Doomed(m, bs)) <==> FirstAlone(m.at, bs) && Distinct(Doomed(m, bs[1..]))
  {
    var b, ds, rest := bs[0], Drivers(m.keys, m.at, bs[0].server), Doomed(m, bs[1..]);
    DriversAt(m.keys, m.at, b.server);
    hide Drivers, Distinct, Doomed, Dict.Valid;
    forall c ensures c in rest <==> exists j :: 0 < j < |bs| && GivesUp(m.at, bs[j], c) {
      DoomedAre(m, bs[1..], c);
      if i :| 0 <= i < |bs[1..]| && GivesUp(m.at, bs[1..][i], c) {
        assert GivesUp(m.at, bs[i + 1], c);
      }
      if j :| 0 < j < |bs| && GivesUp(m.at, bs[j], c) {
        assert GivesUp(m.at, bs[1..][j - 1], c);
      }
    }
    assert forall c :: GivesUp(m.at, b, c) <==> c in [b.client] + ds;
    DoomedOf(m, bs);
    if Distinct(Doomed(m, bs)) {
      DistinctParts([b.client] + ds, rest);
      DistinctParts([b.client], ds);
      assert b.client in [b.client];
    } else if FirstAlone(m.at, bs) && Distinct(rest) {
      DistinctCons(b.client, ds);
      DistinctJoined([b.client] + ds, rest);
    }
  }

  lemma DoomedOf(m: Dict, bs: seq<Bypass>)
    requires bs != []
    ensures Doomed(m, bs) == [bs[0].client] + Drivers(m.keys, m.at, bs[0].server) + Doomed(m, bs[1..])
  {
  }

  /** No connection is given up twice exactly when the bypasses are apart and do not feed one another. */
  lemma {:induction false} ApartInDoom(m: Dict, bs: seq<Bypass>)
    requires m.Valid() && Plugged(m.at, bs) && forall i | 0 <= i < |bs| :: HasDriver(m.at, bs[i].server)
    ensures Distinct(Doomed(m, bs)) <==> OwnClients(bs) && Separate(bs) && SelfFree(m.at, bs)
    decreases bs
  {
    if bs != [] {
      hide Doomed, Distinct, Dict.Valid, DeleteAll;
      ApartInDoom(m, bs[1..]);
      DoomedDistinct(m, bs);
      var rest := bs[1..];
      assert forall i | 0 <= i < |rest| :: rest[i] == bs[i + 1];
      if FirstAlone(m.at, bs) {
        FirstAloneMeans(m.at, bs);
      }
      RestApart(m.at, bs);
    }
  }

  lemma FirstAloneMeans(g: Graph, bs: seq<Bypass>)
    requires bs != [] && Plugged(g, bs) && (forall i | 0 <= i < |bs| :: HasDriver(g, bs[i].server)) && FirstAlone(g, bs)
    ensures forall j | 0 < j < |bs| ::
              && bs[0].client != bs[j].client && bs[0].server != bs[j].server
              && g[bs[0].client] != bs[j].server && g[bs[j].client] != bs[0].server
    ensures g[bs[0].client] != bs[0].server
  {
    var d :| d in g && g[d] == bs[0].server;
    assert GivesUp(g, bs[0], d) && GivesUp(g, bs[0], bs[0].client);
    forall j | 0 < j < |bs|
      ensures bs[0].client != bs[j].client && bs[0].server != bs[j].server
      ensures g[bs[0].client] != bs[j].server && g[bs[j].client] != bs[0].server
    {
      assert !GivesUp(g, bs[j], d) && !GivesUp(g, bs[j], bs[0].client);
      assert GivesUp(g, bs[j], bs[j].client);
      assert !GivesUp(g, bs[0], bs[j].client);
    }
  }

  lemma RestApart(g: Graph, bs: seq<Bypass>)
    requires bs != [] && Plugged(g, bs)
    ensures OwnClients(bs) && Separate(bs) && SelfFree(g, bs) ==>
              FirstAlone(g, bs) && OwnClients(bs[1..]) && Separate(bs[1..]) && SelfFree(g, bs[1..])
    ensures OwnClients(bs[1..]) && Separate(bs[1..]) && SelfFree(g, bs[1..]) && g[bs[0].client] != bs[0].server
              && (forall j | 0 < j < |bs| ::
                    && bs[0].client != bs[j].client && bs[0].server != bs[j].server
                    && g[bs[0].client] != bs[j].server && g[bs[j].client] != bs[0].server)
            ==> OwnClients(bs) && Separate(bs) && SelfFree(g, bs)
  {
    assert forall i | 0 < i < |bs| :: bs[i] == bs[1..][i - 1];
    assert forall i | 0 <= i < |bs| - 1 :: bs[1..][i] == bs[i + 1];
  }

  lemma {:induction false} JoinsAt(m: Dict, bs: seq<Bypass>, i: nat)
    requires Plugged(m.at, bs) && i < |bs|
    ensures |Joins(m, bs)| == |bs|
    ensures Joins(m, bs)[i] == Join(LastOf(Drivers(m.keys, m.at, bs[i].server)), m.at[bs[i].client])
    decreases bs
  {
    hide Drivers;
    if |bs| > 1 {
      JoinsAt(m, bs[1..], if i > 0 then i - 1 else 0);
    }
  }

  lemma {:induction false} JoiningNeeds(m: Dict, js: seq<Join>, i: nat)
    requires i < |js| && JoinAll(m, js).Some?
    ensures js[i].client.Some?
    decreases js
  {
    if i > 0 {
      JoiningNeeds(m.Set(js[0].client.value, js[0].server), js[1..], i - 1);
    }
  }

  lemma HasDriverMeans(m: Dict, h: Server)
    requires m.Valid()
    ensures HasDriver(m.at, h) <==> LastOf(Drivers(m.keys, m.at, h)).Some?
    ensures LastOf(Drivers(m.keys, m.at, h)).Some? ==>
              var d := LastOf(Drivers(m.keys, m.at, h)).value; d in m.at && m.at[d] == h
  {
    var ds := Drivers(m.keys, m.at, h);
    DriversAt(m.keys, m.at, h);
    hide Drivers, Distinct;
    if ds != [] {
      assert ds[|ds| - 1] in ds;
    }
  }

  /** Rewiring a service succeeds exactly when it is rewirable. */
  lemma RewiresExactly(m: Dict, bs: seq<Bypass>)
    requires m.Valid()
    ensures Rewire(m, bs).Some? <==> Rewirable(m.at, bs)
  {
    hide Doomed, Joins, Drivers, DeleteAll, JoinAll, Distinct, Separate, SelfFree, OwnClients, Dict.Valid, HasDriver;
    if Rewire(m, bs).Some? {
      var m1 := DeleteAll(m, Doomed(m, bs)).value;
      forall i | 0 <= i < |bs| ensures HasDriver(m.at, bs[i].server) {
        JoinsAt(m, bs, i);
        JoiningNeeds(m1, Joins(m, bs), i);
        HasDriverMeans(m, bs[i].server);
      }
      DeletionNeeds(m, Doomed(m, bs));
      ApartInDoom(m, bs);
    } else if Rewirable(m.at, bs) {
      var m1 := RewirableJoins(m, bs);
    }
  }

  /** The steps of a rewrite that succeeds. */
  lemma RewirableJoins(m: Dict, bs: seq<Bypass>) returns (m1: Dict)
    requires m.Valid() && Rewirable(m.at, bs)
    ensures m1.Valid() && m1.at == m.at - Elements(Doomed(m, bs))
    ensures forall i | 0 <= i < |Joins(m, bs)| :: Joins(m, bs)[i].client.Some?
    ensures Rewire(m, bs).Some? && Rewire(m, bs).value.at == Connect(m1.at, Joins(m, bs))
  {
    hide Doomed, Joins, Drivers, DeleteAll, JoinAll, Distinct, Separate, SelfFree, OwnClients, Dict.Valid, HasDriver;
    ApartInDoom(m, bs);
    forall c | c in Doomed(m, bs) ensures c in m.at {
      DoomedAre(m, bs, c);
    }
    DeleteAllKeeps(m, Doomed(m, bs));
    m1 := DeleteAll(m, Doomed(m, bs)).value;
    if bs != [] {
      JoinsAt(m, bs, 0);
    } else {
      NoJoins(m);
    }
    forall i | 0 <= i < |Joins(m, bs)| ensures Joins(m, bs)[i].client.Some? {
      JoinsAt(m, bs, i);
      HasDriverMeans(m, bs[i].server);
    }
    JoinAllKeeps(m1, Joins(m, bs));
  }

  lemma NoJoins(m: Dict)
    ensures Joins(m, []) == []
  {
  }

  lemma {:induction false} ConnectAdds(g: Graph, js: seq<Join>, c: Client)
    requires forall i | 0 <= i < |js| :: js[i].client.Some? && js[i].client.value != c
    requires c !in g
    ensures c !in Connect(g, js)
    decreases js
  {
    if js != [] {
      ConnectAdds(g[js[0].client.value := js[0].server], js[1..], c);
    }
  }

  /** A driver that is not the last one of its hidden server is left unconnected. */
  lemma OtherDriverDropped(m: Dict, bs: seq<Bypass>, k: nat, other: Client)
    requires m.Valid() && Rewirable(m.at, bs) && k < |bs|
    requires other in m.at && m.at[other] == bs[k].server
    requires LastOf(Drivers(m.keys, m.at, bs[k].server)) != Some(other)
    ensures Rewire(m, bs).Some? && other !in Rewire(m, bs).value.at
  {
    hide Doomed, Joins, Drivers, Distinct, SelfFree, OwnClients, Dict.Valid, HasDriver, Rewire;
    var m1 := RewirableJoins(m, bs);
    DoomedAre(m, bs, other);
    assert GivesUp(m.at, bs[k], other);
    forall i | 0 <= i < |Joins(m, bs)| ensures Joins(m, bs)[i].client.value != other {
      JoinsAt(m, bs, k);
      JoinsAt(m, bs, i);
      HasDriverMeans(m, bs[i].server);
    }
    ConnectAdds(m1.at, Joins(m, bs), other);
  }

  /** Its path is lost. */
  lemma PathLost(g: Graph, g1: Graph, bs: seq<Bypass>, k: nat, other: Client)
    requires Rewirable(g, bs) && k < |bs| && other in g && g[other] == bs[k].server && other !in g1
    ensures !KeepsPaths(g, g1, bs)
  {
    var hid, s := HiddenBy(bs), g[bs[k].client];
    HiddenAt(bs, k);
    HiddenServers(bs, s);
    assert s !in hid;
    assert other !in hid.Values by {
      if h :| h in hid && hid[h] == other {
        HiddenServers(bs, h);
        var i :| 0 <= i < |bs| && bs[i].server == h;
        HiddenAt(bs, i);
      }
    }
    assert Next(g, hid, other) == Some(bs[k].client);
    assert Walk(g, hid, other, 1) == Walk(g, hid, bs[k].client, 0);
    assert LeadsIn(g, hid, other, s, 1);
    assert Leads(g, hid, other, s);
  }

  lemma RewirableTidy(g: Graph, bs: seq<Bypass>)
    requires Rewirable(g, bs) && forall i | 0 <= i < |bs| :: HasSoleDriver(g, bs[i].server)
    ensures Tidy(g, bs)
  {
    hide Drives, SelfFree, HasDriver;
    var hid := HiddenBy(bs);
    forall h | h in hid ensures hid[h] in g && exists d :: Drives(g, d, h) {
      HiddenServers(bs, h);
      var i :| 0 <= i < |bs| && bs[i].server == h;
      HiddenAt(bs, i);
    }
    forall h, h' | h in hid && h' in hid && hid[h] == hid[h'] ensures h == h' {
      HiddenServers(bs, h);
      HiddenServers(bs, h');
      var i :| 0 <= i < |bs| && bs[i].server == h;
      var j :| 0 <= j < |bs| && bs[j].server == h';
      HiddenAt(bs, i);
      HiddenAt(bs, j);
      assert i == j;
    }
  }

  /**
    A service with any bypasses and any drivers: a rewrite that succeeds keeps all paths exactly
    when each of the hidden servers has a single driver.
   */
  lemma PathsKeptExactly(m: Dict, bs: seq<Bypass>)
    requires m.Valid() && Rewire(m, bs).Some?
    ensures KeepsPaths(m.at, Rewire(m, bs).value.at, bs)
       <==> forall i | 0 <= i < |bs| :: HasSoleDriver(m.at, bs[i].server)
  {
    RewiresExactly(m, bs);
    hide Rewire, Drivers, Distinct, Leads, Rewirable, Tidy, Connected, Separate, Foldable, Contracted;
    if forall i | 0 <= i < |bs| :: HasSoleDriver(m.at, bs[i].server) {
      RewirableTidy(m.at, bs);
      RewireExactly(m, bs);
      forall c, s | c !in HiddenBy(bs).Values && s !in HiddenBy(bs)
        ensures (c in Contracted(m.at, bs) && Contracted(m.at, bs)[c] == s) <==> Leads(m.at, HiddenBy(bs), c, s)
      {
        HidingContractsPaths(m.at, bs, c, s);
      }
    } else {
      var k :| 0 <= k < |bs| && !HasSoleDriver(m.at, bs[k].server);
      var other := OtherDriver(m, bs, k);
      OtherDriverDropped(m, bs, k, other);
      PathLost(m.at, Rewire(m, bs).value.at, bs, k, other);
    }
  }

  lemma OtherDriver(m: Dict, bs: seq<Bypass>, k: nat) returns (other: Client)
    requires m.Valid() && Rewirable(m.at, bs) && k < |bs| && !HasSoleDriver(m.at, bs[k].server)
    ensures other in m.at && m.at[other] == bs[k].server
    ensures LastOf(Drivers(m.keys, m.at, bs[k].server)) != Some(other)
  {
    hide Drivers, Distinct, LastOf;
    HasDriverMeans(m, bs[k].server);
    var last := LastOf(Drivers(m.keys, m.at, bs[k].server)).value;
    assert !Drives(m.at, last, bs[k].server);
    other :| other in m.at && m.at[other] == bs[k].server && other != last;
  }

  /** A service whose only client drives its own hidden server cannot be rewired. */
  lemma FeedingItself(size: int)
    ensures var c, h := Client(0, "out"), Server(0, "in", size, size);
            Rewire(Dict([c], map[c := h]), [Bypass(c, h)]).None?
  {
    var c, h := Client(0, "out"), Server(0, "in", size, size);
    var m, bs := Dict([c], map[c := h]), [Bypass(c, h)];
    RewiresExactly(m, bs);
    assert m.at[bs[0].client] == bs[0].server;
  }

  /** Of two clients that drive a hidden server, the first is left unconnected although it led on. */
  lemma SharedServer(size: int)
    ensures var a, b, c := Client(1, "a"), Client(2, "b"), Client(0, "out");
            var h, t := Server(0, "in", size, size), Server(3, "t", size, size);
            var m, bs := Dict([a, b, c], map[a := h, b := h, c := t]), [Bypass(c, h)];
            && Rewire(m, bs).Some? && Rewire(m, bs).value.at == map[b := t]
            && Leads(m.at, HiddenBy(bs), a, t)
  {
    var a, b, c := Client(1, "a"), Client(2, "b"), Client(0, "out");
    var h, t := Server(0, "in", size, size), Server(3, "t", size, size);
    var m, bs := Dict([a, b, c], map[a := h, b := h, c := t]), [Bypass(c, h)];
    SharedDrivers(a, b, c, h, t);
    hide Drivers;
    assert bs[1..] == [] && Doomed(m, bs) == [c, a, b] && Joins(m, bs) == [Join(Some(b), t)];
    assert DeleteAll(m, [c, a, b]).Some? && DeleteAll(m, [c, a, b]).value.at == map[] by {
      assert Distinct([c, a, b]) && m.Valid();
      DeleteAllKeeps(m, [c, a, b]);
    }
    JoinOne(DeleteAll(m, [c, a, b]).value, b, t);
    assert HiddenBy(bs) == map[h := c];
    assert Next(m.at, HiddenBy(bs), a) == Some(c) && Walk(m.at, HiddenBy(bs), a, 1) == Walk(m.at, HiddenBy(bs), c, 0);
    assert LeadsIn(m.at, HiddenBy(bs), a, t, 1);
  }

  lemma SharedDrivers(a: Client, b: Client, c: Client, h: Server, t: Server)
    requires a != b && b != c && a != c && h != t
    ensures Drivers([a, b, c], map[a := h, b := h, c := t], h) == [a, b]
  {
    var g := map[a := h, b := h, c := t];
    assert [a, b, c][1..] == [b, c] && [b, c][1..] == [c] && [c][1..] == [];
    assert Drivers([c], g, h) == [] && Drivers([b, c], g, h) == [b];
  }

  lemma JoinOne(m: Dict, c: Client, s: Server)
    ensures JoinAll(m, [Join(Some(c), s)]) == Some(m.Set(c, s))
  {
    assert [Join(Some(c), s)][1..] == [];
  }

  // ---------------------------------------------------------------------
  // Rewiring services in turn
  // ---------------------------------------------------------------------

  function Flat(gs: seq<seq<Bypass>>): seq<Bypass> {
    if gs == [] then [] else gs[0] + Flat(gs[1..])
  }

  /** The services rewired in turn, each given by its bypasses. */
  function RewireAll(m: Dict, gs: seq<seq<Bypass>>): Option<Dict>
    decreases gs
  {
    if gs == [] then Some(m)
    else match Rewire(m, gs[0])
      case None => None
      case Some(m1) => RewireAll(m1, gs[1..])
  }

  /** No service feeds itself when its turn comes. */
  ghost predicate InTurnFree(g: Graph, gs: seq<seq<Bypass>>)
    decreases gs
  {
    gs == [] || (SelfFree(g, gs[0]) && InTurnFree(Contracted(g, gs[0]), gs[1..]))
  }

  lemma {:induction false} InTurnFreeFolds(g: Graph, gs: seq<seq<Bypass>>)
    requires Tidy(g, Flat(gs)) && InTurnFree(g, gs)
    ensures Foldable(g, Flat(gs))
    decreases gs
  {
    if gs != [] {
      hide Tidy, SelfFree, Contracted, Foldable;
      TidyPrefix(g, gs[0], Flat(gs[1..]));
      SelfFreeFolds(g, gs[0]);
      HidingInTurn(g, gs[0], Flat(gs[1..]));
      InTurnFreeFolds(Contracted(g, gs[0]), gs[1..]);
    } else {
      assert Flat(gs) == [];
    }
  }

  /** Rewiring in turn succeeds exactly when no service feeds itself in its turn, and contracts all bypasses. */
  lemma {:induction false} RewireAllExactly(m: Dict, gs: seq<seq<Bypass>>)
    requires m.Valid() && Tidy(m.at, Flat(gs))
    ensures RewireAll(m, gs).Some? <==> InTurnFree(m.at, gs)
    ensures RewireAll(m, gs).Some? ==>
            RewireAll(m, gs).value.Valid() && RewireAll(m, gs).value.at == Contracted(m.at, Flat(gs))
    decreases gs
  {
    if gs != [] {
      hide Tidy, SelfFree, Contracted, Foldable, Rewire, Dict.Valid;
      TidyPrefix(m.at, gs[0], Flat(gs[1..]));
      RewireExactly(m, gs[0]);
      if SelfFree(m.at, gs[0]) {
        HidingInTurn(m.at, gs[0], Flat(gs[1..]));
        RewireAllExactly(Rewire(m, gs[0]).value, gs[1..]);
      }
    }
  }

  /** A chain of one or more hidden services leads from `c` to `x`. */
  ghost predicate Reaches(g: Graph, hid: Hidden, c: Client, x: Client) {
    exists n: nat :: n >= 1 && Walk(g, hid, c, n) == Some(x)
  }

  /** No chain through the services up to the `k`-th leads from the `k`-th to itself. */
  ghost predicate ApartAt(g: Graph, gs: seq<seq<Bypass>>, k: nat)
    requires k < |gs|
  {
    forall i, j | 0 <= i < |gs[k]| && 0 <= j < |gs[k]| ::
      !Reaches(g, HiddenBy(Flat(gs[..k + 1])), gs[k][i].client, gs[k][j].client)
  }

  ghost predicate ServicesApart(g: Graph, gs: seq<seq<Bypass>>) {
    forall k | 0 <= k < |gs| :: ApartAt(g, gs, k)
  }

  lemma ContractKeepsReach(g: Graph, hid: Hidden, h: Server, d: Client, c: Client, x: Client)
    requires Contractible(g, hid, h, d) && c != hid[h] && x != hid[h]
    ensures Reaches(g, hid, c, x) <==> Reaches(Contract(g, hid[h], d), hid - {h}, c, x)
  {
    hide Connected, Walk;
    if n: nat :| n >= 1 && Walk(g, hid, c, n) == Some(x) {
      var m := WalkShrinks(g, hid, h, d, c, n, x);
    }
    if n: nat :| n >= 1 && Walk(Contract(g, hid[h], d), hid - {h}, c, n) == Some(x) {
      var m := WalkExpands(g, hid, h, d, c, n, x);
    }
  }

  /** Contracting a list of bypasses keeps every other chain. */
  lemma {:induction false} ContractedKeepsReach(g: Graph, bs: seq<Bypass>, rest: seq<Bypass>, c: Client, x: Client)
    requires Tidy(g, bs + rest) && Foldable(g, bs)
    requires forall i | 0 <= i < |bs| :: bs[i].client != c && bs[i].client != x
    ensures Reaches(g, HiddenBy(bs + rest), c, x) <==> Reaches(Contracted(g, bs), HiddenBy(rest), c, x)
    decreases bs
  {
    if bs == [] {
      assert bs + rest == rest;
    } else {
      hide Tidy, Contract, Walk, Reaches, Driver, Drives;
      FirstContracts(g, bs + rest);
      assert (bs + rest)[1..] == bs[1..] + rest;
      var h, d := bs[0].server, Driver(g, bs[0].server);
      ContractKeepsReach(g, HiddenBy(bs + rest), h, d, c, x);
      ContractedKeepsReach(Contract(g, bs[0].client, d), bs[1..], rest, c, x);
    }
  }

  lemma {:induction false} FlatIn(gs: seq<seq<Bypass>>, k: nat, i: nat) returns (p: nat)
    requires k < |gs| && i < |gs[k]|
    ensures p < |Flat(gs)| && Flat(gs)[p] == gs[k][i]
    decreases gs
  {
    if k == 0 {
      p := i;
    } else {
      p := FlatIn(gs[1..], k - 1, i);
      p := p + |gs[0]|;
    }
  }

  lemma {:induction false} FlatSplit(gs: seq<seq<Bypass>>, k: nat)
    requires k <= |gs|
    ensures Flat(gs) == Flat(gs[..k]) + Flat(gs[k..])
    decreases gs
  {
    if k == 0 {
      assert gs[0..] == gs;
      assert Flat(gs[..0]) == [];
    } else {
      FlatSplit(gs[1..], k - 1);
      assert gs[..k][1..] == gs[1..][..k - 1] && gs[1..][k - 1..] == gs[k..];
    }
  }

  /** Different bypasses have different clients. */
  lemma ClientsDiffer(g: Graph, bs: seq<Bypass>, p: nat, q: nat)
    requires Tidy(g, bs) && p < |bs| && q < |bs| && p != q
    ensures bs[p].client != bs[q].client
  {
    HiddenAt(bs, p);
    HiddenAt(bs, q);
  }

  lemma FirstApartExactly(g: Graph, gs: seq<seq<Bypass>>)
    requires gs != [] && Tidy(g, gs[0])
    ensures ApartAt(g, gs, 0) <==> SelfFree(g, gs[0])
  {
    hide Reaches, HiddenBy, Tidy;
    var bs := gs[0];
    FlatOne(gs);
    if !SelfFree(g, bs) {
      var i, j :| 0 <= i < |bs| && 0 <= j < |bs| && bs[i].client in g && g[bs[i].client] == bs[j].server;
      FeedingReaches(g, bs, i, j);
    }
    if !ApartAt(g, gs, 0) {
      var i, j :| 0 <= i < |bs| && 0 <= j < |bs| && Reaches(g, HiddenBy(bs), bs[i].client, bs[j].client);
      ReachingFeeds(g, bs, bs[i].client, bs[j].client);
    }
  }

  lemma FlatOne(gs: seq<seq<Bypass>>)
    requires gs != []
    ensures Flat(gs[..1]) == gs[0]
  {
    var first := gs[..1];
    assert first[0] == gs[0] && first[1..] == [] && Flat(first[1..]) == [];
  }

  lemma FeedingReaches(g: Graph, bs: seq<Bypass>, i: nat, j: nat)
    requires Tidy(g, bs) && i < |bs| && j < |bs| && bs[i].client in g && g[bs[i].client] == bs[j].server
    ensures Reaches(g, HiddenBy(bs), bs[i].client, bs[j].client)
  {
    var hid := HiddenBy(bs);
    HiddenAt(bs, j);
    hide HiddenBy;
    assert Next(g, hid, bs[i].client) == Some(bs[j].client);
    assert Walk(g, hid, bs[i].client, 1) == Walk(g, hid, bs[j].client, 0);
  }

  lemma ReachingFeeds(g: Graph, bs: seq<Bypass>, c: Client, x: Client)
    requires Reaches(g, HiddenBy(bs), c, x)
    ensures c in g && exists j :: 0 <= j < |bs| && bs[j].server == g[c]
  {
    hide HiddenBy;
    assert Next(g, HiddenBy(bs), c).Some?;
    HiddenServers(bs, g[c]);
  }

  /** The later services are apart before the first is rewired exactly when they are afterwards. */
  lemma LaterApartExactly(g: Graph, gs: seq<seq<Bypass>>, k: nat)
    requires 0 < k < |gs| && Tidy(g, Flat(gs)) && SelfFree(g, gs[0])
    ensures ApartAt(g, gs, k) <==> ApartAt(Contracted(g, gs[0]), gs[1..], k - 1)
  {
    hide Tidy, Reaches, Contracted, Foldable, HiddenBy, SelfFree;
    var bs, rest := gs[0], Flat(gs[1..][..k]);
    FlatSplit(gs, k + 1);
    assert gs[..k + 1][1..] == gs[1..][..k];
    assert Flat(gs[..k + 1]) == bs + rest;
    TidyPrefix(g, bs + rest, Flat(gs[k + 1..]));
    TidyPrefix(g, bs, rest);
    SelfFreeFolds(g, bs);
    forall i, j | 0 <= i < |gs[k]| && 0 <= j < |gs[k]|
      ensures Reaches(g, HiddenBy(bs + rest), gs[k][i].client, gs[k][j].client)
         <==> Reaches(Contracted(g, bs), HiddenBy(rest), gs[k][i].client, gs[k][j].client)
    {
      LaterClients(g, gs, k, i, bs, rest);
      LaterClients(g, gs, k, j, bs, rest);
      ContractedKeepsReach(g, bs, rest, gs[k][i].client, gs[k][j].client);
    }
    assert gs[1..][k - 1] == gs[k];
  }

  lemma LaterClients(g: Graph, gs: seq<seq<Bypass>>, k: nat, i: nat, bs: seq<Bypass>, rest: seq<Bypass>)
    requires 0 < k < |gs| && i < |gs[k]| && bs == gs[0] && rest == Flat(gs[1..][..k]) && Tidy(g, bs + rest)
    ensures forall q | 0 <= q < |bs| :: bs[q].client != gs[k][i].client
  {
    hide Tidy, Flat;
    assert gs[1..][..k][k - 1] == gs[k];
    var p := FlatIn(gs[1..][..k], k - 1, i);
    forall q | 0 <= q < |bs|
      ensures bs[q].client != gs[k][i].client
    {
      assert (bs + rest)[|bs| + p] == gs[k][i] && (bs + rest)[q] == bs[q];
      ClientsDiffer(g, bs + rest, q, |bs| + p);
    }
  }

  /** Whether a service will feed itself in its turn can be read off the original connections. */
  lemma {:induction false} ApartExactly(g: Graph, gs: seq<seq<Bypass>>)
    requires Tidy(g, Flat(gs))
    ensures InTurnFree(g, gs) <==> ServicesApart(g, gs)
    decreases gs
  {
    if gs != [] {
      hide Tidy, SelfFree, ApartAt, Contracted, Foldable;
      var rest := gs[1..];
      TidyPrefix(g, gs[0], Flat(rest));
      FirstApartExactly(g, gs);
      if SelfFree(g, gs[0]) {
        SelfFreeFolds(g, gs[0]);
        HidingInTurn(g, gs[0], Flat(rest));
        ApartExactly(Contracted(g, gs[0]), rest);
        forall k | 0 < k < |gs|
          ensures ApartAt(g, gs, k) <==> ApartAt(Contracted(g, gs[0]), rest, k - 1)
        {
          LaterApartExactly(g, gs, k);
        }
        assert ServicesApart(Contracted(g, gs[0]), rest) ==> ServicesApart(g, gs);
        if ServicesApart(g, gs) {
          forall k | 0 <= k < |rest|
            ensures ApartAt(Contracted(g, gs[0]), rest, k)
          {
            assert ApartAt(g, gs, k + 1);
          }
        }
      }
    }
  }
}
