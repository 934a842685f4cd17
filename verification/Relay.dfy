/** The relay's rendezvous: hosts wait in a shared table under the routes they registered, and a
    client looks its route up, proves itself against the registered key, claims the entry and hands
    its stream over. Proof checking is an uninterpreted predicate; connection ids are fresh. */
module Relay {
  import opened Core
  import opened Order

  type ConnectionId = nat
  type RouteId = nat
  type Key = nat
  type Proof = nat

  const MAX_ROUTES: nat := 16
  const MAX_WAITING_HOSTS: nat := MAX_ROUTES + 1
  const MAX_OUTER_CONNECTIONS: nat := 4 * MAX_WAITING_HOSTS

  type Routes = map<RouteId, Key>

  type Table = map<ConnectionId, Routes>

  /** Whether a client's proof matches the one derived from the registered key. */
  type Verifier = (Key, ConnectionId, RouteId, Proof) -> bool

  // ---------- The waiting table ----------

  predicate Takes(waiting: Table, route: RouteId) {
    exists h :: h in waiting && route in waiting[h]
  }

  predicate RoutesOverlap(waiting: Table, candidate: Routes) {
    exists r :: r in candidate && Takes(waiting, r)
  }

  function Without(waiting: Table, host: ConnectionId): Table {
    waiting - {host}
  }

  datatype Registration = Registered | TableFull | RouteTaken

  function Register(waiting: Table, host: ConnectionId, routes: Routes): (Table, Registration) {
    if |waiting| >= MAX_WAITING_HOSTS then (waiting, TableFull)
    else if RoutesOverlap(waiting, routes) then (waiting, RouteTaken)
    else (waiting[host := routes], Registered)
  }

  datatype Lookup = NobodyWaiting | UnknownRoute | Found(host: ConnectionId, key: Key)

  /** Routes of different waiting hosts never overlap. */
  ghost predicate Disjoint(waiting: Table) {
    forall h, k, r :: h in waiting && k in waiting && r in waiting[h] && r in waiting[k] ==> h == k
  }

  /** Looking a route up yields the one host waiting under it, with the key it registered. */
  ghost predicate LooksUp(waiting: Table, route: RouteId, found: Lookup) {
    match found
    case NobodyWaiting => waiting == map[]
    case UnknownRoute => waiting != map[] && forall h :: h in waiting ==> route !in waiting[h]
    case Found(host, key) => host in waiting && route in waiting[host] && waiting[host][route] == key
  }

  /** The shared table behind its mutex: each method is one critical section. */
  class WaitingTable {
    var waiting: Table

    constructor ()
      ensures waiting == map[]
    {
      waiting := map[];
    }

    method TakenByAny(route: RouteId) returns (taken: bool)
      ensures taken == Takes(waiting, route)
    {
      AscendingElements(waiting.Keys);
      var hosts := Ascending(waiting.Keys);
      for j := 0 to |hosts|
        invariant forall b :: 0 <= b < j ==> hosts[b] in waiting && route !in waiting[hosts[b]]
      {
        assert hosts[j] in hosts;
        if route in waiting[hosts[j]] {
          return true;
        }
      }
      forall h | h in waiting ensures route !in waiting[h] {
        assert h in hosts;
      }
      taken := false;
    }

    /** `routes_overlap`: every candidate route against every waiting host. */
    method Overlaps(candidate: Routes) returns (overlap: bool)
      ensures overlap == RoutesOverlap(waiting, candidate)
    {
      AscendingElements(candidate.Keys);
      var routes := Ascending(candidate.Keys);
      for i := 0 to |routes|
        invariant forall a :: 0 <= a < i ==> !Takes(waiting, routes[a])
      {
        var taken := TakenByAny(routes[i]);
        assert routes[i] in routes;
        if taken {
          return true;
        }
      }
      forall r | r in candidate ensures !Takes(waiting, r) {
        assert r in routes;
      }
      overlap := false;
    }

    method AddHost(host: ConnectionId, routes: Routes) returns (r: Registration)
      modifies this
      ensures (waiting, r) == Register(old(waiting), host, routes)
    {
      if |waiting| >= MAX_WAITING_HOSTS {
        return TableFull;
      }
      var overlap := Overlaps(routes);
      if overlap {
        return RouteTaken;
      }
      waiting := waiting[host := routes];
      r := Registered;
    }

    /** The first critical section of `handle_client`. */
    method Find(route: RouteId) returns (found: Lookup)
      ensures LooksUp(waiting, route, found)
      ensures Disjoint(waiting) && found.Found? ==>
                forall h :: h in waiting && route in waiting[h] ==> h == found.host
    {
      if waiting == map[] {
        return NobodyWaiting;
      }
      AscendingElements(waiting.Keys);
      var hosts := Ascending(waiting.Keys);
      for i := 0 to |hosts|
        invariant forall b :: 0 <= b < i ==> hosts[b] in waiting && route !in waiting[hosts[b]]
      {
        assert hosts[i] in hosts;
        if route in waiting[hosts[i]] {
          return Found(hosts[i], waiting[hosts[i]][route]);
        }
      }
      found := UnknownRoute;
      forall h | h in waiting ensures route !in waiting[h] {
        assert h in hosts;
      }
    }

    /** The second critical section of `handle_client`. */
    method Claim(host: ConnectionId) returns (ok: bool)
      modifies this
      ensures ok == (host in old(waiting)) && waiting == Without(old(waiting), host)
    {
      ok := host in waiting;
      if ok {
        waiting := Without(waiting, host);
      }
    }

    /** `WaitingHostGuard::drop`. */
    method Remove(host: ConnectionId)
      modifies this
      ensures waiting == Without(old(waiting), host)
    {
      waiting := Without(waiting, host);
    }

    method Clear()
      modifies this
      ensures waiting == map[]
    {
      waiting := map[];
    }
  }

  // ---------- Every interleaving of hosts and clients ----------

  /** A host worker after its registration: the receiving end of its one-place channel, and whether
      its waiting guard and its receiver are still alive. */
  datatype HostWorker = HostWorker(routes: Routes, inbox: seq<ConnectionId>, peer: Option<ConnectionId>,
                                   guarded: bool, receiving: bool)

  datatype ClientPhase =
    | Hello
    | Matched(host: ConnectionId, key: Key)
    | Proven(host: ConnectionId, key: Key)
    | Claimed(host: ConnectionId, key: Key)
    | Sent(host: ConnectionId, key: Key)
    | Rejected

  datatype ClientWorker = ClientWorker(route: RouteId, proof: Proof, phase: ClientPhase)

  /** `winners` records which client took which host's entry out of the table, and `live` holds the
      connections whose worker thread has not finished. */
  datatype State = State(
    waiting: Table,
    winners: map<ConnectionId, ConnectionId>,
    hosts: map<ConnectionId, HostWorker>,
    clients: map<ConnectionId, ClientWorker>,
    active: nat,
    live: set<ConnectionId>,
    admitting: bool)

  datatype Action =
    | CheckCapacity
    | Admit(connection: ConnectionId)
    | HostHello(host: ConnectionId, routes: Routes)
    | ClientHello(client: ConnectionId, route: RouteId, proof: Proof)
    | LookUp(client: ConnectionId, found: Lookup)
    | Verify(client: ConnectionId)
    | TakeEntry(client: ConnectionId)
    | Send(client: ConnectionId)
    | Receive(host: ConnectionId)
    | DropGuard(host: ConnectionId)
    | DropReceiver(host: ConnectionId)
    | ClearTable
    | Finish(connection: ConnectionId)

  ghost function SetClient(s: State, c: ConnectionId, phase: ClientPhase): State
    requires c in s.clients
  {
    s.(clients := s.clients[c := s.clients[c].(phase := phase)])
  }

  ghost function Admitted(s: State, c: ConnectionId): State {
    if !s.admitting || c in s.live || c in s.hosts || c in s.clients then s
    else s.(active := s.active + 1, live := s.live + {c}, admitting := false)
  }

  ghost function HostEnters(s: State, h: ConnectionId, routes: Routes): State {
    if h !in s.live || h in s.hosts || h in s.clients then s
    else
      var r := Register(s.waiting, h, routes);
      if r.1 != Registered then s
      else s.(waiting := r.0, hosts := s.hosts[h := HostWorker(routes, [], None, true, true)])
  }

  ghost function ClientEnters(s: State, c: ConnectionId, route: RouteId, proof: Proof): State {
    if c !in s.live || c in s.hosts || c in s.clients then s
    else s.(clients := s.clients[c := ClientWorker(route, proof, Hello)])
  }

  ghost function LooksRouteUp(s: State, c: ConnectionId, found: Lookup): State {
    if c !in s.clients || s.clients[c].phase != Hello || !LooksUp(s.waiting, s.clients[c].route, found) then s
    else SetClient(s, c, if found.Found? then Matched(found.host, found.key) else Rejected)
  }

  ghost function ChecksProof(s: State, verify: Verifier, c: ConnectionId): State {
    if c !in s.clients || !s.clients[c].phase.Matched? then s
    else
      var w := s.clients[c];
      SetClient(s, c, if verify(w.phase.key, c, w.route, w.proof) then Proven(w.phase.host, w.phase.key) else Rejected)
  }

  ghost function TakesEntry(s: State, c: ConnectionId): State {
    if c !in s.clients || !s.clients[c].phase.Proven? then s
    else
      var w := s.clients[c];
      if w.phase.host !in s.waiting then SetClient(s, c, Rejected)
      else SetClient(s, c, Claimed(w.phase.host, w.phase.key))
            .(waiting := Without(s.waiting, w.phase.host), winners := s.winners[w.phase.host := c])
  }

  /** The send would block on a full inbox. */
  ghost predicate SendBlocks(s: State, c: ConnectionId) {
    && c in s.clients && s.clients[c].phase.Claimed? && s.clients[c].phase.host in s.hosts
    && s.hosts[s.clients[c].phase.host].receiving && |s.hosts[s.clients[c].phase.host].inbox| >= 1
  }

  ghost function SendsStream(s: State, c: ConnectionId): State {
    if c !in s.clients || !s.clients[c].phase.Claimed? || s.clients[c].phase.host !in s.hosts || SendBlocks(s, c) then s
    else
      var w := s.clients[c];
      var h := s.hosts[w.phase.host];
      if !h.receiving then SetClient(s, c, Rejected)
      else SetClient(s, c, Sent(w.phase.host, w.phase.key))
            .(hosts := s.hosts[w.phase.host := h.(inbox := h.inbox + [c])])
  }

  ghost function ReceivesStream(s: State, h: ConnectionId): State {
    if h !in s.hosts || s.hosts[h].inbox == [] || s.hosts[h].peer.Some? || !s.hosts[h].receiving then s
    else s.(hosts := s.hosts[h := s.hosts[h].(inbox := s.hosts[h].inbox[1..], peer := Some(s.hosts[h].inbox[0]))])
  }

  ghost function DropsGuard(s: State, h: ConnectionId): State {
    if h !in s.hosts || !s.hosts[h].guarded then s
    else s.(waiting := Without(s.waiting, h), hosts := s.hosts[h := s.hosts[h].(guarded := false)])
  }

  ghost function DropsReceiver(s: State, h: ConnectionId): State {
    if h !in s.hosts || s.hosts[h].guarded then s
    else s.(hosts := s.hosts[h := s.hosts[h].(receiving := false)])
  }

  ghost function Finishes(s: State, c: ConnectionId): State {
    if c !in s.live || s.active == 0 || (c in s.hosts && s.hosts[c].receiving) then s
    else s.(active := s.active - 1, live := s.live - {c})
  }

  ghost function Step(s: State, verify: Verifier, a: Action): State {
    match a
    case CheckCapacity => s.(admitting := s.active < MAX_OUTER_CONNECTIONS)
    case Admit(c) => Admitted(s, c)
    case HostHello(h, routes) => HostEnters(s, h, routes)
    case ClientHello(c, route, proof) => ClientEnters(s, c, route, proof)
    case LookUp(c, found) => LooksRouteUp(s, c, found)
    case Verify(c) => ChecksProof(s, verify, c)
    case TakeEntry(c) => TakesEntry(s, c)
    case Send(c) => SendsStream(s, c)
    case Receive(h) => ReceivesStream(s, h)
    case DropGuard(h) => DropsGuard(s, h)
    case DropReceiver(h) => DropsReceiver(s, h)
    case ClearTable => s.(waiting := map[])
    case Finish(c) => Finishes(s, c)
  }

  const IDLE := State(map[], map[], map[], map[], 0, {}, false)

  ghost function Run(verify: Verifier, actions: seq<Action>): State {
    if actions == [] then IDLE
    else Step(Run(verify, actions[..|actions| - 1]), verify, actions[|actions| - 1])
  }

  // ---------- What every interleaving keeps ----------

  ghost predicate TableInv(s: State) {
    && Disjoint(s.waiting) && |s.waiting| <= MAX_WAITING_HOSTS
    && (forall h :: h in s.waiting ==> h in s.hosts)
    && (forall h :: h in s.winners ==> h in s.hosts)
  }

  /** The client's stream was handed to this host. */
  ghost predicate Arrived(s: State, h: ConnectionId, c: ConnectionId) {
    c in s.clients && s.clients[c].phase.Sent? && s.clients[c].phase.host == h
  }

  /** A waiting host is in the table under its own routes and nobody won it; a host that somebody won is
      handed that client's stream and nothing else. */
  ghost predicate HostInv(s: State, h: ConnectionId)
    requires h in s.hosts
  {
    var w := s.hosts[h];
    && (w.guarded ==> w.receiving)
    && (h in s.waiting ==> s.waiting[h] == w.routes && w.guarded && h !in s.winners)
    && (h !in s.winners ==> w.inbox == [] && w.peer == None)
    && (h in s.winners ==> (w.inbox == [] || (w.inbox == [s.winners[h]] && w.peer == None))
                           && (w.peer == None || w.peer == Some(s.winners[h])))
    && (w.inbox != [] || w.peer.Some? ==> h in s.winners && Arrived(s, h, s.winners[h]))
  }

  /** A client past the look-up holds the key its host registered for the client's own route; past
      the check its proof was verified under that key; past the claim it is the one winner, and
      until it sends, the host's inbox is empty. */
  ghost predicate ClientInv(s: State, verify: Verifier, c: ConnectionId)
    requires c in s.clients
  {
    var w := s.clients[c];
    && (w.phase.Matched? || w.phase.Proven? || w.phase.Claimed? || w.phase.Sent? ==>
          && w.phase.host in s.hosts && w.route in s.hosts[w.phase.host].routes
          && s.hosts[w.phase.host].routes[w.route] == w.phase.key)
    && (w.phase.Proven? || w.phase.Claimed? || w.phase.Sent? ==> verify(w.phase.key, c, w.route, w.proof))
    && (w.phase.Claimed? || w.phase.Sent? ==> w.phase.host in s.winners && s.winners[w.phase.host] == c)
    && (w.phase.Claimed? ==> s.hosts[w.phase.host].inbox == [] && s.hosts[w.phase.host].peer == None)
  }

  ghost predicate CountInv(s: State) {
    && s.active == |s.live| <= MAX_OUTER_CONNECTIONS && (s.admitting ==> s.active < MAX_OUTER_CONNECTIONS)
  }

  ghost predicate Safe(s: State, verify: Verifier) {
    && TableInv(s) && CountInv(s)
    && (forall h :: h in s.hosts ==> HostInv(s, h))
    && (forall c :: c in s.clients ==> ClientInv(s, verify, c))
  }

  lemma StepKeepsCount(s: State, verify: Verifier, a: Action)
    requires CountInv(s) && (a.CheckCapacity? || a.Admit? || a.ClearTable? || a.Finish?)
    ensures CountInv(Step(s, verify, a))
  {
    hide HostEnters, ClientEnters, LooksRouteUp, ChecksProof, TakesEntry, SendsStream, ReceivesStream, DropsGuard,
         DropsReceiver;
  }

  lemma InsertKeepsDisjoint(waiting: Table, h: ConnectionId, routes: Routes)
    requires Disjoint(waiting) && !RoutesOverlap(waiting, routes)
    ensures Disjoint(waiting[h := routes])
  {
    var after := waiting[h := routes];
    forall a, b, r | a in after && b in after && r in after[a] && r in after[b] ensures a == b {
      if (a == h) != (b == h) {
        NotTaken(waiting, routes, r, if a == h then b else a);
      }
    }
  }

  lemma NotTaken(waiting: Table, routes: Routes, r: RouteId, k: ConnectionId)
    requires !RoutesOverlap(waiting, routes) && k in waiting && r in waiting[k]
    ensures r !in routes
  {
    assert Takes(waiting, r);
  }

  lemma RemoveKeepsTable(waiting: Table, h: ConnectionId)
    requires Disjoint(waiting) && |waiting| <= MAX_WAITING_HOSTS
    ensures var after := Without(waiting, h);
            && Disjoint(after) && |after| <= MAX_WAITING_HOSTS && h !in after
            && forall k :: k != h ==> (k in after <==> k in waiting) && (k in waiting ==> after[k] == waiting[k])
  {
    var after := Without(waiting, h);
    assert waiting.Keys == after.Keys + (waiting.Keys - after.Keys);
    assert |after.Keys| == |after| && |waiting.Keys| == |waiting|;
  }

  lemma RegisterKeepsTable(waiting: Table, h: ConnectionId, routes: Routes)
    requires Disjoint(waiting) && |waiting| <= MAX_WAITING_HOSTS
    ensures var r := Register(waiting, h, routes);
            && Disjoint(r.0) && |r.0| <= MAX_WAITING_HOSTS
            && r.0 == if r.1 == Registered then waiting[h := routes] else waiting
  {
    hide Disjoint, RoutesOverlap;
    if Register(waiting, h, routes).1 == Registered {
      InsertKeepsDisjoint(waiting, h, routes);
    }
  }

  lemma EmptyTable()
    ensures Disjoint(map[])
  {
  }

  /** The keys of other hosts and the claims of other clients survive whatever changes one host,
      as long as that host keeps its routes and an unfinished claim's inbox stays empty. */
  lemma HostChange(s: State, s': State, verify: Verifier, h: ConnectionId)
    requires Safe(s, verify) && TableInv(s') && CountInv(s')
    requires s'.clients == s.clients && s'.winners == s.winners
    requires h in s.hosts && h in s'.hosts && s'.hosts == s.hosts[h := s'.hosts[h]] && HostInv(s', h)
    requires forall k :: k in s'.waiting ==> k in s.waiting && s'.waiting[k] == s.waiting[k]
    requires s'.hosts[h].routes == s.hosts[h].routes
    requires s.hosts[h].inbox == [] && s.hosts[h].peer == None ==> s'.hosts[h].inbox == [] && s'.hosts[h].peer == None
    ensures Safe(s', verify)
  {
    hide TableInv, CountInv;
    forall k | k in s'.hosts ensures HostInv(s', k) {
      assert k != h ==> HostInv(s, k);
    }
    forall c | c in s'.clients ensures ClientInv(s', verify, c) {
      assert ClientInv(s, verify, c);
    }
  }

  /** One client advances and nothing else moves. */
  lemma ClientChange(s: State, s': State, verify: Verifier, c: ConnectionId)
    requires Safe(s, verify) && c in s'.clients && s'.clients == s.clients[c := s'.clients[c]]
    requires s' == s.(clients := s'.clients) && ClientInv(s', verify, c)
    requires c in s.clients ==> !s.clients[c].phase.Sent?
    ensures Safe(s', verify)
  {
    forall k | k in s'.hosts ensures HostInv(s', k) {
      assert HostInv(s, k);
    }
    forall d | d in s'.clients ensures ClientInv(s', verify, d) {
      assert d != c ==> ClientInv(s, verify, d);
    }
  }

  /** A new host leaves every other host and every client as it was. */
  lemma NewHostKeepsOthers(s: State, s': State, verify: Verifier, h: ConnectionId, routes: Routes)
    requires Safe(s, verify) && h !in s.hosts && s'.clients == s.clients && s'.winners == s.winners
    requires s'.waiting == s.waiting[h := routes] && s'.hosts == s.hosts[h := HostWorker(routes, [], None, true, true)]
    ensures forall k :: k in s'.hosts ==> HostInv(s', k)
    ensures forall c :: c in s'.clients ==> ClientInv(s', verify, c)
  {
    hide Disjoint, CountInv;
    forall k | k in s'.hosts ensures HostInv(s', k) {
      assert k != h ==> HostInv(s, k);
    }
    forall c | c in s'.clients ensures ClientInv(s', verify, c) {
      assert ClientInv(s, verify, c);
    }
  }

  lemma HostEntersSafely(s: State, verify: Verifier, h: ConnectionId, routes: Routes)
    requires Safe(s, verify)
    ensures Safe(HostEnters(s, h, routes), verify)
  {
    hide Disjoint, Register, CountInv, HostInv, ClientInv;
    var s' := HostEnters(s, h, routes);
    RegisterKeepsTable(s.waiting, h, routes);
    if s' != s {
      NewHostKeepsOthers(s, s', verify, h, routes);
      CountIgnoresTables(s, s');
    }
  }

  lemma CountIgnoresTables(s: State, s': State)
    requires s'.active == s.active && s'.live == s.live && s'.admitting == s.admitting
    ensures CountInv(s) ==> CountInv(s')
  {
  }

  lemma ClientEntersSafely(s: State, verify: Verifier, c: ConnectionId, route: RouteId, proof: Proof)
    requires Safe(s, verify)
    ensures Safe(ClientEnters(s, c, route, proof), verify)
  {
    hide Safe;
    var s' := ClientEnters(s, c, route, proof);
    if s' != s {
      ClientChange(s, s', verify, c);
    }
  }

  lemma LooksUpSafely(s: State, verify: Verifier, c: ConnectionId, found: Lookup)
    requires Safe(s, verify)
    ensures Safe(LooksRouteUp(s, c, found), verify)
  {
    hide Safe, Disjoint;
    var s' := LooksRouteUp(s, c, found);
    if s' != s {
      SafeParts(s, verify, c, if found.Found? then found.host else 0);
      ClientChange(s, s', verify, c);
    }
  }

  lemma ChecksProofSafely(s: State, verify: Verifier, c: ConnectionId)
    requires Safe(s, verify)
    ensures Safe(ChecksProof(s, verify, c), verify)
  {
    hide Safe, TableInv, HostInv;
    var s' := ChecksProof(s, verify, c);
    if s' != s {
      SafeParts(s, verify, c, 0);
      ClientChange(s, s', verify, c);
    }
  }

  lemma SafeParts(s: State, verify: Verifier, c: ConnectionId, h: ConnectionId)
    requires Safe(s, verify)
    ensures TableInv(s) && (c in s.clients ==> ClientInv(s, verify, c)) && (h in s.hosts ==> HostInv(s, h))
  {
  }

  /** Taking the entry of a waiting host leaves every other host and client as it was. */
  lemma TakeKeepsOthers(s: State, s': State, verify: Verifier, c: ConnectionId, h: ConnectionId)
    requires Safe(s, verify) && c in s.clients && s.clients[c].phase.Proven? && s.clients[c].phase.host == h
    requires h in s.waiting
    requires s'.hosts == s.hosts && s'.waiting == Without(s.waiting, h) && s'.winners == s.winners[h := c]
    requires s'.clients == s.clients[c := s.clients[c].(phase := Claimed(h, s.clients[c].phase.key))]
    ensures forall k :: k in s'.hosts ==> HostInv(s', k)
    ensures forall d :: d in s'.clients ==> ClientInv(s', verify, d)
  {
    hide Disjoint, CountInv;
    assert HostInv(s, h) && ClientInv(s, verify, c);
    forall k | k in s'.hosts ensures HostInv(s', k) {
      assert HostInv(s, k);
    }
    forall d | d in s'.clients ensures ClientInv(s', verify, d) {
      assert ClientInv(s, verify, d);
    }
  }

  lemma TakesEntrySafely(s: State, verify: Verifier, c: ConnectionId)
    requires Safe(s, verify)
    ensures Safe(TakesEntry(s, c), verify)
  {
    hide Disjoint, CountInv, HostInv, Without;
    var s' := TakesEntry(s, c);
    if c in s.clients && s.clients[c].phase.Proven? {
      var h := s.clients[c].phase.host;
      assert ClientInv(s, verify, c);
      if h !in s.waiting {
        ClientChange(s, s', verify, c);
      } else {
        RemoveKeepsTable(s.waiting, h);
        CountIgnoresTables(s, s');
        TakeKeepsOthers(s, s', verify, c, h);
      }
    }
  }

  /** Handing the winner's stream over leaves every other host and client as it was. */
  lemma SendKeepsOthers(s: State, s': State, verify: Verifier, c: ConnectionId, h: ConnectionId)
    requires Safe(s, verify) && c in s.clients && s.clients[c].phase.Claimed? && s.clients[c].phase.host == h
    requires h in s.hosts
    requires s'.waiting == s.waiting && s'.winners == s.winners
    requires s'.hosts == s.hosts[h := s.hosts[h].(inbox := s.hosts[h].inbox + [c])]
    requires s'.clients == s.clients[c := s.clients[c].(phase := Sent(h, s.clients[c].phase.key))]
    ensures forall k :: k in s'.hosts ==> HostInv(s', k)
    ensures forall d :: d in s'.clients ==> ClientInv(s', verify, d)
  {
    hide Disjoint, CountInv;
    assert HostInv(s, h) && ClientInv(s, verify, c);
    forall k | k in s'.hosts ensures HostInv(s', k) {
      assert HostInv(s, k);
    }
    forall d | d in s'.clients ensures ClientInv(s', verify, d) {
      assert ClientInv(s, verify, d);
    }
  }

  lemma SendsSafely(s: State, verify: Verifier, c: ConnectionId)
    requires Safe(s, verify)
    ensures Safe(SendsStream(s, c), verify) && !SendBlocks(s, c)
  {
    hide Disjoint, CountInv, HostInv;
    var s' := SendsStream(s, c);
    if c in s.clients && s.clients[c].phase.Claimed? {
      var h := s.clients[c].phase.host;
      assert ClientInv(s, verify, c);
      if !s.hosts[h].receiving {
        ClientChange(s, s', verify, c);
      } else {
        CountIgnoresTables(s, s');
        SendKeepsOthers(s, s', verify, c, h);
      }
    }
  }

  lemma ReceivesSafely(s: State, verify: Verifier, h: ConnectionId)
    requires Safe(s, verify)
    ensures Safe(ReceivesStream(s, h), verify)
  {
    hide Safe, Disjoint, CountInv, ClientInv;
    var s' := ReceivesStream(s, h);
    if s' != s {
      SafeParts(s, verify, h, h);
      SafeCount(s, verify);
      CountIgnoresTables(s, s');
      HostChange(s, s', verify, h);
    }
  }

  lemma DropsReceiverSafely(s: State, verify: Verifier, h: ConnectionId)
    requires Safe(s, verify)
    ensures Safe(DropsReceiver(s, h), verify)
  {
    hide Safe, Disjoint, CountInv, ClientInv;
    var s' := DropsReceiver(s, h);
    if s' != s {
      SafeParts(s, verify, h, h);
      SafeCount(s, verify);
      CountIgnoresTables(s, s');
      HostChange(s, s', verify, h);
    }
  }

  lemma SafeCount(s: State, verify: Verifier)
    requires Safe(s, verify)
    ensures CountInv(s)
  {
  }

  lemma DropsGuardSafely(s: State, verify: Verifier, h: ConnectionId)
    requires Safe(s, verify)
    ensures Safe(DropsGuard(s, h), verify)
  {
    hide Safe, Disjoint, CountInv, ClientInv, Without;
    var dropped := DropsGuard(s, h);
    if dropped != s {
      SafeParts(s, verify, h, h);
      SafeCount(s, verify);
      CountIgnoresTables(s, dropped);
      RemoveKeepsTable(s.waiting, h);
      HostChange(s, dropped, verify, h);
    }
  }

  /** Counting and clearing touch neither hosts nor clients. */
  lemma OuterChange(s: State, s': State, verify: Verifier)
    requires Safe(s, verify) && CountInv(s') && (s'.waiting == s.waiting || s'.waiting == map[])
    requires s'.hosts == s.hosts && s'.clients == s.clients && s'.winners == s.winners
    ensures Safe(s', verify)
  {
    hide Disjoint, CountInv;
    EmptyTable();
    forall h | h in s'.hosts ensures HostInv(s', h) {
      assert HostInv(s, h);
    }
    forall c | c in s'.clients ensures ClientInv(s', verify, c) {
      assert ClientInv(s, verify, c);
    }
  }

  lemma OuterStepSafely(s: State, verify: Verifier, a: Action)
    requires Safe(s, verify) && (a.CheckCapacity? || a.Admit? || a.ClearTable? || a.Finish?)
    ensures Safe(Step(s, verify, a), verify)
  {
    hide Safe, CountInv, HostEnters, ClientEnters, LooksRouteUp, ChecksProof, TakesEntry, SendsStream, ReceivesStream,
         DropsGuard, DropsReceiver;
    SafeCount(s, verify);
    StepKeepsCount(s, verify, a);
    OuterChange(s, Step(s, verify, a), verify);
  }

  lemma StepIsSafe(s: State, verify: Verifier, a: Action)
    requires Safe(s, verify)
    ensures Safe(Step(s, verify, a), verify)
  {
    hide Safe, Admitted, HostEnters, ClientEnters, LooksRouteUp, ChecksProof, TakesEntry, SendsStream, ReceivesStream,
         DropsGuard, DropsReceiver, Finishes;
    match a
    case CheckCapacity => OuterStepSafely(s, verify, a);
    case Admit(_) => OuterStepSafely(s, verify, a);
    case HostHello(h, routes) => HostEntersSafely(s, verify, h, routes);
    case ClientHello(c, route, proof) => ClientEntersSafely(s, verify, c, route, proof);
    case LookUp(c, found) => LooksUpSafely(s, verify, c, found);
    case Verify(c) => ChecksProofSafely(s, verify, c);
    case TakeEntry(c) => TakesEntrySafely(s, verify, c);
    case Send(c) => SendsSafely(s, verify, c);
    case Receive(h) => ReceivesSafely(s, verify, h);
    case DropGuard(h) => DropsGuardSafely(s, verify, h);
    case DropReceiver(h) => DropsReceiverSafely(s, verify, h);
    case ClearTable => OuterStepSafely(s, verify, a);
    case Finish(_) => OuterStepSafely(s, verify, a);
  }

  lemma {:induction false} RunIsSafe(verify: Verifier, actions: seq<Action>)
    ensures Safe(Run(verify, actions), verify)
  {
    hide Step, Safe;
    if actions == [] {
      IdleIsSafe(verify);
    } else {
      RunIsSafe(verify, actions[..|actions| - 1]);
      StepIsSafe(Run(verify, actions[..|actions| - 1]), verify, actions[|actions| - 1]);
    }
  }

  lemma IdleIsSafe(verify: Verifier)
    ensures Safe(IDLE, verify)
  {
  }

  // ---------- The guarantees ----------

  /** In every interleaving, waiting routes are pairwise disjoint, at most seventeen hosts wait, and
      the counter is the number of worker threads alive, never more than the limit. */
  lemma RendezvousStaysBounded(verify: Verifier, actions: seq<Action>)
    ensures var s := Run(verify, actions);
            && Disjoint(s.waiting) && |s.waiting| <= 17
            && s.active == |s.live| <= 68
  {
    hide Run;
    RunIsSafe(verify, actions);
  }

  /** The client took this host's entry out of the table. */
  ghost predicate Won(s: State, h: ConnectionId, c: ConnectionId)
    requires c in s.clients
  {
    (s.clients[c].phase.Claimed? || s.clients[c].phase.Sent?) && s.clients[c].phase.host == h
  }

  lemma OnlyTakingWins(s: State, verify: Verifier, a: Action)
    requires !a.TakeEntry?
    ensures Step(s, verify, a).winners == s.winners
  {
    hide TakesEntry, LooksUp, Register, Without;
  }

  lemma WinnersStay(s: State, verify: Verifier, a: Action, h: ConnectionId)
    requires Safe(s, verify) && h in s.winners
    ensures var s' := Step(s, verify, a); h in s'.winners && s'.winners[h] == s.winners[h]
  {
    hide Disjoint, CountInv, ClientInv, Without, Admitted, HostEnters, ClientEnters, LooksRouteUp, ChecksProof,
         SendsStream, ReceivesStream, DropsGuard, DropsReceiver, Finishes;
    if a.TakeEntry? {
      assert h in s.hosts && HostInv(s, h);
    } else {
      OnlyTakingWins(s, verify, a);
    }
  }

  /** A registration is claimed at most once: whoever took a host's entry stays the only one, and the
      host never waits again under that connection. */
  lemma {:induction false} ClaimedAtMostOnce(verify: Verifier, before: seq<Action>, after: seq<Action>, h: ConnectionId)
    requires h in Run(verify, before).winners
    ensures var s := Run(verify, before + after);
            && h in s.winners && s.winners[h] == Run(verify, before).winners[h] && h !in s.waiting
            && forall c :: c in s.clients && Won(s, h, c) ==> c == s.winners[h]
    decreases |after|
  {
    hide Step, Disjoint, CountInv;
    var s := Run(verify, before + after);
    if after == [] {
      assert before + after == before;
    } else {
      var n := |after| - 1;
      ClaimedAtMostOnce(verify, before, after[..n], h);
      assert (before + after)[..|before + after| - 1] == before + after[..n];
      RunIsSafe(verify, before + after[..n]);
      WinnersStay(Run(verify, before + after[..n]), verify, after[n], h);
    }
    RunIsSafe(verify, before + after);
    assert h in s.hosts && HostInv(s, h);
    forall c | c in s.clients && Won(s, h, c) ensures c == s.winners[h] {
      assert ClientInv(s, verify, c);
    }
  }

  /** The peer a host is given is the client that took its entry, the client asked for a route this
      host registered, and its proof was verified under the key registered for that route. */
  lemma PeersAreProven(verify: Verifier, actions: seq<Action>, h: ConnectionId)
    requires var s := Run(verify, actions); h in s.hosts && s.hosts[h].peer.Some?
    ensures var s := Run(verify, actions);
            var c := s.hosts[h].peer.value;
            && h in s.winners && s.winners[h] == c && c in s.clients && s.clients[c].phase.Sent?
            && s.clients[c].phase.host == h
            && s.clients[c].route in s.hosts[h].routes
            && verify(s.hosts[h].routes[s.clients[c].route], c, s.clients[c].route, s.clients[c].proof)
  {
    hide Run, Disjoint, CountInv;
    RunIsSafe(verify, actions);
    var s := Run(verify, actions);
    assert HostInv(s, h);
    assert ClientInv(s, verify, s.hosts[h].peer.value);
  }

  /** A winner's send always finds room in the one-place channel. */
  lemma SendNeverBlocks(verify: Verifier, actions: seq<Action>, c: ConnectionId)
    ensures !SendBlocks(Run(verify, actions), c)
  {
    hide Run, SendBlocks;
    RunIsSafe(verify, actions);
    SendsSafely(Run(verify, actions), verify, c);
  }

  /** Dropping a guard removes at most the entry that its own connection registered. */
  lemma GuardRemovesOwnEntry(verify: Verifier, actions: seq<Action>, h: ConnectionId)
    ensures var s := Run(verify, actions);
            var s' := Step(s, verify, DropGuard(h));
            && (forall k :: k != h ==> (k in s'.waiting <==> k in s.waiting))
            && (forall k :: k in s'.waiting ==> k in s.waiting && s'.waiting[k] == s.waiting[k])
            && (h in s.waiting && h !in s'.waiting ==> s.waiting[h] == s.hosts[h].routes && s.hosts[h].guarded)
            && s'.winners == s.winners && s'.clients == s.clients
  {
    hide Run, Safe, Disjoint, CountInv, ClientInv, Without;
    RunIsSafe(verify, actions);
    var s := Run(verify, actions);
    SafeParts(s, verify, h, h);
    RemoveKeepsTable(s.waiting, h);
  }

  // ---------- What is answered ----------

  /** A registration is refused exactly when seventeen hosts wait, or one of its routes is waiting already;
      otherwise the host waits under its routes. */
  lemma RegistrationsAreAnswered(waiting: Table, host: ConnectionId, routes: Routes)
    ensures var (after, r) := Register(waiting, host, routes);
            var taken := exists h, route :: h in waiting && route in routes && route in waiting[h];
            && (r == TableFull <==> |waiting| >= 17)
            && (r == RouteTaken <==> |waiting| < 17 && taken)
            && (r == Registered <==> |waiting| < 17 && !taken)
            && after == if r == Registered then waiting[host := routes] else waiting
  {
    forall h, route | h in waiting && route in routes && route in waiting[h] ensures RoutesOverlap(waiting, routes) {
      assert Takes(waiting, route);
    }
    if RoutesOverlap(waiting, routes) {
      var route :| route in routes && Takes(waiting, route);
      var h :| h in waiting && route in waiting[h];
    }
  }

  /** A client whose proof verifies under the key of a waiting host, and that nobody overtakes, becomes that
      host's peer. */
  lemma ProvenClientsAreMatched(s: State, verify: Verifier, c: ConnectionId, h: ConnectionId)
    requires Safe(s, verify) && c in s.clients && s.clients[c].phase == Hello
    requires h in s.waiting && s.clients[c].route in s.waiting[h]
    requires var w := s.clients[c]; verify(s.waiting[h][w.route], c, w.route, w.proof)
    ensures var key := s.waiting[h][s.clients[c].route];
            var found := LooksRouteUp(s, c, Found(h, key));
            var claimed := TakesEntry(ChecksProof(found, verify, c), c);
            var matched := ReceivesStream(SendsStream(claimed, c), h);
            && h in matched.hosts && matched.hosts[h].peer == Some(c) && h !in matched.waiting
            && h in matched.winners && matched.winners[h] == c
  {
    hide Safe, Disjoint, CountInv, Without;
    SafeParts(s, verify, c, h);
    var key := s.waiting[h][s.clients[c].route];
    var checked := ChecksProof(LooksRouteUp(s, c, Found(h, key)), verify, c);
    assert checked.clients[c].phase == Proven(h, key) && checked.waiting == s.waiting && checked.hosts == s.hosts;
    RemoveKeepsTable(s.waiting, h);
    var claimed := TakesEntry(checked, c);
    assert claimed.clients[c].phase == Claimed(h, key) && claimed.hosts == s.hosts && h !in claimed.waiting;
    var sent := SendsStream(claimed, c);
    assert sent.hosts[h].inbox == [] + [c] == [c];
  }

  /** One whose proof does not verify is rejected, and the host goes on waiting. */
  lemma UnprovenClientsAreRejected(s: State, verify: Verifier, c: ConnectionId, h: ConnectionId)
    requires c in s.clients && s.clients[c].phase == Hello && h in s.waiting && s.clients[c].route in s.waiting[h]
    requires var w := s.clients[c]; !verify(s.waiting[h][w.route], c, w.route, w.proof)
    ensures var checked := ChecksProof(LooksRouteUp(s, c, Found(h, s.waiting[h][s.clients[c].route])), verify, c);
            checked.clients[c].phase == Rejected && checked.waiting == s.waiting && checked.hosts == s.hosts
  {
  }
}
