/**
  Starting and restarting rollout engines: port allocation (`miles/ray/rollout.py`,
  `miles/utils/misc.py`) and the kills of the health monitor (`miles/utils/health_monitor.py`).

  Ranks are numbered within a server; a group owns the ranks from its offset on.  Which ports are free on the
  machine that is asked, from one call to the next, is decided by an oracle.
 */
module Engines {
  import opened Arith
  import opened Options

  // ---------------------------------------------------------------- get_free_port

  ghost predicate AllFree(free: nat -> bool, port: nat, consecutive: nat) {
    forall i :: port <= i < port + consecutive ==> free(i)
  }

  method RunIsFree(free: nat -> bool, port: nat, consecutive: nat) returns (ok: bool)
    ensures ok <==> AllFree(free, port, consecutive)
  {
    for i := 0 to consecutive
      invariant forall j :: port <= j < port + i ==> free(j)
    {
      if !free(port + i) { return false; }
    }
    ok := true;
  }

  /** `get_free_port`: the first run of free ports at or above the start; `limit` is one that exists. */
  method GetFreePort(free: nat -> bool, startPort: nat, consecutive: nat, ghost limit: nat) returns (port: nat)
    requires startPort <= limit && AllFree(free, limit, consecutive)
    ensures startPort <= port && AllFree(free, port, consecutive)
    ensures forall p :: startPort <= p < port ==> !AllFree(free, p, consecutive)
  {
    port := startPort;
    var ok := RunIsFree(free, port, consecutive);
    while !ok
      invariant startPort <= port <= limit && (ok <==> AllFree(free, port, consecutive))
      invariant forall p :: startPort <= p < port ==> !AllFree(free, p, consecutive)
      decreases limit - port, !ok
    {
      port := port + 1;
      ok := RunIsFree(free, port, consecutive);
    }
  }

  // ---------------------------------------------------------------- grants

  datatype Role = Server | Nccl | Bootstrap | Disaggregation | DistInit

  /** An interval of ports handed out on a node index, for a rank and a purpose. */
  datatype Grant = Grant(node: nat, lo: nat, len: nat, rank: nat, role: Role)

  /** What every rank is told, by purpose. */
  type Table = map<(nat, Role), Grant>

  /** Later grants on the same node lie above earlier ones. */
  ghost predicate Ordered(grants: seq<Grant>) {
    forall i, j :: 0 <= i < j < |grants| && grants[i].node == grants[j].node ==>
        grants[i].lo + grants[i].len <= grants[j].lo
  }

  /** Two different grants on the same node index share no port. */
  lemma GrantsDisjoint(grants: seq<Grant>, a: Grant, b: Grant, p: nat)
    requires Ordered(grants) && a in grants && b in grants && a != b && a.node == b.node
    ensures !(a.lo <= p < a.lo + a.len && b.lo <= p < b.lo + b.len)
  {
    var i :| 0 <= i < |grants| && grants[i] == a;
    var j :| 0 <= j < |grants| && grants[j] == b;
    if i < j {
      assert grants[i].lo + grants[i].len <= grants[j].lo;
    } else {
      assert grants[j].lo + grants[j].len <= grants[i].lo;
    }
  }

  /** Which ports are free at a call. */
  type Ports = (nat, nat) -> bool

  function FreeAt(free: Ports, call: nat): nat -> bool { (port: nat) => free(call, port) }

  /** At every call there are free runs of every length, however high the start. */
  ghost predicate NeverFull(free: Ports) {
    forall call: nat, start: nat, consecutive: nat :: HasRun(free, call, start, consecutive)
  }

  ghost predicate HasRun(free: Ports, call: nat, start: nat, consecutive: nat) {
    exists limit: nat :: start <= limit && AllFree(FreeAt(free, call), limit, consecutive)
  }

  /** An interval that is free at this call, and the first such run of its length from `start` on. */
  ghost predicate FirstFree(free: Ports, call: nat, start: nat, g: Grant) {
    && start <= g.lo && AllFree(FreeAt(free, call), g.lo, g.len)
    && forall p :: start <= p < g.lo ==> !AllFree(FreeAt(free, call), p, g.len)
  }

  /** Where asking goes on after these grants: above the last one on the node index, or at the base. */
  ghost function CursorOn(grants: seq<Grant>, node: nat, basePort: nat): nat {
    if grants == [] then basePort else
      var last := grants[|grants| - 1];
      if last.node == node then last.lo + last.len else CursorOn(grants[..|grants| - 1], node, basePort)
  }

  /** Every interval was free when it was asked for, and the first one that was from the cursor on. */
  ghost predicate Asked(free: Ports, basePort: nat, grants: seq<Grant>) {
    forall i: nat :: i < |grants| ==> AskedAt(free, basePort, grants, i)
  }

  ghost predicate AskedAt(free: Ports, basePort: nat, grants: seq<Grant>, i: nat)
    requires i < |grants|
  {
    FirstFree(free, i, CursorOn(grants[..i], grants[i].node, basePort), grants[i])
  }

  lemma AskedOneMore(free: Ports, basePort: nat, grants: seq<Grant>, g: Grant)
    requires Asked(free, basePort, grants)
    requires FirstFree(free, |grants|, CursorOn(grants, g.node, basePort), g)
    ensures Asked(free, basePort, grants + [g])
  {
    forall i: nat | i < |grants| + 1 ensures AskedAt(free, basePort, grants + [g], i) {
      assert (grants + [g])[..i] == grants[..i];
      if i < |grants| { assert AskedAt(free, basePort, grants, i); } else { assert grants[..i] == grants; }
    }
  }

  /** The cursors are where asking goes on. */
  ghost predicate CursorsOf(cursors: map<nat, nat>, grants: seq<Grant>, basePort: nat) {
    forall node: nat :: CursorOn(grants, node, basePort) == if node in cursors then cursors[node] else basePort
  }

  lemma CursorsMove(cursors: map<nat, nat>, grants: seq<Grant>, basePort: nat, g: Grant)
    requires CursorsOf(cursors, grants, basePort)
    ensures CursorsOf(cursors[g.node := g.lo + g.len], grants + [g], basePort)
  {
    assert (grants + [g])[..|grants|] == grants;
  }

  /** Where a start begins to ask: at the highest cursor of the starts before it, or at 15000. */
  ghost predicate IsBase(cursors: map<nat, nat>, basePort: nat) {
    if cursors == map[] then basePort == 15000
    else basePort in cursors.Values && forall node :: node in cursors ==> cursors[node] <= basePort
  }

  ghost predicate Handed(free: Ports, cursors: map<nat, nat>, grants: seq<Grant>) {
    exists basePort | IsBase(cursors, basePort) :: Asked(free, basePort, grants)
  }

  /** Cursors lie above everything handed out on their node, and above the base. */
  ghost predicate Booked(basePort: nat, cursors: map<nat, nat>, grants: seq<Grant>) {
    && Ordered(grants)
    && (forall g :: g in grants ==>
          g.node in cursors && basePort <= g.lo && g.len > 0 && g.lo + g.len <= cursors[g.node])
    && (forall node :: node in cursors ==> cursors[node] > basePort)
  }

  predicate Told(table: Table, rank: nat, role: Role) {
    (rank, role) in table
  }

  /** An entry is a grant made for that purpose, and but for a shared rendezvous address for that rank. */
  ghost predicate TableOk(table: Table, grants: seq<Grant>) {
    forall rank: nat, role :: Told(table, rank, role) ==>
      && table[(rank, role)] in grants && table[(rank, role)].role == role && table[(rank, role)].rank <= rank
      && (role != DistInit ==> table[(rank, role)].rank == rank)
  }

  /** What every engine process needs for itself. */
  predicate Own(role: Role, prefill: bool) {
    role != DistInit && (role == Disaggregation ==> prefill)
  }

  /** How many ports in a row each purpose gets. */
  function Width(role: Role, dpSize: nat): nat {
    if role == DistInit then 30 + dpSize else 1
  }

  ghost predicate Sized(grants: seq<Grant>, dpSize: nat) {
    forall g :: g in grants ==> g.len == Width(g.role, dpSize)
  }

  /** Every grant is booked on the node index of its rank. */
  ghost predicate Placed(grants: seq<Grant>, offset: nat, perNode: nat) {
    perNode > 0 && forall g :: g in grants ==> OnNode(g.rank, g.node, offset, perNode)
  }

  ghost predicate OnNode(rank: nat, node: nat, offset: nat, perNode: nat)
    requires perNode > 0
  {
    rank >= offset && node == NodeOf(rank, offset, perNode)
  }

  lemma BookedOneMore(basePort: nat, cursors: map<nat, nat>, grants: seq<Grant>, g: Grant)
    requires Booked(basePort, cursors, grants) && g.len > 0
    requires g.lo >= if g.node in cursors then cursors[g.node] else basePort
    ensures Booked(basePort, cursors[g.node := g.lo + g.len], grants + [g])
  {
    forall h | h in grants + [g] ensures h in grants || h == g {}
    forall i | 0 <= i < |grants| ensures grants[i] in grants {}
  }

  lemma TableOneMore(table: Table, grants: seq<Grant>, g: Grant)
    requires TableOk(table, grants)
    ensures TableOk(table[(g.rank, g.role) := g], grants + [g])
  {
  }

  lemma PlacedOneMore(grants: seq<Grant>, dpSize: nat, offset: nat, perNode: nat, g: Grant)
    requires Sized(grants, dpSize) && Placed(grants, offset, perNode)
    requires g.len == Width(g.role, dpSize) && OnNode(g.rank, g.node, offset, perNode)
    ensures Sized(grants + [g], dpSize) && Placed(grants + [g], offset, perNode)
  {
  }

  /** What an allocation has booked so far is in order. */
  ghost predicate BookOk(free: Ports, basePort: nat, dpSize: nat, offset: nat, perNode: nat, cursors: map<nat, nat>,
                         grants: seq<Grant>, table: Table)
  {
    && Booked(basePort, cursors, grants) && TableOk(table, grants)
    && CursorsOf(cursors, grants, basePort) && Asked(free, basePort, grants)
    && Sized(grants, dpSize) && Placed(grants, offset, perNode)
  }

  lemma BookOneMore(free: Ports, basePort: nat, dpSize: nat, offset: nat, perNode: nat, cursors: map<nat, nat>,
                    grants: seq<Grant>, table: Table, g: Grant)
    requires BookOk(free, basePort, dpSize, offset, perNode, cursors, grants, table) && g.len == Width(g.role, dpSize)
    requires OnNode(g.rank, g.node, offset, perNode)
    requires FirstFree(free, |grants|, if g.node in cursors then cursors[g.node] else basePort, g)
    ensures BookOk(free, basePort, dpSize, offset, perNode, cursors[g.node := g.lo + g.len], grants + [g],
                   table[(g.rank, g.role) := g])
  {
    AskedOneMore(free, basePort, grants, g);
    CursorsMove(cursors, grants, basePort, g);
    BookedOneMore(basePort, cursors, grants, g);
    TableOneMore(table, grants, g);
    PlacedOneMore(grants, dpSize, offset, perNode, g);
  }

  /** The question for a run of ports on the machine of an engine. */
  method Ask(free: Ports, call: nat, start: nat, node: nat, rank: nat, role: Role, consecutive: nat)
    returns (g: Grant)
    requires NeverFull(free)
    ensures g.node == node && g.rank == rank && g.role == role && g.len == consecutive
    ensures FirstFree(free, call, start, g)
  {
    assert HasRun(free, call, start, consecutive);
    ghost var limit: nat :| start <= limit && AllFree(FreeAt(free, call), limit, consecutive);
    var port := GetFreePort(FreeAt(free, call), start, consecutive, limit);
    g := Grant(node, port, consecutive, rank, role);
  }

  /** For whom and what for, in the order in which ports were asked for. */
  ghost function Keys(grants: seq<Grant>): (keys: seq<(nat, Role)>)
    ensures |keys| == |grants|
  {
    seq(|grants|, i requires 0 <= i < |grants| => (grants[i].rank, grants[i].role))
  }

  lemma KeysOn(grants: seq<Grant>, g: Grant)
    ensures Keys(grants + [g]) == Keys(grants) + [(g.rank, g.role)]
  {
  }

  /** The dictionaries one allocation fills: cursors per node index, what was handed out, what each rank is told. */
  class PortAllocator {
    const basePort: nat
    const free: Ports
    const dpSize: nat
    const offset: nat
    const perNode: nat
    var cursors: map<nat, nat>
    var grants: seq<Grant>
    var table: Table
    var calls: nat

    ghost predicate Valid()
      reads this
    {
      NeverFull(free) && calls == |grants|
      && BookOk(free, basePort, dpSize, offset, perNode, cursors, grants, table)
    }

    constructor (basePort: nat, free: Ports, dpSize: nat, offset: nat, perNode: nat)
      requires NeverFull(free) && perNode > 0
      ensures Valid() && grants == [] && cursors == map[] && table == map[]
      ensures this.basePort == basePort && this.free == free && this.dpSize == dpSize
      ensures this.offset == offset && this.perNode == perNode
    {
      this.basePort, this.free, this.dpSize := basePort, free, dpSize;
      this.offset, this.perNode := offset, perNode;
      cursors, grants, table, calls := map[], [], map[], 0;
    }

    /** The inner `port(consecutive)`, whose result is stored under a rank and a purpose. */
    method Assign(node: nat, rank: nat, role: Role, consecutive: nat) returns (g: Grant)
      requires Valid() && consecutive == Width(role, dpSize) && OnNode(rank, node, offset, perNode)
      modifies this
      ensures Valid() && grants == old(grants) + [g] && table == old(table)[(rank, role) := g]
      ensures g.node == node && g.rank == rank && g.role == role && g.len == consecutive
      ensures FirstFree(free, |old(grants)|, if node in old(cursors) then old(cursors)[node] else basePort, g)
      ensures Keys(grants) == Keys(old(grants)) + [(rank, role)]
    {
      var start := if node in cursors then cursors[node] else basePort;
      g := Ask(free, calls, start, node, rank, role, consecutive);
      BookOneMore(free, basePort, dpSize, offset, perNode, cursors, grants, table, g);
      KeysOn(grants, g);
      calls := calls + 1;
      cursors := cursors[node := g.lo + g.len];
      grants := grants + [g];
      table := table[(rank, role) := g];
    }

    /** Tells a rank the rendezvous address of a rank at or below it. */
    method Share(rank: nat, head: nat)
      requires Valid() && Meeting(table, head) == Some(head) && head <= rank
      modifies this`table
      ensures grants == old(grants)
      ensures Valid() && table == old(table)[(rank, DistInit) := old(table)[(head, DistInit)]]
      ensures forall r: nat :: Meeting(table, r) == if r == rank then Some(head) else Meeting(old(table), r)
    {
      table := table[(rank, DistInit) := table[(head, DistInit)]];
    }
  }

  /** The rank whose rendezvous address a rank was told. */
  function Meeting(table: Table, rank: nat): Option<nat> {
    if Told(table, rank, DistInit) then Some(table[(rank, DistInit)].rank) else None
  }

  /** Nothing a rank was told is withdrawn. */
  ghost predicate Grows(table: Table, table': Table) {
    forall rank: nat, role :: Told(table, rank, role) ==> Told(table', rank, role)
  }

  // ---------------------------------------------------------------- one node

  function OwnRoles(prefill: bool): seq<Role> {
    [Server, Nccl, Bootstrap] + if prefill then [Disaggregation] else []
  }

  lemma KeysJoin(a: seq<(nat, Role)>, b: seq<(nat, Role)>, c: seq<(nat, Role)>, bc: seq<(nat, Role)>)
    requires bc == b + c
    ensures a + b + c == a + bc
  {
  }

  ghost function RankKeys(rank: nat, roles: seq<Role>): seq<(nat, Role)> {
    seq(|roles|, i requires 0 <= i < |roles| => (rank, roles[i]))
  }

  lemma RankKeysOn(rank: nat, roles: seq<Role>, i: nat)
    requires i < |roles|
    ensures RankKeys(rank, roles[..i + 1]) == RankKeys(rank, roles[..i]) + [(rank, roles[i])]
  {
  }

  ghost function NodeKeys(rank: nat, n: nat, prefill: bool): seq<(nat, Role)> {
    if n == 0 then [] else NodeKeys(rank, n - 1, prefill) + RankKeys(rank + n - 1, OwnRoles(prefill))
  }

  lemma MeetingKeysOn(rank: nat, i: nat)
    ensures MeetingKeys(rank, i + 1) == MeetingKeys(rank, i) + [(rank + i, DistInit)]
  {
  }

  ghost function MeetingKeys(rank: nat, n: nat): seq<(nat, Role)> {
    seq(n, i requires 0 <= i < n => (rank + i, DistInit))
  }

  /** The ports a process needs for itself, in the order in which they are asked for. */
  method ServerPorts(alloc: PortAllocator, node: nat, rank: nat, prefill: bool)
    requires alloc.Valid() && OnNode(rank, node, alloc.offset, alloc.perNode)
    modifies alloc
    ensures alloc.Valid() && Grows(old(alloc.table), alloc.table) && alloc.grants != []
    ensures Keys(alloc.grants) == Keys(old(alloc.grants)) + RankKeys(rank, OwnRoles(prefill))
    ensures forall role :: Own(role, prefill) ==> Told(alloc.table, rank, role)
    ensures forall r: nat :: Meeting(alloc.table, r) == Meeting(old(alloc.table), r)
  {
    var roles := OwnRoles(prefill);
    for i := 0 to |roles|
      invariant alloc.Valid() && Grows(old(alloc.table), alloc.table)
      invariant Keys(alloc.grants) == Keys(old(alloc.grants)) + RankKeys(rank, roles[..i])
      invariant forall j :: 0 <= j < i ==> Told(alloc.table, rank, roles[j])
      invariant i > 0 ==> alloc.grants != []
      invariant forall r: nat :: Meeting(alloc.table, r) == Meeting(old(alloc.table), r)
    {
      var _ := alloc.Assign(node, rank, roles[i], 1);
      RankKeysOn(rank, roles, i);
      KeysJoin(Keys(old(alloc.grants)), RankKeys(rank, roles[..i]), [(rank, roles[i])], RankKeys(rank, roles[..i + 1]));
    }
    assert roles[..|roles|] == roles;
    RolesAreOwn(prefill);
  }

  lemma {:induction false} RolesAreOwn(prefill: bool)
    ensures |OwnRoles(prefill)| > 0
    ensures forall role :: Own(role, prefill) ==> role in OwnRoles(prefill)
  {
    var roles := OwnRoles(prefill);
    assert roles[0] == Server && roles[1] == Nccl && roles[2] == Bootstrap;
    assert prefill ==> roles[3] == Disaggregation;
  }

  /** This rank and the following ones, so many in all, are on this node index. */
  ghost predicate AllOnNode(rank: nat, n: nat, node: nat, offset: nat, perNode: nat)
    requires perNode > 0
  {
    forall r: nat :: rank <= r < rank + n ==> OnNode(r, node, offset, perNode)
  }

  method FillNode(alloc: PortAllocator, node: nat, rank: nat, n: nat, prefill: bool)
    requires alloc.Valid() && AllOnNode(rank, n, node, alloc.offset, alloc.perNode)
    modifies alloc
    ensures alloc.Valid() && Grows(old(alloc.table), alloc.table) && (n > 0 ==> alloc.grants != [])
    ensures Keys(alloc.grants) == Keys(old(alloc.grants)) + NodeKeys(rank, n, prefill)
    ensures forall r: nat, role :: rank <= r < rank + n && Own(role, prefill) ==> Told(alloc.table, r, role)
    ensures forall r: nat :: Meeting(alloc.table, r) == Meeting(old(alloc.table), r)
  {
    for i := 0 to n
      invariant alloc.Valid() && Grows(old(alloc.table), alloc.table) && (i > 0 ==> alloc.grants != [])
      invariant Keys(alloc.grants) == Keys(old(alloc.grants)) + NodeKeys(rank, i, prefill)
      invariant forall r: nat, role :: rank <= r < rank + i && Own(role, prefill) ==> Told(alloc.table, r, role)
      invariant forall r: nat :: Meeting(alloc.table, r) == Meeting(old(alloc.table), r)
    {
      ServerPorts(alloc, node, rank + i, prefill);
      KeysJoin(Keys(old(alloc.grants)), NodeKeys(rank, i, prefill), RankKeys(rank + i, OwnRoles(prefill)),
               NodeKeys(rank, i + 1, prefill));
    }
  }

  /** A rendezvous range for a rank. */
  method AssignMeeting(alloc: PortAllocator, node: nat, rank: nat)
    requires alloc.Valid() && OnNode(rank, node, alloc.offset, alloc.perNode)
    modifies alloc
    ensures alloc.Valid() && Grows(old(alloc.table), alloc.table) && old(alloc.grants) <= alloc.grants
    ensures Keys(alloc.grants) == Keys(old(alloc.grants)) + [(rank, DistInit)]
    ensures forall r: nat :: Meeting(alloc.table, r) == if r == rank then Some(rank) else Meeting(old(alloc.table), r)
  {
    var _ := alloc.Assign(node, rank, DistInit, 30 + alloc.dpSize);
  }

  /** Single-node engines: an own rendezvous range for every rank up to the end of the node. */
  method FillDistInit(alloc: PortAllocator, node: nat, rank: nat, n: nat)
    requires alloc.Valid() && AllOnNode(rank, n, node, alloc.offset, alloc.perNode)
    modifies alloc
    ensures alloc.Valid() && Grows(old(alloc.table), alloc.table) && old(alloc.grants) <= alloc.grants
    ensures Keys(alloc.grants) == Keys(old(alloc.grants)) + MeetingKeys(rank, n)
    ensures forall r: nat ::
      Meeting(alloc.table, r) == if rank <= r < rank + n then Some(r) else Meeting(old(alloc.table), r)
  {
    for i := 0 to n
      invariant alloc.Valid() && Grows(old(alloc.table), alloc.table) && old(alloc.grants) <= alloc.grants
      invariant Keys(alloc.grants) == Keys(old(alloc.grants)) + MeetingKeys(rank, i)
      invariant forall r: nat ::
        Meeting(alloc.table, r) == if rank <= r < rank + i then Some(r) else Meeting(old(alloc.table), r)
    {
      AssignMeeting(alloc, node, rank + i);
      MeetingKeysOn(rank, i);
      KeysJoin(Keys(old(alloc.grants)), MeetingKeys(rank, i), [(rank + i, DistInit)], MeetingKeys(rank, i + 1));
    }
  }

  /** Multi-node engines: one rendezvous range on the head, told to all its nodes. */
  method ShareDistInit(alloc: PortAllocator, node: nat, rank: nat, nodes: nat)
    requires alloc.Valid() && nodes > 0 && OnNode(rank, node, alloc.offset, alloc.perNode)
    modifies alloc
    ensures alloc.Valid() && Grows(old(alloc.table), alloc.table) && old(alloc.grants) <= alloc.grants
    ensures Keys(alloc.grants) == Keys(old(alloc.grants)) + [(rank, DistInit)]
    ensures forall r: nat ::
      Meeting(alloc.table, r) == if rank <= r < rank + nodes then Some(rank) else Meeting(old(alloc.table), r)
  {
    AssignMeeting(alloc, node, rank);
    for i := 1 to nodes
      invariant alloc.Valid() && Grows(old(alloc.table), alloc.table) && old(alloc.grants) <= alloc.grants
      invariant Keys(alloc.grants) == Keys(old(alloc.grants)) + [(rank, DistInit)]
      invariant forall r: nat ::
        Meeting(alloc.table, r) == if rank <= r < rank + i then Some(rank) else Meeting(old(alloc.table), r)
    {
      alloc.Share(rank + i, rank);
    }
  }

  // ---------------------------------------------------------------- one allocation

  datatype Topology = Topology(gpusPerEngine: nat, gpusPerNode: nat) {
    ghost predicate Valid() { gpusPerEngine > 0 && gpusPerNode > 0 }

    predicate MultiNode() { gpusPerEngine > gpusPerNode }

    function EnginesPerNode(): (n: nat)
      requires Valid()
      ensures n > 0
      ensures MultiNode() ==> n == 1
    {
      assert MultiNode() ==> gpusPerNode / gpusPerEngine == 0 by {
        if MultiNode() { SmallQuotient(gpusPerNode, gpusPerEngine); }
      }
      Max(1, gpusPerNode / gpusPerEngine)
    }

    /** `num_gpu_per_engine_local`, the GPUs of one process of an engine */
    function GpusPerProcess(): (n: nat)
      requires Valid()
      ensures n > 0
    {
      Min(gpusPerEngine, gpusPerNode)
    }

    /** `nodes_per_engine` */
    function NodesPerEngine(): (n: nat)
      requires Valid()
      ensures n > 0
    {
      Max(1, gpusPerEngine / gpusPerNode)
    }
  }

  lemma SmallQuotient(a: nat, b: nat)
    requires a < b
    ensures a / b == 0
  {
  }

  /** The rank of the node-0 process of the engine a rank belongs to. */
  function Head(rank: nat, offset: nat, nodes: nat): nat
    requires nodes > 0 && rank >= offset
  {
    rank - (rank - offset) % nodes
  }

  ghost predicate AscendingFrom(ranks: seq<nat>, offset: nat) {
    && (forall i :: 0 <= i < |ranks| ==> offset <= ranks[i])
    && forall i, j :: 0 <= i < j < |ranks| ==> ranks[i] < ranks[j]
  }

  /** For multi-node engines: with a rank also the head of its engine is among the ranks. */
  ghost predicate HeadsPresent(ranks: seq<nat>, topo: Topology, offset: nat)
    requires topo.Valid() && AscendingFrom(ranks, offset)
  {
    topo.MultiNode() ==> forall i :: 0 <= i < |ranks| ==> Head(ranks[i], offset, topo.NodesPerEngine()) in ranks
  }

  function NodeOf(rank: nat, offset: nat, perNode: nat): nat
    requires perNode > 0 && rank >= offset
  {
    (rank - offset) / perNode
  }

  /** How many ranks of the node lie at or after this one. */
  function Remaining(rank: nat, offset: nat, perNode: nat): nat
    requires perNode > 0 && rank >= offset
  {
    perNode - (rank - offset) % perNode
  }

  /** From a rank to the end of its node is exactly the ranks at or above it with the same node index. */
  lemma {:induction false} NodeSlots(rank: nat, other: nat, offset: nat, perNode: nat)
    requires perNode > 0 && offset <= rank <= other
    ensures NodeOf(rank, offset, perNode) == NodeOf(other, offset, perNode)
      <==> other < rank + Remaining(rank, offset, perNode)
  {
    SameBlock(rank - offset, other - offset, perNode);
  }

  lemma {:induction false} RestOfNode(rank: nat, offset: nat, perNode: nat)
    requires perNode > 0 && offset <= rank
    ensures Remaining(rank, offset, perNode) > 0
    ensures AllOnNode(rank, Remaining(rank, offset, perNode), NodeOf(rank, offset, perNode), offset, perNode)
  {
    forall r: nat | rank <= r < rank + Remaining(rank, offset, perNode)
      ensures OnNode(r, NodeOf(rank, offset, perNode), offset, perNode)
    {
      NodeSlots(rank, r, offset, perNode);
    }
  }

  /** Where the engine of a rank begins; and the ranks that share one head. */
  lemma {:induction false} HeadRange(rank: nat, head: nat, offset: nat, nodes: nat)
    requires nodes > 0 && offset <= rank && offset <= head && (head - offset) % nodes == 0
    ensures Head(rank, offset, nodes) == head <==> head <= rank < head + nodes
  {
    FloorUnique(rank - offset, head - offset, nodes);
  }

  lemma {:induction false} HeadOfHead(rank: nat, offset: nat, nodes: nat)
    requires nodes > 0 && offset <= rank
    ensures offset <= Head(rank, offset, nodes) <= rank
    ensures (Head(rank, offset, nodes) - offset) % nodes == 0
  {
    FloorMultiple(rank - offset, nodes);
  }

  predicate InRestOfNode(r: nat, rank: nat, offset: nat, topo: Topology)
    requires topo.Valid() && offset <= rank
  {
    rank <= r < rank + Remaining(rank, offset, topo.EnginesPerNode())
  }

  /** What visiting a node at `rank` makes of the rendezvous address of `r`. */
  function MeetingAfter(before: Option<nat>, r: nat, rank: nat, offset: nat, topo: Topology): Option<nat>
    requires topo.Valid() && offset <= rank
  {
    if topo.MultiNode() then
      if Head(rank, offset, topo.NodesPerEngine()) == rank && rank <= r < rank + topo.NodesPerEngine()
      then Some(rank) else before
    else
      if InRestOfNode(r, rank, offset, topo) then Some(r) else before
  }

  /** What is asked for when a node is visited at this rank. */
  ghost function VisitKeys(topo: Topology, offset: nat, rank: nat, prefill: bool): seq<(nat, Role)>
    requires topo.Valid() && offset <= rank
  {
    var n := Remaining(rank, offset, topo.EnginesPerNode());
    NodeKeys(rank, n, prefill)
    + if topo.MultiNode() then if Head(rank, offset, topo.NodesPerEngine()) == rank then [(rank, DistInit)] else []
      else MeetingKeys(rank, n)
  }

  /** Whether some rank of the list is on this node index. */
  ghost predicate NodeAmong(ranks: seq<nat>, node: nat, topo: Topology, offset: nat)
    requires topo.Valid() && AscendingFrom(ranks, offset)
  {
    exists i :: 0 <= i < |ranks| && NodeOf(ranks[i], offset, topo.EnginesPerNode()) == node
  }

  /** What is asked for in a whole allocation: every node is visited once, at its first rank in the list. */
  ghost function AllKeys(ranks: seq<nat>, topo: Topology, offset: nat, prefill: bool): seq<(nat, Role)>
    requires topo.Valid() && AscendingFrom(ranks, offset)
  {
    if ranks == [] then [] else
      var before, rank := ranks[..|ranks| - 1], ranks[|ranks| - 1];
      AllKeys(before, topo, offset, prefill)
      + if NodeAmong(before, NodeOf(rank, offset, topo.EnginesPerNode()), topo, offset) then []
        else VisitKeys(topo, offset, rank, prefill)
  }

  lemma AllKeysOn(ranks: seq<nat>, topo: Topology, offset: nat, prefill: bool, i: nat)
    requires topo.Valid() && AscendingFrom(ranks, offset) && i < |ranks|
    ensures AllKeys(ranks[..i + 1], topo, offset, prefill) == AllKeys(ranks[..i], topo, offset, prefill)
         + if NodeAmong(ranks[..i], NodeOf(ranks[i], offset, topo.EnginesPerNode()), topo, offset) then []
           else VisitKeys(topo, offset, ranks[i], prefill)
  {
    assert ranks[..i + 1][..i] == ranks[..i];
  }

  /** The visited nodes are those of the ranks so far. */
  ghost predicate VisitedAre(visited: set<nat>, ranks: seq<nat>, topo: Topology, offset: nat)
    requires topo.Valid() && AscendingFrom(ranks, offset)
  {
    forall node: nat :: node in visited <==> NodeAmong(ranks, node, topo, offset)
  }

  lemma VisitedOn(visited: set<nat>, ranks: seq<nat>, topo: Topology, offset: nat, i: nat)
    requires topo.Valid() && AscendingFrom(ranks, offset) && i < |ranks|
    requires VisitedAre(visited, ranks[..i], topo, offset)
    ensures VisitedAre(visited + {NodeOf(ranks[i], offset, topo.EnginesPerNode())}, ranks[..i + 1], topo, offset)
  {
    var before, now := ranks[..i], ranks[..i + 1];
    var perNode := topo.EnginesPerNode();
    forall node: nat
      ensures NodeAmong(now, node, topo, offset)
         <==> NodeAmong(before, node, topo, offset) || node == NodeOf(ranks[i], offset, perNode)
    {
      if NodeAmong(before, node, topo, offset) {
        var j :| 0 <= j < |before| && NodeOf(before[j], offset, perNode) == node;
        assert now[j] == before[j];
      }
      if NodeAmong(now, node, topo, offset) {
        var j :| 0 <= j < |now| && NodeOf(now[j], offset, perNode) == node;
        if j < i { assert before[j] == now[j]; }
      }
      assert now[i] == ranks[i];
    }
  }

  /** The first dead rank found on a node: ports for it and every later rank of the node, and rendezvous addresses. */
  method VisitNode(alloc: PortAllocator, topo: Topology, offset: nat, rank: nat, prefill: bool)
    requires alloc.Valid() && topo.Valid() && offset <= rank
    requires alloc.offset == offset && alloc.perNode == topo.EnginesPerNode()
    modifies alloc
    ensures alloc.Valid() && Grows(old(alloc.table), alloc.table) && alloc.grants != []
    ensures Keys(alloc.grants) == Keys(old(alloc.grants)) + VisitKeys(topo, offset, rank, prefill)
    ensures forall r: nat, role :: InRestOfNode(r, rank, offset, topo) && Own(role, prefill) ==>
        Told(alloc.table, r, role)
    ensures forall r: nat ::
      Meeting(alloc.table, r) == MeetingAfter(Meeting(old(alloc.table), r), r, rank, offset, topo)
  {
    var node := NodeOf(rank, offset, topo.EnginesPerNode());
    var n := Remaining(rank, offset, topo.EnginesPerNode());
    RestOfNode(rank, offset, topo.EnginesPerNode());
    FillNode(alloc, node, rank, n, prefill);
    if topo.MultiNode() {
      if (rank - offset) % topo.NodesPerEngine() == 0 {
        ShareDistInit(alloc, node, rank, topo.NodesPerEngine());
      }
    } else {
      FillDistInit(alloc, node, rank, n);
    }
  }

  /** The rank at which a rank's engine starts up together. */
  function Leader(rank: nat, offset: nat, topo: Topology): nat
    requires topo.Valid() && offset <= rank
  {
    if topo.MultiNode() then Head(rank, offset, topo.NodesPerEngine()) else rank
  }

  predicate Complete(table: Table, rank: nat) {
    Told(table, rank, Server) && Told(table, rank, Nccl) && Told(table, rank, DistInit)
  }

  /** Ranks that are done, and from `floor` on those on a visited node. */
  predicate Reached(r: nat, topo: Topology, offset: nat, visited: set<nat>, done: set<nat>, floor: nat)
    requires topo.Valid() && offset <= floor
  {
    offset <= r && (r in done || (floor <= r && NodeOf(r, offset, topo.EnginesPerNode()) in visited))
  }

  function MeetingOf(r: nat, topo: Topology, offset: nat, done: set<nat>): Option<nat>
    requires topo.Valid() && offset <= r
  {
    var head := Head(r, offset, topo.NodesPerEngine());
    if head in done then Some(head) else None
  }

  ghost predicate Settled(table: Table, topo: Topology, offset: nat, prefill: bool,
                          visited: set<nat>, done: set<nat>, floor: nat)
    requires topo.Valid() && offset <= floor
  {
    && (forall r: nat, role ::
          Reached(r, topo, offset, visited, done, floor) && Own(role, prefill) ==> Told(table, r, role))
    && (!topo.MultiNode() ==>
          forall r: nat :: Reached(r, topo, offset, visited, done, floor) ==> Meeting(table, r) == Some(r))
    && (topo.MultiNode() ==>
          && (forall r: nat :: offset <= r ==> Meeting(table, r) == MeetingOf(r, topo, offset, done))
          && (forall node: nat :: node in visited ==> node + offset < floor))
  }

  /** Skipping a rank whose node was visited. */
  lemma SkipRank(table: Table, topo: Topology, offset: nat, prefill: bool, visited: set<nat>, done: set<nat>,
                 floor: nat, rank: nat)
    requires topo.Valid() && offset <= floor <= rank && NodeOf(rank, offset, topo.EnginesPerNode()) in visited
    requires Settled(table, topo, offset, prefill, visited, done, floor)
    ensures Settled(table, topo, offset, prefill, visited, done + {rank}, rank + 1)
  {
    forall r: nat | Reached(r, topo, offset, visited, done + {rank}, rank + 1)
      ensures Reached(r, topo, offset, visited, done, floor)
    {
    }
    if topo.MultiNode() { assert false; }
  }

  lemma {:induction false} VisitRank(before: Table, after: Table, topo: Topology, offset: nat, prefill: bool,
                                     visited: set<nat>, done: set<nat>, floor: nat, rank: nat)
    requires topo.Valid() && offset <= floor <= rank
    requires Settled(before, topo, offset, prefill, visited, done, floor) && Grows(before, after)
    requires forall r: nat, role :: InRestOfNode(r, rank, offset, topo) && Own(role, prefill) ==> Told(after, r, role)
    requires forall r: nat :: Meeting(after, r) == MeetingAfter(Meeting(before, r), r, rank, offset, topo)
    ensures Settled(after, topo, offset, prefill, visited + {NodeOf(rank, offset, topo.EnginesPerNode())},
                    done + {rank}, rank + 1)
  {
    var perNode := topo.EnginesPerNode();
    var visited' := visited + {NodeOf(rank, offset, perNode)};
    forall r: nat | Reached(r, topo, offset, visited', done + {rank}, rank + 1)
      ensures Reached(r, topo, offset, visited, done, floor) || InRestOfNode(r, rank, offset, topo)
    {
      if rank <= r { NodeSlots(rank, r, offset, perNode); }
    }
    if topo.MultiNode() {
      var nodes := topo.NodesPerEngine();
      forall r: nat | offset <= r ensures Meeting(after, r) == MeetingOf(r, topo, offset, done + {rank}) {
        HeadOfHead(r, offset, nodes);
        HeadOfHead(rank, offset, nodes);
        if Head(rank, offset, nodes) == rank {
          HeadRange(r, rank, offset, nodes);
        }
      }
    }
  }

  ghost function SetOf(ranks: seq<nat>): set<nat> {
    set r | r in ranks
  }

  /**
    `_allocate_rollout_engine_addr_and_ports_normal` for the ranks that are started; `None` is the failing
    assertion at its end.
   */
  method Allocate(ranks: seq<nat>, topo: Topology, offset: nat, basePort: nat, free: Ports,
                  prefill: bool, dpSize: nat)
    returns (alloc: PortAllocator, ok: bool)
    requires topo.Valid() && AscendingFrom(ranks, offset) && NeverFull(free)
    ensures fresh(alloc) && alloc.Valid() && alloc.basePort == basePort && alloc.dpSize == dpSize
    ensures Asked(free, basePort, alloc.grants) && Keys(alloc.grants) == AllKeys(ranks, topo, offset, prefill)
    ensures alloc.offset == offset && alloc.perNode == topo.EnginesPerNode()
    ensures ranks != [] ==> alloc.grants != []
    ensures forall rank, role :: rank in ranks && Own(role, prefill) ==> Told(alloc.table, rank, role)
    ensures ok <==> HeadsPresent(ranks, topo, offset)
    ensures ok ==> forall rank :: rank in ranks ==> Meeting(alloc.table, rank) == Some(Leader(rank, offset, topo))
  {
    alloc := new PortAllocator(basePort, free, dpSize, offset, topo.EnginesPerNode());
    var visited: set<nat> := {};
    ghost var floor := offset;
    for i := 0 to |ranks|
      invariant fresh(alloc) && alloc.basePort == basePort && alloc.dpSize == dpSize && alloc.free == free
      invariant AllocatedTo(alloc, ranks, i, topo, offset, prefill, visited, floor)
    {
      visited, floor := VisitNext(alloc, ranks, i, topo, offset, prefill, visited, floor);
    }
    assert ranks[..|ranks|] == ranks;
    ok := CheckComplete(alloc.table, ranks);
    WhenComplete(alloc.table, ranks, topo, offset, prefill, visited, floor);
  }

  /** How far an allocation has come: the ranks before the i-th are settled, each node visited once. */
  ghost predicate AllocatedTo(alloc: PortAllocator, ranks: seq<nat>, i: nat, topo: Topology, offset: nat, prefill: bool,
                              visited: set<nat>, floor: nat)
    requires topo.Valid() && AscendingFrom(ranks, offset) && i <= |ranks|
    reads alloc
  {
    && alloc.Valid() && alloc.offset == offset && alloc.perNode == topo.EnginesPerNode()
    && (if i > 0 then alloc.grants != [] else visited == {})
    && offset <= floor && (forall j :: i <= j < |ranks| ==> floor <= ranks[j])
    && VisitedAre(visited, ranks[..i], topo, offset)
    && Keys(alloc.grants) == AllKeys(ranks[..i], topo, offset, prefill)
    && Settled(alloc.table, topo, offset, prefill, visited, SetOf(ranks[..i]), floor)
  }

  /** The next rank: its node is visited, unless it was. */
  method VisitNext(alloc: PortAllocator, ranks: seq<nat>, i: nat, topo: Topology, offset: nat, prefill: bool,
                   visited0: set<nat>, ghost floor0: nat)
    returns (visited: set<nat>, ghost floor: nat)
    requires topo.Valid() && AscendingFrom(ranks, offset) && i < |ranks|
    requires AllocatedTo(alloc, ranks, i, topo, offset, prefill, visited0, floor0)
    modifies alloc
    ensures AllocatedTo(alloc, ranks, i + 1, topo, offset, prefill, visited, floor)
  {
    var rank := ranks[i];
    var node := NodeOf(rank, offset, topo.EnginesPerNode());
    visited, floor := visited0 + {node}, rank + 1;
    if node in visited0 {
      SkipNext(alloc, ranks, i, topo, offset, prefill, visited0, floor0);
    } else {
      VisitNew(alloc, ranks, i, topo, offset, prefill, visited0, floor0);
    }
  }

  lemma SkipNext(alloc: PortAllocator, ranks: seq<nat>, i: nat, topo: Topology, offset: nat, prefill: bool,
                 visited: set<nat>, floor: nat)
    requires topo.Valid() && AscendingFrom(ranks, offset) && i < |ranks|
    requires AllocatedTo(alloc, ranks, i, topo, offset, prefill, visited, floor)
    requires NodeOf(ranks[i], offset, topo.EnginesPerNode()) in visited
    ensures AllocatedTo(alloc, ranks, i + 1, topo, offset, prefill,
                        visited + {NodeOf(ranks[i], offset, topo.EnginesPerNode())}, ranks[i] + 1)
  {
    AllKeysOn(ranks, topo, offset, prefill, i);
    VisitedOn(visited, ranks, topo, offset, i);
    SetOfOn(ranks, i);
    assert visited + {NodeOf(ranks[i], offset, topo.EnginesPerNode())} == visited;
    SkipRank(alloc.table, topo, offset, prefill, visited, SetOf(ranks[..i]), floor, ranks[i]);
  }

  method VisitNew(alloc: PortAllocator, ranks: seq<nat>, i: nat, topo: Topology, offset: nat, prefill: bool,
                  ghost visited: set<nat>, ghost floor: nat)
    requires topo.Valid() && AscendingFrom(ranks, offset) && i < |ranks|
    requires AllocatedTo(alloc, ranks, i, topo, offset, prefill, visited, floor)
    requires NodeOf(ranks[i], offset, topo.EnginesPerNode()) !in visited
    modifies alloc
    ensures AllocatedTo(alloc, ranks, i + 1, topo, offset, prefill,
                        visited + {NodeOf(ranks[i], offset, topo.EnginesPerNode())}, ranks[i] + 1)
  {
    AllKeysOn(ranks, topo, offset, prefill, i);
    VisitedOn(visited, ranks, topo, offset, i);
    SetOfOn(ranks, i);
    ghost var before := alloc.table;
    VisitNode(alloc, topo, offset, ranks[i], prefill);
    VisitRank(before, alloc.table, topo, offset, prefill, visited, SetOf(ranks[..i]), floor, ranks[i]);
  }

  lemma SetOfOn(ranks: seq<nat>, i: nat)
    requires i < |ranks|
    ensures SetOf(ranks[..i + 1]) == SetOf(ranks[..i]) + {ranks[i]}
  {
    assert ranks[..i + 1] == ranks[..i] + [ranks[i]];
  }

  method CheckComplete(table: Table, ranks: seq<nat>) returns (ok: bool)
    ensures ok <==> forall i :: 0 <= i < |ranks| ==> Complete(table, ranks[i])
  {
    for i := 0 to |ranks|
      invariant forall j :: 0 <= j < i ==> Complete(table, ranks[j])
    {
      if !Complete(table, ranks[i]) { return false; }
    }
    ok := true;
  }

  lemma {:induction false} WhenComplete(table: Table, ranks: seq<nat>, topo: Topology, offset: nat, prefill: bool,
                                        visited: set<nat>, floor: nat)
    requires topo.Valid() && AscendingFrom(ranks, offset) && offset <= floor
    requires Settled(table, topo, offset, prefill, visited, SetOf(ranks), floor)
    ensures forall rank, role :: rank in ranks && Own(role, prefill) ==> Told(table, rank, role)
    ensures (forall i :: 0 <= i < |ranks| ==> Complete(table, ranks[i])) <==> HeadsPresent(ranks, topo, offset)
    ensures HeadsPresent(ranks, topo, offset) ==>
      forall rank :: rank in ranks ==> Meeting(table, rank) == Some(Leader(rank, offset, topo))
  {
    forall rank | rank in ranks ensures Reached(rank, topo, offset, visited, SetOf(ranks), floor) {}
    forall i | 0 <= i < |ranks|
      ensures Complete(table, ranks[i]) <==> Meeting(table, ranks[i]).Some?
    {
      assert ranks[i] in ranks;
      assert Reached(ranks[i], topo, offset, visited, SetOf(ranks), floor);
      assert Own(Server, prefill) && Own(Nccl, prefill);
    }
    if topo.MultiNode() {
      forall i | 0 <= i < |ranks|
        ensures Meeting(table, ranks[i]) == MeetingOf(ranks[i], topo, offset, SetOf(ranks))
      {
      }
    }
  }

  // ---------------------------------------------------------------- server groups

  /** Ranks of the processes that are not running, in ascending order. */
  ghost function Dead(running: seq<bool>, offset: nat): (ranks: seq<nat>)
    ensures AscendingFrom(ranks, offset) && forall r :: r in ranks ==> r < offset + |running|
    ensures forall r :: r in ranks <==> offset <= r < offset + |running| && !running[r - offset]
  {
    if running == [] then [] else
      var n := |running| - 1;
      var rest := Dead(running[..n], offset);
      assert forall r :: r in rest + [offset + n] <==> r in rest || r == offset + n;
      assert forall i :: 0 <= i < |rest| ==> rest[i] in rest;
      if running[n] then rest else rest + [offset + n]
  }

  lemma DeadStep(running: seq<bool>, offset: nat, n: nat)
    requires n < |running|
    ensures Dead(running[..n + 1], offset) == Dead(running[..n], offset) + if running[n] then [] else [offset + n]
  {
    assert running[..n + 1][..n] == running[..n];
  }

  /** The nodes of one engine run or are down together. */
  ghost predicate Uniform(running: seq<bool>, nodes: nat)
    requires nodes > 0
  {
    |running| % nodes == 0 && forall i :: 0 <= i < |running| ==> running[i] == running[HeadIndex(i, nodes)]
  }

  function HeadIndex(i: nat, nodes: nat): (h: nat)
    requires nodes > 0
    ensures h <= i && h % nodes == 0
  {
    FloorMultiple(i, nodes);
    i - i % nodes
  }

  /** Some engine's head runs while another of its nodes is down. */
  ghost predicate Torn(running: seq<bool>, nodes: nat)
    requires nodes > 0
  {
    exists i :: 0 <= i < |running| && !running[i] && running[HeadIndex(i, nodes)]
  }

  /** What is down has all its heads exactly if no engine is torn. */
  lemma {:induction false} TornLacksHeads(running: seq<bool>, topo: Topology, offset: nat)
    requires topo.Valid()
    ensures HeadsPresent(Dead(running, offset), topo, offset) <==> !Torn(running, topo.NodesPerEngine())
  {
    if topo.MultiNode() {
      TornMultiNode(running, Dead(running, offset), offset, topo.NodesPerEngine());
    } else {
      SingleNode(topo);
    }
  }

  lemma {:induction false} TornMultiNode(running: seq<bool>, ranks: seq<nat>, offset: nat, nodes: nat)
    requires nodes > 0 && ranks == Dead(running, offset)
    ensures (forall k :: 0 <= k < |ranks| ==> Head(ranks[k], offset, nodes) in ranks) <==> !Torn(running, nodes)
  {
    if i :| 0 <= i < |running| && !running[i] && running[HeadIndex(i, nodes)] {
      var k := HeadIsUp(running, ranks, offset, nodes, i);
      assert Head(ranks[k], offset, nodes) !in ranks;
    } else {
      forall k | 0 <= k < |ranks| ensures Head(ranks[k], offset, nodes) in ranks {
        HeadIsDead(running, ranks, offset, nodes, ranks[k]);
      }
    }
  }

  lemma {:induction false} HeadIsUp(running: seq<bool>, ranks: seq<nat>, offset: nat, nodes: nat, i: nat)
    returns (k: nat)
    requires nodes > 0 && ranks == Dead(running, offset)
    requires i < |running| && !running[i] && running[HeadIndex(i, nodes)]
    ensures k < |ranks| && ranks[k] == offset + i && Head(ranks[k], offset, nodes) !in ranks
  {
    HeadOfPlace(i, offset, nodes);
    assert offset + i in ranks;
    k :| 0 <= k < |ranks| && ranks[k] == offset + i;
  }

  lemma {:induction false} HeadIsDead(running: seq<bool>, ranks: seq<nat>, offset: nat, nodes: nat, rank: nat)
    requires nodes > 0 && ranks == Dead(running, offset) && !Torn(running, nodes) && rank in ranks
    ensures Head(rank, offset, nodes) in ranks
  {
    HeadOfPlace(rank - offset, offset, nodes);
    assert !running[HeadIndex(rank - offset, nodes)];
  }

  lemma {:induction false} HeadOfPlace(i: nat, offset: nat, nodes: nat)
    requires nodes > 0
    ensures Head(offset + i, offset, nodes) == offset + HeadIndex(i, nodes)
  {
  }

  lemma {:induction false} SingleNode(topo: Topology)
    requires topo.Valid() && !topo.MultiNode()
    ensures topo.NodesPerEngine() == 1
  {
  }

  /** Among what is down in a uniform group, with every rank also its engine's head is down. */
  lemma {:induction false} UniformHasHeads(running: seq<bool>, topo: Topology, offset: nat)
    requires topo.Valid() && Uniform(running, topo.NodesPerEngine())
    ensures HeadsPresent(Dead(running, offset), topo, offset)
  {
    TornLacksHeads(running, topo, offset);
  }

  ghost predicate AllRunning(running: seq<bool>) {
    forall i :: 0 <= i < |running| ==> running[i]
  }

  method HighestCursor(cursors: map<nat, nat>) returns (highest: nat)
    requires cursors != map[]
    ensures highest in cursors.Values && forall node :: node in cursors ==> cursors[node] <= highest
  {
    var nodes := cursors.Keys;
    var node :| node in nodes;
    highest := cursors[node];
    nodes := nodes - {node};
    while nodes != {}
      invariant highest in cursors.Values && nodes <= cursors.Keys
      invariant forall node :: node in cursors && node !in nodes ==> cursors[node] <= highest
      decreases |nodes|
    {
      node :| node in nodes;
      if cursors[node] > highest { highest := cursors[node]; }
      nodes := nodes - {node};
    }
  }

  /** What one `start_engines` handed out; `failed` is its assertion. */
  datatype Started = Started(cursors: map<nat, nat>, grants: seq<Grant>, table: Table, failed: bool)

  /** Every rank has its own ports and the rendezvous address of its engine. */
  ghost predicate Equipped(table: Table, ranks: seq<nat>, offset: nat, topo: Topology, prefill: bool)
    requires topo.Valid() && AscendingFrom(ranks, offset)
  {
    forall r :: r in ranks ==>
      && Complete(table, r) && (prefill ==> Told(table, r, Disaggregation))
      && Meeting(table, r) == Some(Leader(r, offset, topo))
  }

  /** Allocation above the highest cursor of the groups before, or above 15000. */
  method AllocateAbove(portCursors: map<nat, nat>, ranks: seq<nat>, topo: Topology, offset: nat,
                       free: Ports, prefill: bool, dpSize: nat)
    returns (s: Started)
    requires topo.Valid() && AscendingFrom(ranks, offset) && ranks != [] && NeverFull(free)
    ensures s.failed <==> !HeadsPresent(ranks, topo, offset)
    ensures !s.failed ==> Equipped(s.table, ranks, offset, topo, prefill)
    ensures TableOk(s.table, s.grants) && Sized(s.grants, dpSize) && AboveAll(portCursors, s) && s.grants != []
    ensures Placed(s.grants, offset, topo.EnginesPerNode()) && Handed(free, portCursors, s.grants)
    ensures Keys(s.grants) == AllKeys(ranks, topo, offset, prefill)
  {
    var basePort := 15000;
    if portCursors != map[] { basePort := HighestCursor(portCursors); }
    var alloc, ok := Allocate(ranks, topo, offset, basePort, free, prefill, dpSize);
    assert IsBase(portCursors, basePort) && Asked(free, basePort, alloc.grants);
    BookedAbove(portCursors, basePort, alloc.cursors, alloc.grants, alloc.table, !ok);
    s := Started(alloc.cursors, alloc.grants, alloc.table, !ok);
    if ok {
      forall r | r in ranks ensures Complete(s.table, r) && (prefill ==> Told(s.table, r, Disaggregation)) {
        assert Own(Server, prefill) && Own(Nccl, prefill) && (prefill ==> Own(Disaggregation, prefill));
        assert Meeting(s.table, r).Some?;
      }
    }
  }

  /** What was asked for, in order, is what the ranks that were down need. */
  ghost predicate AskedFor(grants: seq<Grant>, running: seq<bool>, topo: Topology, offset: nat, prefill: bool)
    requires topo.Valid()
  {
    forall ranks | AreDead(ranks, running, offset) :: Keys(grants) == AllKeys(ranks, topo, offset, prefill)
  }

  lemma AskedForOf(ranks: seq<nat>, running: seq<bool>, topo: Topology, offset: nat, prefill: bool)
    requires topo.Valid() && ranks == Dead(running, offset)
    ensures forall grants :: Keys(grants) == AllKeys(ranks, topo, offset, prefill) ==>
      AskedFor(grants, running, topo, offset, prefill)
    ensures ranks == [] ==> Keys([]) == AllKeys(ranks, topo, offset, prefill)
  {
  }

  ghost predicate AreDead(ranks: seq<nat>, running: seq<bool>, offset: nat) { ranks == Dead(running, offset) }

  /** Ports for the ranks that were down, if there are any. */
  method StartRanks(portCursors: map<nat, nat>, ghost before: seq<bool>, ranks: seq<nat>, topo: Topology, offset: nat,
                    free: Ports, prefill: bool, dpSize: nat)
    returns (s: Started)
    requires topo.Valid() && NeverFull(free) && ranks == Dead(before, offset)
    ensures s.failed <==> Torn(before, topo.NodesPerEngine())
    ensures !s.failed ==> Equipped(s.table, ranks, offset, topo, prefill)
    ensures TableOk(s.table, s.grants) && Sized(s.grants, dpSize) && AboveAll(portCursors, s)
    ensures Placed(s.grants, offset, topo.EnginesPerNode())
    ensures s.grants != [] ==> Handed(free, portCursors, s.grants)
    ensures AskedFor(s.grants, before, topo, offset, prefill)
  {
    TornLacksHeads(before, topo, offset);
    AskedForOf(ranks, before, topo, offset, prefill);
    if ranks == [] {
      return Started(portCursors, [], map[], false);
    }
    s := AllocateAbove(portCursors, ranks, topo, offset, free, prefill, dpSize);
  }

  /** `ServerGroup`; an entry of `running` says whether there is an actor in that place of `all_engines`. */
  class ServerGroup {
    const topo: Topology
    const rankOffset: nat
    const prefill: bool
    const inactive: bool
    var running: seq<bool>
    var numNewEngines: nat

    ghost predicate Valid()
      reads this
    {
      topo.Valid() && |running| % topo.NodesPerEngine() == 0
    }

    constructor (topo: Topology, numEngines: nat, rankOffset: nat, prefill: bool, inactive: bool)
      requires topo.Valid() && numEngines % topo.NodesPerEngine() == 0
      ensures Valid() && running == seq(numEngines, _ => false) && numNewEngines == 0
      ensures Uniform(running, topo.NodesPerEngine())
      ensures this.topo == topo && this.rankOffset == rankOffset && this.prefill == prefill && this.inactive == inactive
    {
      this.topo, this.rankOffset, this.prefill, this.inactive := topo, rankOffset, prefill, inactive;
      running, numNewEngines := seq(numEngines, _ => false), 0;
    }

    /** Fills the empty places of `all_engines` and lists the new ranks. */
    method CreateActors() returns (ranks: seq<nat>)
      modifies this`running
      ensures ranks == Dead(old(running), rankOffset) && |running| == |old(running)| && AllRunning(running)
    {
      ranks := [];
      ghost var before := running;
      for i := 0 to |running|
        invariant |running| == |before| && ranks == Dead(before[..i], rankOffset)
        invariant forall j :: 0 <= j < |before| ==> running[j] == (j < i || before[j])
      {
        DeadStep(before, rankOffset, i);
        if !running[i] {
          ranks := ranks + [rankOffset + i];
          running := running[i := true];
        }
      }
      assert before[..|before|] == before;
    }

    /**
      `start_engines`.  It fails exactly if an engine is torn, and everything it hands out lies above every cursor it
      was given, and on the node index of its rank.
     */
    method StartEngines(portCursors: map<nat, nat>, free: Ports, dpSize: nat) returns (s: Started)
      requires Valid() && NeverFull(free)
      modifies this
      ensures Valid() && |running| == |old(running)|
      ensures s.failed <==> !inactive && Torn(old(running), topo.NodesPerEngine())
      ensures inactive ==> running == old(running) && numNewEngines == 0 && s == Started(portCursors, [], map[], false)
      ensures !inactive ==> AllRunning(running) && numNewEngines == |Dead(old(running), rankOffset)|
      ensures !inactive && !s.failed ==> Equipped(s.table, Dead(old(running), rankOffset), rankOffset, topo, prefill)
      ensures TableOk(s.table, s.grants) && Sized(s.grants, dpSize) && AboveAll(portCursors, s)
      ensures Placed(s.grants, rankOffset, topo.EnginesPerNode())
      ensures s.grants != [] ==> Handed(free, portCursors, s.grants)
      ensures !inactive ==> AskedFor(s.grants, old(running), topo, rankOffset, prefill)
    {
      if inactive {
        numNewEngines := 0;
        return Started(portCursors, [], map[], false);
      }
      ghost var before := running;
      var ranks := CreateActors();
      numNewEngines := |ranks|;
      s := StartRanks(portCursors, before, ranks, topo, rankOffset, free, prefill, dpSize);
    }
  }

  ghost predicate BelowSome(cursors: map<nat, nat>, end: nat) {
    exists node :: node in cursors && end <= cursors[node]
  }

  /** What one start handed out lies above the cursors it was given, and below its own highest. */
  ghost predicate AboveAll(cursors: map<nat, nat>, s: Started) {
    && Ordered(s.grants)
    && (s.grants == [] ==> s.cursors == cursors)
    && (s.grants != [] ==> s.cursors != map[])
    && (forall g, node :: g in s.grants && node in cursors ==> cursors[node] <= g.lo)
    && (forall g :: g in s.grants ==> g.len > 0 && BelowSome(s.cursors, g.lo + g.len))
  }

  lemma BookedAbove(before: map<nat, nat>, basePort: nat, cursors: map<nat, nat>, grants: seq<Grant>, table: Table,
                    failed: bool)
    requires Booked(basePort, cursors, grants) && grants != []
    requires forall node :: node in before ==> before[node] <= basePort
    ensures AboveAll(before, Started(cursors, grants, table, failed))
  {
    assert grants[0] in grants;
  }

  // ---------------------------------------------------------------- machines

  /**
    The machine on which a rank's process runs, if the group's first GPU is number `start`, counted from the first GPU
    of some machine (`gpu_offset`, and where the rollout's GPUs begin).
   */
  function MachineOf(rank: nat, offset: nat, topo: Topology, start: nat): int
    requires topo.Valid() && offset <= rank
  {
    (start + (rank - offset) * topo.GpusPerProcess()) / topo.gpusPerNode
  }

  /** Engines fill machines: a process does not reach over the end of one that it could have started on. */
  ghost predicate Fills(topo: Topology) {
    topo.Valid() && topo.gpusPerNode % topo.GpusPerProcess() == 0
  }

  /** How many processes would have had room before the group's first one on its machine. */
  function Shift(topo: Topology, start: nat): nat
    requires topo.Valid()
  {
    start % topo.gpusPerNode / topo.GpusPerProcess()
  }

  lemma {:induction false} MachineIsBlock(rank: nat, offset: nat, topo: Topology, start: nat)
    requires Fills(topo) && offset <= rank
    ensures Shift(topo, start) < topo.EnginesPerNode()
    ensures Shift(topo, start) == 0 <==> start % topo.gpusPerNode < topo.GpusPerProcess()
    ensures MachineOf(rank, offset, topo, start)
         == start / topo.gpusPerNode + NodeOf(rank + Shift(topo, start), offset, topo.EnginesPerNode())
  {
    FilledBy(topo);
    DivMod(start, topo.gpusPerNode);
    MachineFrom(rank - offset, start, start / topo.gpusPerNode, start % topo.gpusPerNode, topo.gpusPerNode,
                topo.GpusPerProcess(), topo.EnginesPerNode(), Shift(topo, start), MachineOf(rank, offset, topo, start),
                NodeOf(rank + Shift(topo, start), offset, topo.EnginesPerNode()));
  }

  lemma {:induction false} MachineFrom(l: nat, start: nat, q: nat, r: nat, g: nat, w: nat, k: nat, a: nat,
                                       machine: int, node: nat)
    requires g == k * w && g > 0 && w > 0 && k > 0 && start == q * g + r && r < g
    requires a == r / w && machine == (start + l * w) / g && node == (a + l) / k
    ensures a < k && (a == 0 <==> r < w) && machine == q + node
  {
    BlockOf(start, q, r, g, w, k, l);
  }

  lemma {:induction false} DivMod(x: nat, d: nat)
    requires d > 0
    ensures x == x / d * d + x % d && x % d < d
  {
  }

  lemma {:induction false} BlockOf(start: nat, q: nat, r: nat, g: nat, w: nat, k: nat, l: nat)
    requires g == k * w && g > 0 && w > 0 && k > 0 && start == q * g + r && r < g
    ensures 0 <= r / w < k && (r / w == 0 <==> r < w) && (start + l * w) / g == q + (r / w + l) / k
  {
    SmallShift(r, w, k);
    BlockSum(start, q, g, r / w, r % w, w, k, l);
  }

  lemma {:induction false} SmallShift(r: nat, w: nat, k: nat)
    requires w > 0 && r < k * w
    ensures 0 <= r / w < k && (r / w == 0 <==> r < w) && r == r / w * w + r % w
  {
    var a, b := r / w, r % w;
    MulStrict(k, a, w);
    MulStrict(a, k, w);
    MulStrict(0, a, w);
    MulStrict(a, 0, w);
  }

  lemma {:induction false} FilledBy(topo: Topology)
    requires Fills(topo)
    ensures topo.gpusPerNode == topo.EnginesPerNode() * topo.GpusPerProcess()
  {
    var g, e := topo.gpusPerNode, topo.gpusPerEngine;
    if e < g {
      assert g == g / e * e;
      MulStrict(g / e, 1, e);
    } else if e == g {
      DivCancel(1, g);
    }
  }

  lemma {:induction false} BlockSum(start: nat, q: nat, g: nat, a: nat, b: nat, w: nat, k: nat, l: nat)
    requires g == k * w && k > 0 && b < w && start == q * g + (a * w + b)
    ensures g > 0 && (start + l * w) / g == q + (a + l) / k
  {
    var m, c := (a + l) / k, (a + l) % k;
    SlotInBlocks(c, b, k, w);
    Scale(a + l, m, k, c, w);
    SumOfBlocks(start, q, g, a, b, w, l, m, c);
    DivModUnique(start + l * w, g, q + m, c * w + b);
  }

  lemma {:induction false} Scale(x: nat, m: nat, k: nat, c: nat, w: nat)
    requires x == m * k + c
    ensures x * w == m * (k * w) + c * w
  {
    Distribute(m * k, c, w);
  }

  lemma {:induction false} SumOfBlocks(start: nat, q: nat, g: nat, a: nat, b: nat, w: nat, l: nat, m: nat, c: nat)
    requires start == q * g + (a * w + b) && (a + l) * w == m * g + c * w
    ensures start + l * w == (q + m) * g + (c * w + b)
  {
    Distribute(a, l, w);
    Distribute(q, m, g);
  }

  /** Ranks of one group on one machine have the same node index. */
  ghost predicate OneIndexPerMachine(topo: Topology, offset: nat, start: nat, n: nat)
    requires topo.Valid()
  {
    forall r: nat, s: nat | offset <= r < offset + n && offset <= s < offset + n ::
      MachineOf(r, offset, topo, start) == MachineOf(s, offset, topo, start) ==>
        NodeOf(r, offset, topo.EnginesPerNode()) == NodeOf(s, offset, topo.EnginesPerNode())
  }

  /** So it is exactly if the group begins where a machine does, or has only one node index. */
  lemma {:induction false} IndexIsMachine(topo: Topology, offset: nat, start: nat, n: nat)
    requires Fills(topo)
    ensures OneIndexPerMachine(topo, offset, start, n)
       <==> start % topo.gpusPerNode < topo.GpusPerProcess() || n <= topo.EnginesPerNode()
  {
    var k, a := topo.EnginesPerNode(), Shift(topo, start);
    MachineIsBlock(offset, offset, topo, start);
    if a == 0 || n <= k {
      forall r: nat, s: nat | offset <= r < offset + n && offset <= s < offset + n
        && MachineOf(r, offset, topo, start) == MachineOf(s, offset, topo, start)
        ensures NodeOf(r, offset, k) == NodeOf(s, offset, k)
      {
        if n <= k {
          SmallQuotient(r - offset, k);
          SmallQuotient(s - offset, k);
        } else {
          MachineIsBlock(r, offset, topo, start);
          MachineIsBlock(s, offset, topo, start);
        }
      }
    } else {
      SecondMachine(topo, offset, start);
      assert NodeOf(offset + k - 1, offset, k) != NodeOf(offset + k, offset, k);
    }
  }

  /** Where the group begins later, the last rank of its first node index is on one machine with the next rank. */
  lemma {:induction false} SecondMachine(topo: Topology, offset: nat, start: nat)
    requires Fills(topo) && Shift(topo, start) > 0
    ensures var k := topo.EnginesPerNode();
      && MachineOf(offset + k - 1, offset, topo, start) == MachineOf(offset + k, offset, topo, start)
      && NodeOf(offset + k - 1, offset, k) == 0 && NodeOf(offset + k, offset, k) == 1
  {
    var k, a := topo.EnginesPerNode(), Shift(topo, start);
    MachineIsBlock(offset + k - 1, offset, topo, start);
    MachineIsBlock(offset + k, offset, topo, start);
    BothInSecond(a, k);
  }

  lemma {:induction false} BothInSecond(a: nat, k: nat)
    requires 0 < a < k
    ensures (k - 1 + a) / k == 1 && (k + a) / k == 1 && (k - 1) / k == 0 && k / k == 1
  {
    DivModUnique(k - 1 + a, k, 1, a - 1);
    DivModUnique(k + a, k, 1, a);
    DivModUnique(k - 1, k, 0, k - 1);
    DivModUnique(k, k, 1, 0);
  }

  /** Different grants for ranks of the group on one machine share no port. */
  ghost predicate DisjointOnMachines(grants: seq<Grant>, topo: Topology, offset: nat, start: nat, n: nat)
    requires topo.Valid()
  {
    forall a, b :: a in grants && b in grants && a != b && OnOneMachine(a, b, topo, offset, start, n) ==>
      !(exists p :: InGrant(p, a) && InGrant(p, b))
  }

  predicate OnOneMachine(a: Grant, b: Grant, topo: Topology, offset: nat, start: nat, n: nat)
    requires topo.Valid()
  {
    && offset <= a.rank < offset + n && offset <= b.rank < offset + n
    && MachineOf(a.rank, offset, topo, start) == MachineOf(b.rank, offset, topo, start)
  }

  predicate InGrant(p: nat, g: Grant) { g.lo <= p < g.lo + g.len }

  /**
    What an allocation promises of the machines: all that it may hand out to a group of `n` processes is disjoint on
    every machine exactly if the group begins where a machine does, or has only one node index.
   */
  lemma {:induction false} MachinesDisjoint(topo: Topology, offset: nat, start: nat, n: nat)
    requires Fills(topo)
    ensures (forall grants :: Ordered(grants) && Placed(grants, offset, topo.EnginesPerNode()) ==>
              DisjointOnMachines(grants, topo, offset, start, n))
       <==> start % topo.gpusPerNode < topo.GpusPerProcess() || n <= topo.EnginesPerNode()
  {
    IndexIsMachine(topo, offset, start, n);
    if OneIndexPerMachine(topo, offset, start, n) {
      forall grants | Ordered(grants) && Placed(grants, offset, topo.EnginesPerNode())
        ensures DisjointOnMachines(grants, topo, offset, start, n)
      {
        DisjointByIndex(grants, topo, offset, start, n);
      }
    } else {
      var r: nat, s: nat :| offset <= r < offset + n && offset <= s < offset + n
        && MachineOf(r, offset, topo, start) == MachineOf(s, offset, topo, start)
        && NodeOf(r, offset, topo.EnginesPerNode()) != NodeOf(s, offset, topo.EnginesPerNode());
      ClashingGrants(topo, offset, start, n, r, s);
    }
  }

  lemma {:induction false} DisjointByIndex(grants: seq<Grant>, topo: Topology, offset: nat, start: nat, n: nat)
    requires topo.Valid() && OneIndexPerMachine(topo, offset, start, n)
    requires Ordered(grants) && Placed(grants, offset, topo.EnginesPerNode())
    ensures DisjointOnMachines(grants, topo, offset, start, n)
  {
    forall a, b, p | a in grants && b in grants && a != b && OnOneMachine(a, b, topo, offset, start, n)
      ensures !(InGrant(p, a) && InGrant(p, b))
    {
      assert OnNode(a.rank, a.node, offset, topo.EnginesPerNode())
          && OnNode(b.rank, b.node, offset, topo.EnginesPerNode());
      GrantsDisjoint(grants, a, b, p);
    }
  }

  lemma {:induction false} ClashingGrants(topo: Topology, offset: nat, start: nat, n: nat, r: nat, s: nat)
    requires topo.Valid() && offset <= r < offset + n && offset <= s < offset + n
    requires MachineOf(r, offset, topo, start) == MachineOf(s, offset, topo, start)
    requires NodeOf(r, offset, topo.EnginesPerNode()) != NodeOf(s, offset, topo.EnginesPerNode())
    ensures exists grants | Ordered(grants) && Placed(grants, offset, topo.EnginesPerNode()) ::
      !DisjointOnMachines(grants, topo, offset, start, n)
  {
    var a := Grant(NodeOf(r, offset, topo.EnginesPerNode()), 15000, 1, r, Server);
    var b := Grant(NodeOf(s, offset, topo.EnginesPerNode()), 15000, 1, s, Server);
    var grants := [a, b];
    assert a in grants && b in grants && OnOneMachine(a, b, topo, offset, start, n);
    assert InGrant(15000, a) && InGrant(15000, b);
    assert Ordered(grants) && Placed(grants, offset, topo.EnginesPerNode());
  }

  /** The smallest case: engines of four GPUs on machines of eight, the first one in the middle of a machine. */
  lemma {:induction false} SharedMachine()
    ensures var topo := Topology(4, 8);
      && topo.EnginesPerNode() == 2 && MachineOf(1, 0, topo, 4) == MachineOf(2, 0, topo, 4) == 1
      && NodeOf(1, 0, 2) == 0 && NodeOf(2, 0, 2) == 1
  {
  }

  // ---------------------------------------------------------------- health monitor

  function EngineOf(i: nat, nodes: nat): nat
    requires nodes > 0
  {
    i / nodes
  }

  lemma {:induction false} EngineRange(i: nat, id: nat, nodes: nat)
    requires nodes > 0
    ensures HeadIndex(i, nodes) == EngineOf(i, nodes) * nodes
    ensures EngineOf(i, nodes) == id <==> id * nodes <= i < id * nodes + nodes
  {
    var q, r := i / nodes, i % nodes;
    assert i == q * nodes + r;
    MulStrict(q, id, nodes);
    MulStrict(id, q, nodes);
  }

  ghost predicate Killed(before: seq<bool>, after: seq<bool>, id: nat, nodes: nat)
    requires nodes > 0
  {
    |after| == |before| && forall i :: 0 <= i < |before| ==> after[i] == (before[i] && EngineOf(i, nodes) != id)
  }

  lemma {:induction false} KillKeepsUniform(before: seq<bool>, after: seq<bool>, id: nat, nodes: nat)
    requires nodes > 0 && Uniform(before, nodes) && Killed(before, after, id, nodes)
    ensures Uniform(after, nodes)
  {
    forall i | 0 <= i < |after| ensures after[i] == after[HeadIndex(i, nodes)] {
      var head := HeadIndex(i, nodes);
      EngineRange(i, EngineOf(i, nodes), nodes);
      EngineRange(head, EngineOf(i, nodes), nodes);
      assert before[i] == before[head];
    }
  }

  /** `_kill_engine` with nothing in between: it takes down every node of the engine. */
  method KillEngine(group: ServerGroup, id: nat)
    requires group.Valid() && Uniform(group.running, group.topo.NodesPerEngine())
    requires id * group.topo.NodesPerEngine() + group.topo.NodesPerEngine() <= |group.running|
    modifies group`running
    ensures group.Valid() && Uniform(group.running, group.topo.NodesPerEngine())
    ensures Killed(old(group.running), group.running, id, group.topo.NodesPerEngine())
  {
    ghost var before := group.running;
    var nodes := group.topo.NodesPerEngine();
    var first := id * nodes;
    for i := first to first + nodes
      invariant |group.running| == |before|
      invariant forall j :: 0 <= j < |before| ==> group.running[j] == (before[j] && !(first <= j < i))
    {
      group.running := group.running[i := false];
    }
    forall j | 0 <= j < |before| ensures group.running[j] == (before[j] && EngineOf(j, nodes) != id) {
      EngineRange(j, id, nodes);
    }
    KillKeepsUniform(before, group.running, id, nodes);
  }

  /** After the checks an actor runs exactly if it ran before and its engine answered, or was not reached. */
  ghost predicate Checked(before: seq<bool>, after: seq<bool>, responds: nat -> bool, reached: nat, nodes: nat)
    requires nodes > 0
  {
    |after| == |before| && forall i :: 0 <= i < |before| ==>
      after[i] == (before[i] && (EngineOf(i, nodes) < reached ==> responds(EngineOf(i, nodes))))
  }

  /** One engine checked: answered, found to be down already, or killed. */
  lemma CheckStep(before: seq<bool>, now: seq<bool>, after: seq<bool>, responds: nat -> bool, id: nat, nodes: nat)
    requires nodes > 0 && Uniform(now, nodes) && id * nodes < |now| && Checked(before, now, responds, id, nodes)
    requires if now[id * nodes] && !responds(id) then Killed(now, after, id, nodes) else after == now
    ensures Checked(before, after, responds, id + 1, nodes)
  {
    forall i | 0 <= i < |before|
      ensures after[i] == (before[i] && (EngineOf(i, nodes) < id + 1 ==> responds(EngineOf(i, nodes))))
    {
      EngineRange(i, id, nodes);
      if EngineOf(i, nodes) == id {
        assert now[i] == now[HeadIndex(i, nodes)] == now[id * nodes];
      }
    }
  }

  /**
    `_run_health_checks` with nothing in between: one round over the node-0 actors, which a stop or a pause may cut
    short.
   */
  method RunHealthChecks(group: ServerGroup, responds: nat -> bool, stopAt: nat) returns (reached: nat)
    requires group.Valid() && Uniform(group.running, group.topo.NodesPerEngine())
    modifies group`running
    ensures group.Valid() && Uniform(group.running, group.topo.NodesPerEngine())
    ensures reached == Min(stopAt, |group.running| / group.topo.NodesPerEngine())
    ensures Checked(old(group.running), group.running, responds, reached, group.topo.NodesPerEngine())
  {
    ghost var before := group.running;
    var nodes := group.topo.NodesPerEngine();
    var count := |group.running| / nodes;
    assert count * nodes == |group.running|;
    reached := 0;
    while reached < count && reached < stopAt
      invariant reached <= count && reached <= stopAt && group.Valid() && Uniform(group.running, nodes)
      invariant Checked(before, group.running, responds, reached, nodes)
    {
      ghost var now := group.running;
      SlotInBlocks(reached, 0, count, nodes);
      if group.running[reached * nodes] && !responds(reached) {
        KillEngine(group, reached);
      }
      CheckStep(before, now, group.running, responds, reached, nodes);
      reached := reached + 1;
    }
  }

  // ---------------------------------------------------------------- recovery

  /** Every interval of a later start lies above every interval of an earlier one. */
  ghost predicate Stacked(starts: seq<Started>) {
    forall a, b, g, h :: 0 <= a < b < |starts| && g in starts[a].grants && h in starts[b].grants ==>
        g.lo + g.len <= h.lo
  }

  ghost predicate UnderCursors(starts: seq<Started>, cursors: map<nat, nat>) {
    forall a, g :: 0 <= a < |starts| && g in starts[a].grants ==> BelowSome(cursors, g.lo + g.len)
  }

  lemma AboveEnd(cursors: map<nat, nat>, s: Started, end: nat)
    requires BelowSome(cursors, end) && AboveAll(cursors, s)
    ensures BelowSome(s.cursors, end) && forall h :: h in s.grants ==> end <= h.lo
  {
    var node :| node in cursors && end <= cursors[node];
    if s.grants != [] {
      var h := s.grants[0];
      assert h in s.grants;
      var node' :| node' in s.cursors && h.lo + h.len <= s.cursors[node'];
      assert end <= s.cursors[node'];
    }
  }

  lemma StackOne(starts: seq<Started>, cursors: map<nat, nat>, s: Started)
    requires Stacked(starts) && UnderCursors(starts, cursors) && AboveAll(cursors, s)
    ensures Stacked(starts + [s]) && UnderCursors(starts + [s], s.cursors)
  {
    forall a, g | 0 <= a < |starts| && g in starts[a].grants
      ensures BelowSome(s.cursors, g.lo + g.len) && forall h :: h in s.grants ==> g.lo + g.len <= h.lo
    {
      AboveEnd(cursors, s, g.lo + g.len);
    }
  }

  /** What a recovery owes one group. */
  ghost predicate Restored(before: seq<bool>, group: ServerGroup, s: Started, dpSize: nat)
    reads group
    requires group.topo.Valid()
  {
    !s.failed && TableOk(s.table, s.grants) && Sized(s.grants, dpSize) && Ordered(s.grants) &&
    if group.inactive then group.running == before && group.numNewEngines == 0
    else
      && AllRunning(group.running) && |group.running| == |before|
      && group.numNewEngines == |Dead(before, group.rankOffset)|
      && Equipped(s.table, Dead(before, group.rankOffset), group.rankOffset, group.topo, group.prefill)
      && AskedFor(s.grants, before, group.topo, group.rankOffset, group.prefill)
  }

  /** An active group with a torn engine. */
  ghost predicate GroupTorn(running: seq<bool>, group: ServerGroup)
    requires group.topo.Valid()
  {
    !group.inactive && Torn(running, group.topo.NodesPerEngine())
  }

  /** The cursors a start is given by the one before it. */
  function CursorsBefore(starts: seq<Started>, k: nat): map<nat, nat>
    requires k <= |starts|
  {
    if k == 0 then map[] else starts[k - 1].cursors
  }

  /** Every interval was free when it was asked for, in one start after another. */
  ghost predicate AllHanded(frees: seq<Ports>, starts: seq<Started>) {
    |starts| <= |frees| && forall k: nat :: k < |starts| ==> HandedAt(frees, starts, k)
  }

  ghost predicate HandedAt(frees: seq<Ports>, starts: seq<Started>, k: nat)
    requires k < |starts| <= |frees|
  {
    starts[k].grants != [] ==> Handed(frees[k], CursorsBefore(starts, k), starts[k].grants)
  }

  lemma HandedOneMore(frees: seq<Ports>, starts: seq<Started>, s: Started)
    requires AllHanded(frees, starts) && |starts| < |frees|
    requires s.grants != [] ==> Handed(frees[|starts|], CursorsBefore(starts, |starts|), s.grants)
    ensures AllHanded(frees, starts + [s])
  {
    forall k: nat | k < |starts| + 1 ensures HandedAt(frees, starts + [s], k) {
      assert CursorsBefore(starts + [s], k) == CursorsBefore(starts, k);
      if k < |starts| { assert HandedAt(frees, starts, k); }
    }
  }

  /** `recover`, and the first start of a server, whose groups are still empty; the first failing group ends it. */
  method Recover(groups: seq<ServerGroup>, frees: seq<Ports>, dpSize: nat)
    returns (starts: seq<Started>, failed: bool)
    requires |frees| == |groups| && forall k :: 0 <= k < |groups| ==> NeverFull(frees[k])
    requires forall k :: 0 <= k < |groups| ==> groups[k].Valid()
    requires forall j, k :: 0 <= j < k < |groups| ==> groups[j] != groups[k]
    modifies set g | g in groups
    ensures forall k :: 0 <= k < |groups| ==> groups[k].Valid()
    ensures failed <==>
      exists k :: 0 <= k < |groups| && groups[k].topo.Valid() && GroupTorn(old(groups[k].running), groups[k])
    ensures Stacked(starts) && AllHanded(frees, starts)
    ensures !failed ==> |starts| == |groups|
    ensures !failed ==> forall k :: 0 <= k < |groups| ==>
      groups[k].topo.Valid() && Restored(old(groups[k].running), groups[k], starts[k], dpSize)
  {
    starts := [];
    var portCursors: map<nat, nat> := map[];
    for i := 0 to |groups|
      invariant |starts| == i && Stacked(starts) && UnderCursors(starts, portCursors)
      invariant AllHanded(frees, starts) && portCursors == CursorsBefore(starts, i)
      invariant forall k :: 0 <= k < |groups| ==> groups[k].Valid()
      invariant forall k :: 0 <= k < i ==> !GroupTorn(old(groups[k].running), groups[k])
      invariant forall k :: 0 <= k < i ==> Restored(old(groups[k].running), groups[k], starts[k], dpSize)
      invariant forall k :: i <= k < |groups| ==> groups[k].running == old(groups[k].running)
    {
      var s := groups[i].StartEngines(portCursors, frees[i], dpSize);
      if s.failed {
        assert GroupTorn(old(groups[i].running), groups[i]);
        return starts, true;
      }
      StackOne(starts, portCursors, s);
      HandedOneMore(frees, starts, s);
      starts := starts + [s];
      portCursors := s.cursors;
    }
    failed := false;
  }

  // ---------------------------------------------------------------- recoveries between the steps of a kill

  /**
    Where the thread of a health monitor stands: at a kill of `victim`, `cleared` of whose nodes it has cleared, or
    at no kill. A recovery fills all places of the group; the last one since the kill began came after `caught`
    nodes. Of any other engine, and of the victim before its kill or a recovery in it, the first `kept` nodes are
    up.
   */
  datatype Thread = Thread(victim: Option<nat>, cleared: nat, caught: nat, kept: seq<nat>) {
    ghost predicate Valid(nodes: nat) {
      && (forall e :: 0 <= e < |kept| ==> kept[e] <= nodes)
      && (victim.Some? ==>
          victim.value < |kept| && caught <= cleared < nodes && (caught > 0 ==> kept[victim.value] == nodes))
    }

    /** Node `j` of engine `e` is up. */
    ghost predicate Up(e: nat, j: nat)
      requires e < |kept|
    {
      if victim == Some(e) then j < caught || cleared <= j < kept[e] else j < kept[e]
    }

    /** The places of the group are as this says. */
    ghost predicate Explains(running: seq<bool>, nodes: nat)
      requires nodes > 0
    {
      forall i :: 0 <= i < |running| ==>
          EngineOf(i, nodes) < |kept| && (running[i] <==> Up(EngineOf(i, nodes), i % nodes))
    }

    /**
      The latest kill of this engine was caught by a recovery after its first node, and went on to clear another one.
     */
    ghost predicate Caught(e: nat, nodes: nat)
      requires e < |kept|
    {
      if victim == Some(e) && cleared > 0 then 0 < caught < cleared else 0 < kept[e] < nodes
    }

    /** A kill is between its first and its last node. */
    predicate Between() {
      victim.Some? && cleared > 0
    }

    ghost function Begin(id: nat): Thread {
      Thread(Some(id), 0, 0, kept)
    }

    ghost function Clear(nodes: nat): Thread
      requires victim.Some? && victim.value < |kept|
    {
      if cleared + 1 < nodes then this.(cleared := cleared + 1)
      else Thread(None, 0, 0, kept[victim.value := caught])
    }

    ghost function Recovered(nodes: nat): Thread {
      this.(caught := if victim.Some? then cleared else 0, kept := seq(|kept|, _ => nodes))
    }
  }

  lemma {:induction false} SlotOf(e: nat, j: nat, nodes: nat)
    requires j < nodes
    ensures EngineOf(e * nodes + j, nodes) == e && (e * nodes + j) % nodes == j
    ensures HeadIndex(e * nodes + j, nodes) == e * nodes
  {
    DivModUnique(e * nodes + j, nodes, e, j);
  }

  lemma {:induction false} SlotUnique(i: nat, e: nat, j: nat, nodes: nat)
    requires j < nodes
    ensures i == e * nodes + j <==> EngineOf(i, nodes) == e && i % nodes == j
  {
    SlotOf(e, j, nodes);
    assert i == (i / nodes) * nodes + i % nodes;
  }

  lemma {:induction false} BeginStep(t: Thread, running: seq<bool>, nodes: nat, id: nat)
    requires nodes > 0 && t.Valid(nodes) && t.Explains(running, nodes) && t.victim == None && id < |t.kept|
    ensures t.Begin(id).Valid(nodes) && t.Begin(id).Explains(running, nodes)
  {
    forall i | 0 <= i < |running| ensures running[i] <==> t.Begin(id).Up(EngineOf(i, nodes), i % nodes) {}
  }

  lemma {:induction false} ClearStep(t: Thread, running: seq<bool>, nodes: nat)
    requires nodes > 0 && t.Valid(nodes) && t.Explains(running, nodes) && t.victim.Some?
    requires t.victim.value * nodes + t.cleared < |running|
    ensures t.Clear(nodes).Valid(nodes)
    ensures t.Clear(nodes).Explains(running[t.victim.value * nodes + t.cleared := false], nodes)
  {
    var e := t.victim.value;
    forall i | 0 <= i < |running|
      ensures running[e * nodes + t.cleared := false][i] <==> t.Clear(nodes).Up(EngineOf(i, nodes), i % nodes)
    {
      SlotUnique(i, e, t.cleared, nodes);
    }
  }

  lemma {:induction false} RecoveryStep(t: Thread, running: seq<bool>, nodes: nat)
    requires nodes > 0 && t.Valid(nodes) && AllRunning(running)
    requires forall i :: 0 <= i < |running| ==> EngineOf(i, nodes) < |t.kept|
    ensures t.Recovered(nodes).Valid(nodes) && t.Recovered(nodes).Explains(running, nodes)
  {
    forall i | 0 <= i < |running| ensures t.Recovered(nodes).Up(EngineOf(i, nodes), i % nodes) {}
  }

  /** An engine is torn exactly if its kill was caught. */
  lemma {:induction false} TornExactlyIfCaught(t: Thread, running: seq<bool>, nodes: nat)
    requires nodes > 0 && t.Valid(nodes) && t.Explains(running, nodes) && |running| == |t.kept| * nodes
    ensures Torn(running, nodes) <==> exists e :: 0 <= e < |t.kept| && t.Caught(e, nodes)
  {
    if Torn(running, nodes) {
      var i :| 0 <= i < |running| && !running[i] && running[HeadIndex(i, nodes)];
      var e := EngineOf(i, nodes);
      EngineRange(i, e, nodes);
      SlotOf(e, 0, nodes);
      assert !t.Up(e, i % nodes) && t.Up(e, 0);
      assert t.Caught(e, nodes);
    }
    if e :| 0 <= e < |t.kept| && t.Caught(e, nodes) {
      var hole := if t.victim == Some(e) && t.cleared > 0 then t.caught else t.kept[e];
      SlotInBlocks(e, hole, |t.kept|, nodes);
      SlotOf(e, hole, nodes);
      SlotOf(e, 0, nodes);
      assert t.Up(e, 0) && !t.Up(e, hole);
      assert !running[e * nodes + hole] && running[HeadIndex(e * nodes + hole, nodes)];
    }
  }

  /** The health monitor of a group whose thread runs beside the recoveries. */
  class HealthMonitor {
    const group: ServerGroup
    var victim: Option<nat>
    var cleared: nat
    ghost var thread: Thread

    ghost predicate Valid()
      reads this, group
    {
      && group.Valid() && !group.inactive && thread.victim == victim && thread.cleared == cleared
      && thread.Valid(group.topo.NodesPerEngine()) && thread.Explains(group.running, group.topo.NodesPerEngine())
      && |group.running| == |thread.kept| * group.topo.NodesPerEngine()
    }

    constructor (group: ServerGroup)
      requires group.Valid() && !group.inactive && AllRunning(group.running)
      ensures Valid() && this.group == group && thread.victim == None
      ensures thread == thread.Recovered(group.topo.NodesPerEngine())
    {
      var nodes := group.topo.NodesPerEngine();
      this.group, victim, cleared := group, None, 0;
      ghost var t := Thread(None, 0, 0, seq(|group.running| / nodes, _ => nodes));
      thread := t;
      new;
      AllPlaces(t, group.running, nodes);
      RecoveryStep(t, group.running, nodes);
    }

    /** A check of an engine failed: `_kill_engine` begins. */
    method BeginKill(id: nat)
      requires Valid() && victim == None && id < |thread.kept|
      modifies this
      ensures Valid() && thread == old(thread).Begin(id)
    {
      BeginStep(thread, group.running, group.topo.NodesPerEngine(), id);
      victim, cleared, thread := Some(id), 0, thread.Begin(id);
    }

    /** One round of the loop of `_kill_engine`: the next node is shut down and its place cleared. */
    method ClearNode()
      requires Valid() && victim.Some?
      modifies this, group`running
      ensures Valid() && thread == old(thread).Clear(group.topo.NodesPerEngine())
    {
      var nodes := group.topo.NodesPerEngine();
      SlotInBlocks(victim.value, cleared, |thread.kept|, nodes);
      ClearStep(thread, group.running, nodes);
      group.running := group.running[victim.value * nodes + cleared := false];
      thread := thread.Clear(nodes);
      cleared := cleared + 1;
      if cleared == nodes { victim, cleared := None, 0; }
    }

    /** A recovery of the group between two steps of the thread: pausing the monitor does not wait for its kill. */
    method Recovery(free: Ports, dpSize: nat) returns (failed: bool)
      requires Valid() && NeverFull(free)
      modifies this`thread, group
      ensures Valid() && AllRunning(group.running) && thread == old(thread).Recovered(group.topo.NodesPerEngine())
      ensures failed <==> exists e :: 0 <= e < |old(thread.kept)| && old(thread).Caught(e, group.topo.NodesPerEngine())
    {
      var nodes := group.topo.NodesPerEngine();
      TornExactlyIfCaught(thread, group.running, nodes);
      var s := group.StartEngines(map[], free, dpSize);
      RecoveryStep(thread, group.running, nodes);
      thread := thread.Recovered(nodes);
      failed := s.failed;
    }
  }

  lemma {:induction false} AllPlaces(t: Thread, running: seq<bool>, nodes: nat)
    requires nodes > 0 && |running| % nodes == 0 && |t.kept| == |running| / nodes
    ensures |running| == |t.kept| * nodes && forall i :: 0 <= i < |running| ==> EngineOf(i, nodes) < |t.kept|
  {
    forall i | 0 <= i < |running| ensures EngineOf(i, nodes) < |t.kept| {
      EngineRange(i, EngineOf(i, nodes), nodes);
      MulStrict(|t.kept|, EngineOf(i, nodes) + 1, nodes);
      MulStrict(EngineOf(i, nodes), |t.kept|, nodes);
    }
  }

  /** What happens to a group, one step after another. */
  datatype Step = Begin(id: nat) | Clear | Recovery(free: Ports)

  /** No kill was ever caught halfway: every engine's first nodes that are up are all of them or none. */
  ghost predicate NeverCaught(t: Thread, nodes: nat) {
    t.caught == 0 && forall e :: 0 <= e < |t.kept| ==> t.kept[e] == 0 || t.kept[e] == nodes
  }

  /** One step; an impossible one, such as clearing a node without a kill, is skipped. */
  ghost function ThreadAfter(t: Thread, step: Step, nodes: nat): Thread {
    match step
    case Begin(id) => if t.victim == None && id < |t.kept| then t.Begin(id) else t
    case Clear => if t.victim.Some? && t.victim.value < |t.kept| then t.Clear(nodes) else t
    case Recovery(_) => t.Recovered(nodes)
  }

  /** The thread after the first `k` steps. */
  ghost function ThreadAt(t: Thread, steps: seq<Step>, nodes: nat, k: nat): Thread
    requires k <= |steps|
  {
    if k == 0 then t else ThreadAfter(ThreadAt(t, steps, nodes, k - 1), steps[k - 1], nodes)
  }

  /** A recovery that finds an engine caught by an earlier one, and a recovery between the nodes of a kill. */
  ghost predicate Fails(t: Thread, step: Step, nodes: nat) {
    step.Recovery? && exists e :: 0 <= e < |t.kept| && t.Caught(e, nodes)
  }

  ghost predicate Halfway(t: Thread, step: Step) { step.Recovery? && t.Between() }

  method Advance(monitor: HealthMonitor, step: Step, dpSize: nat) returns (failed: bool, halfway: bool)
    requires monitor.Valid() && (step.Recovery? ==> NeverFull(step.free))
    modifies monitor, monitor.group
    ensures monitor.Valid()
    ensures monitor.thread == ThreadAfter(old(monitor.thread), step, monitor.group.topo.NodesPerEngine())
    ensures halfway <==> Halfway(old(monitor.thread), step)
    ensures failed <==> Fails(old(monitor.thread), step, monitor.group.topo.NodesPerEngine())
  {
    failed, halfway := false, false;
    match step {
      case Begin(id) =>
        var engines := |monitor.group.running| / monitor.group.topo.NodesPerEngine();
        DivCancel(|monitor.thread.kept|, monitor.group.topo.NodesPerEngine());
        if monitor.victim == None && id < engines { monitor.BeginKill(id); }
      case Clear =>
        if monitor.victim.Some? { monitor.ClearNode(); }
      case Recovery(free) =>
        halfway := monitor.victim.Some? && monitor.cleared > 0;
        failed := monitor.Recovery(free, dpSize);
    }
  }

  ghost predicate FailsAt(t: Thread, steps: seq<Step>, nodes: nat, j: nat)
    requires j < |steps|
  {
    Fails(ThreadAt(t, steps, nodes, j), steps[j], nodes)
  }

  ghost predicate HalfwayAt(t: Thread, steps: seq<Step>, nodes: nat, j: nat)
    requires j < |steps|
  {
    Halfway(ThreadAt(t, steps, nodes, j), steps[j])
  }

  /** Some recovery among the first `k` steps failed, or came halfway. */
  ghost predicate SomeFails(t: Thread, steps: seq<Step>, nodes: nat, k: nat)
    requires k <= |steps|
  {
    exists j: nat :: j < k && FailsAt(t, steps, nodes, j)
  }

  ghost predicate SomeHalfway(t: Thread, steps: seq<Step>, nodes: nat, k: nat)
    requires k <= |steps|
  {
    exists j: nat :: j < k && HalfwayAt(t, steps, nodes, j)
  }

  lemma {:induction false} OneStepMore(t: Thread, steps: seq<Step>, nodes: nat, k: nat)
    requires k < |steps|
    ensures SomeFails(t, steps, nodes, k + 1) <==> SomeFails(t, steps, nodes, k) || FailsAt(t, steps, nodes, k)
    ensures SomeHalfway(t, steps, nodes, k + 1) <==> SomeHalfway(t, steps, nodes, k) || HalfwayAt(t, steps, nodes, k)
  {
  }

  /** A thread that was never caught stays so until a recovery comes halfway, and no recovery fails. */
  lemma {:induction false} NeverCaughtStays(t: Thread, step: Step, nodes: nat)
    requires nodes > 0 && t.Valid(nodes) && NeverCaught(t, nodes) && !Halfway(t, step)
    ensures !Fails(t, step, nodes) && NeverCaught(ThreadAfter(t, step, nodes), nodes)
    ensures ThreadAfter(t, step, nodes).Valid(nodes)
  {
  }

  lemma {:induction false} StillNeverCaught(t: Thread, steps: seq<Step>, nodes: nat, k: nat, now: Thread, next: Thread)
    requires k < |steps| && now == ThreadAt(t, steps, nodes, k) && next == ThreadAt(t, steps, nodes, k + 1)
    requires nodes > 0 && now.Valid(nodes) && NeverCaught(now, nodes) && !HalfwayAt(t, steps, nodes, k)
    ensures !FailsAt(t, steps, nodes, k) && next.Valid(nodes) && NeverCaught(next, nodes)
  {
    NeverCaughtStays(now, steps[k], nodes);
  }

  /** Recoveries that never come halfway through a kill never fail. */
  lemma {:induction false} NeverHalfway(t: Thread, steps: seq<Step>, nodes: nat, k: nat, now: Thread)
    requires nodes > 0 && t.Valid(nodes) && NeverCaught(t, nodes) && k <= |steps| && !SomeHalfway(t, steps, nodes, k)
    requires now == ThreadAt(t, steps, nodes, k)
    ensures !SomeFails(t, steps, nodes, k) && now.Valid(nodes) && NeverCaught(now, nodes)
    decreases k
  {
    if k > 0 {
      var before := ThreadAt(t, steps, nodes, k - 1);
      OneStepMore(t, steps, nodes, k - 1);
      NeverHalfway(t, steps, nodes, k - 1, before);
      StillNeverCaught(t, steps, nodes, k - 1, before, now);
    }
  }

  /**
    Any steps, one after another: which recoveries fail and which come halfway is as the history of the thread says; and
    recoveries that never come halfway through a kill never fail.
   */
  method RunSteps(monitor: HealthMonitor, steps: seq<Step>, dpSize: nat) returns (failed: bool, halfway: bool)
    requires monitor.Valid()
    requires forall k :: 0 <= k < |steps| && steps[k].Recovery? ==> NeverFull(steps[k].free)
    modifies monitor, monitor.group
    ensures monitor.Valid()
    ensures var nodes := monitor.group.topo.NodesPerEngine();
      && monitor.thread == ThreadAt(old(monitor.thread), steps, nodes, |steps|)
      && (failed <==> SomeFails(old(monitor.thread), steps, nodes, |steps|))
      && (halfway <==> SomeHalfway(old(monitor.thread), steps, nodes, |steps|))
      && (NeverCaught(old(monitor.thread), nodes) && !halfway ==> !failed)
  {
    ghost var t, nodes := monitor.thread, monitor.group.topo.NodesPerEngine();
    failed, halfway := false, false;
    for k := 0 to |steps|
      invariant monitor.Valid() && monitor.thread == ThreadAt(t, steps, nodes, k)
      invariant failed <==> SomeFails(t, steps, nodes, k)
      invariant halfway <==> SomeHalfway(t, steps, nodes, k)
    {
      OneStepMore(t, steps, nodes, k);
      var f, h := Advance(monitor, steps[k], dpSize);
      failed, halfway := failed || f, halfway || h;
    }
    if NeverCaught(t, nodes) && !halfway { NeverHalfway(t, steps, nodes, |steps|, monitor.thread); }
  }

  /**
    A recovery, the rest of the kill it came into, and the next recovery: which fails exactly if the first came
    halfway.
   */
  method RecoverAgain(monitor: HealthMonitor, free: Ports, dpSize: nat) returns (failed: bool)
    requires monitor.Valid() && monitor.victim.Some? && NeverFull(free)
    modifies monitor, monitor.group
    ensures monitor.Valid() && (failed <==> old(monitor.thread).Between())
  {
    ghost var nodes, e, before := monitor.group.topo.NodesPerEngine(), monitor.victim.value, monitor.thread;
    var _ := monitor.Recovery(free, dpSize);
    while monitor.victim.Some?
      invariant monitor.Valid() && |monitor.thread.kept| == |before.kept|
      invariant monitor.victim.Some? ==> monitor.victim.value == e && monitor.thread.caught == before.cleared
      invariant forall k :: 0 <= k < |before.kept| ==>
        monitor.thread.kept[k] == if k == e && monitor.victim == None then before.cleared else nodes
      decreases if monitor.victim.Some? then nodes - monitor.cleared else 0
    {
      monitor.ClearNode();
    }
    ghost var after := monitor.thread;
    assert after.Caught(e, nodes) <==> before.cleared > 0;
    failed := monitor.Recovery(free, dpSize);
  }

  /** The smallest case: one engine on two nodes, a recovery between them, and what the next recovery finds. */
  method CaughtHalfway(free: Ports, dpSize: nat) returns (running: seq<bool>, failed: bool)
    requires NeverFull(free)
    ensures running == [true, false] && failed
  {
    var group := new ServerGroup(Topology(16, 8), 2, 0, false, false);
    var _ := group.StartEngines(map[], free, dpSize);
    var monitor := new HealthMonitor(group);
    assert monitor.thread.kept == [2];
    monitor.BeginKill(0);
    monitor.ClearNode();
    var _ := monitor.Recovery(free, dpSize);
    monitor.ClearNode();
    OneOfTwo(monitor.thread, group.running);
    running := group.running;
    failed := monitor.Recovery(free, dpSize);
  }

  lemma {:induction false} OneOfTwo(t: Thread, running: seq<bool>)
    requires t.victim == None && t.kept == [1] && |running| == 2 && t.Explains(running, 2)
    ensures running == [true, false] && t.Caught(0, 2)
  {
    assert running[0] <==> t.Up(EngineOf(0, 2), 0 % 2);
    assert running[1] <==> t.Up(EngineOf(1, 2), 1 % 2);
  }
}
