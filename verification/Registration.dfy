/** The node and address tables and what the control plane does to them: the meaning of each statement
    and call (control-plane/db/node_repo.go, control-plane/db/metrics_repo.go,
    control-plane/service/node_service.go), and what every run of calls keeps. A call is one step; the
    statements inside it may fail. */
module Registration {
  import opened Common

  type NodeId = nat

  /** A row of the nodes table, less what no invariant needs. `deviceId` is NULL for exit nodes and relays. */
  datatype NodeRow = NodeRow(account: string, name: string, deviceId: Option<string>, publicKey: string,
                             ip: nat, lastSeen: Option<int>, createdAt: int)

  /** `ips` is ip_allocations: deleting a node sets its node_id to NULL and keeps the row. */
  datatype Tables = Tables(nodes: map<NodeId, NodeRow>, ips: map<nat, Option<NodeId>>)

  /** The mesh network: `size` addresses from `base` on. */
  datatype Network = Network(base: nat, size: nat)

  datatype Request = Request(name: string, deviceId: string, publicKey: string)

  datatype Registered = Registered(nodeId: NodeId, ip: nat)

  datatype RegisterError =
    DeviceAlreadyLinked | UpdateFailed | CountFailed | DeviceLimitReached | NoAddress | CreateFailed

  /** The statements that fail during one registration. */
  datatype Faults = Faults(find: bool, update: bool, sweep: bool, count: bool, findIp: bool, create: bool, assign: bool)

  /** One registration: `id` is the key a new row would get, `row` the one the lookup lists first. */
  datatype Attempt = Attempt(account: string, req: Request, id: NodeId, row: NodeId, now: int, faults: Faults)

  const MAX_DEVICES_PER_ACCOUNT := 20

  // ---- Statements ----

  /** An address of the network that is neither its first nor its last. */
  predicate IsHost(net: Network, ip: nat) {
    net.base < ip < net.base + net.size - 1
  }

  /** No node has the address and no allocation row mentions it. */
  predicate Available(net: Network, t: Tables, ip: nat) {
    IsHost(net, ip) && ip !in t.ips && forall id :: id in t.nodes ==> t.nodes[id].ip != ip
  }

  predicate HasKey(t: Tables, key: string) {
    exists id :: id in t.nodes && t.nodes[id].publicKey == key
  }

  /** A row other than `id` has the key. */
  predicate KeyTaken(t: Tables, id: NodeId, key: string) {
    exists k :: k in t.nodes && k != id && t.nodes[k].publicKey == key
  }

  predicate Linked(t: Tables, id: NodeId, device: string) {
    id in t.nodes && t.nodes[id].deviceId == Some(device)
  }

  /** ORDER BY last_seen DESC NULLS LAST, created_at DESC: `a` sorts strictly before `b`. */
  predicate Fresher(a: NodeRow, b: NodeRow) {
    match (a.lastSeen, b.lastSeen)
    case (Some(x), Some(y)) => x > y || (x == y && a.createdAt > b.createdAt)
    case (Some(_), None) => true
    case (None, Some(_)) => false
    case (None, None) => a.createdAt > b.createdAt
  }

  ghost predicate IsLatest(t: Tables, device: string, id: NodeId) {
    Linked(t, id, device) && forall k :: Linked(t, k, device) ==> !Fresher(t.nodes[k], t.nodes[id])
  }

  function DevicesOf(t: Tables, account: string): set<NodeId> {
    set id | id in t.nodes && t.nodes[id].account == account && t.nodes[id].deviceId.Some?
  }

  function Rewritten(t: Tables, id: NodeId, account: string, req: Request, now: int): Tables
    requires id in t.nodes
  {
    t.(nodes := t.nodes[id := t.nodes[id].(account := account, name := req.name, publicKey := req.publicKey,
                                           lastSeen := Some(now))])
  }

  function Deleted(t: Tables, ids: set<NodeId>): Tables {
    Tables(t.nodes - ids,
           map ip | ip in t.ips :: if t.ips[ip].Some? && t.ips[ip].value in ids then None else t.ips[ip])
  }

  function Released(t: Tables, id: NodeId): Tables {
    t.(ips := map ip | ip in t.ips && t.ips[ip] != Some(id) :: t.ips[ip])
  }

  function Ghosts(t: Tables, device: string, keep: NodeId): set<NodeId> {
    set id | id in t.nodes && Linked(t, id, device) && id != keep
  }

  predicate IsStale(n: NodeRow, cutoff: int) {
    if n.lastSeen.Some? then n.lastSeen.value < cutoff else n.createdAt < cutoff
  }

  function Stale(t: Tables, cutoff: int): set<NodeId> {
    set id | id in t.nodes && IsStale(t.nodes[id], cutoff)
  }

  // ---- Calls ----

  function NewRow(account: string, req: Request, ip: nat, now: int): NodeRow {
    NodeRow(account, req.name, if req.deviceId == "" then None else Some(req.deviceId), req.publicKey, ip, None, now)
  }

  /** A new node at a free address; recording the allocation may fail and is not retried. */
  ghost predicate Creates(net: Network, t: Tables, a: Attempt, ip: nat, t': Tables) {
    && a.id !in t.nodes && Available(net, t, ip)
    && t' == Tables(t.nodes[a.id := NewRow(a.account, a.req, ip, a.now)],
                    if a.faults.assign then t.ips else t.ips[ip := Some(a.id)])
  }

  /** The device's first row rewritten in place, its other rows swept if that works. */
  ghost predicate Reregisters(t: Tables, a: Attempt, t': Tables) {
    && IsLatest(t, a.req.deviceId, a.row)
    && var u := Rewritten(t, a.row, a.account, a.req, a.now);
       t' == if a.faults.sweep then u else Deleted(u, Ghosts(u, a.req.deviceId, a.row))
  }

  /** A row for the request's device turns up. */
  ghost predicate Known(t: Tables, a: Attempt) {
    a.req.deviceId != "" && !a.faults.find && exists k :: Linked(t, k, a.req.deviceId)
  }

  /** The row that turned up may not be moved to this account. */
  predicate Barred(antifraud: bool, t: Tables, a: Attempt) {
    antifraud && a.row in t.nodes && t.nodes[a.row].account != a.account
  }

  predicate UpdateWorks(t: Tables, a: Attempt) {
    !a.faults.update && !KeyTaken(t, a.row, a.req.publicKey)
  }

  predicate WithinCap(t: Tables, a: Attempt) {
    a.req.deviceId == "" || (!a.faults.count && |DevicesOf(t, a.account)| < MAX_DEVICES_PER_ACCOUNT)
  }

  ghost predicate AddressFound(net: Network, t: Tables, a: Attempt) {
    !a.faults.findIp && exists ip :: Available(net, t, ip)
  }

  ghost predicate CreateWorks(t: Tables, a: Attempt) {
    !a.faults.create && !HasKey(t, a.req.publicKey)
  }

  /** The registration takes the creating branch and gets through it. */
  ghost predicate Admits(net: Network, t: Tables, a: Attempt) {
    !Known(t, a) && WithinCap(t, a) && AddressFound(net, t, a) && CreateWorks(t, a)
  }

  /** The registration takes the rewriting branch and gets through it. */
  ghost predicate Accepts(antifraud: bool, t: Tables, a: Attempt) {
    Known(t, a) && !Barred(antifraud, t, a) && UpdateWorks(t, a)
  }

  /** When each error is the answer. */
  ghost predicate Fails(net: Network, antifraud: bool, t: Tables, a: Attempt, e: RegisterError) {
    match e
    case DeviceAlreadyLinked => Known(t, a) && Barred(antifraud, t, a)
    case UpdateFailed => Known(t, a) && !Barred(antifraud, t, a) && !UpdateWorks(t, a)
    case CountFailed => !Known(t, a) && a.req.deviceId != "" && a.faults.count
    case DeviceLimitReached => !Known(t, a) && !WithinCap(t, a) && !a.faults.count
    case NoAddress => !Known(t, a) && WithinCap(t, a) && !AddressFound(net, t, a)
    case CreateFailed => !Known(t, a) && WithinCap(t, a) && AddressFound(net, t, a) && !CreateWorks(t, a)
  }

  /** What one registration does and answers: tables and faults decide which branch it ends in. */
  ghost predicate Registers(net: Network, antifraud: bool, t: Tables, a: Attempt, t': Tables,
                            r: Result<Registered, RegisterError>)
  {
    && a.id !in t.nodes && (Known(t, a) ==> IsLatest(t, a.req.deviceId, a.row))
    && match r
       case Ok(reg) =>
         || (Accepts(antifraud, t, a) && Reregisters(t, a, t') && reg == Registered(a.row, t.nodes[a.row].ip))
         || (Admits(net, t, a) && Creates(net, t, a, reg.ip, t') && reg.nodeId == a.id)
       case Err(e) => Fails(net, antifraud, t, a, e) && t' == t
  }

  /** Each registration succeeds or fails, and fails for one reason. */
  lemma OutcomeIsDecided(net: Network, antifraud: bool, t: Tables, a: Attempt, e: RegisterError, f: RegisterError)
    ensures (Accepts(antifraud, t, a) || Admits(net, t, a)) <==> forall d :: !Fails(net, antifraud, t, a, d)
    ensures Fails(net, antifraud, t, a, e) && Fails(net, antifraud, t, a, f) ==> e == f
  {
    if !Accepts(antifraud, t, a) && !Admits(net, t, a) {
      assert Fails(net, antifraud, t, a, DeviceAlreadyLinked) || Fails(net, antifraud, t, a, UpdateFailed)
          || Fails(net, antifraud, t, a, CountFailed) || Fails(net, antifraud, t, a, DeviceLimitReached)
          || Fails(net, antifraud, t, a, NoAddress) || Fails(net, antifraud, t, a, CreateFailed);
    }
  }

  ghost predicate Deregisters(t: Tables, id: NodeId, releaseFails: bool, deleteFails: bool, t': Tables) {
    var u := if releaseFails then t else Released(t, id);
    t' == if deleteFails then u else Deleted(u, {id})
  }

  datatype Call =
    | Register(a: Attempt, r: Result<Registered, RegisterError>)
    | Deregister(node: NodeId, releaseFails: bool, deleteFails: bool)
    | Sweep(cutoff: int, sweepFails: bool)
    | Heartbeat(node: NodeId, now: int)

  ghost predicate Step(net: Network, antifraud: bool, t: Tables, c: Call, t': Tables) {
    match c
    case Register(a, r) => Registers(net, antifraud, t, a, t', r)
    case Deregister(id, releaseFails, deleteFails) => Deregisters(t, id, releaseFails, deleteFails, t')
    case Sweep(cutoff, fails) => t' == if fails then t else Deleted(t, Stale(t, cutoff))
    case Heartbeat(id, now) =>
      t' == if id in t.nodes then t.(nodes := t.nodes[id := t.nodes[id].(lastSeen := Some(now))]) else t
  }

  ghost predicate IsRun(net: Network, antifraud: bool, run: seq<Tables>, calls: seq<Call>) {
    && |run| == |calls| + 1 && run[0] == Tables(map[], map[])
    && forall k :: 0 <= k < |calls| ==> Step(net, antifraud, run[k], calls[k], run[k + 1])
  }

  // ---- Addresses ----

  ghost predicate DistinctIps(t: Tables) {
    forall a, b :: a in t.nodes && b in t.nodes && t.nodes[a].ip == t.nodes[b].ip ==> a == b
  }

  /** An allocation row is its node's, or nobody's; an address nobody's row holds is nobody's. */
  ghost predicate AllocationOk(net: Network, t: Tables, ip: nat)
    requires ip in t.ips
  {
    && IsHost(net, ip)
    && match t.ips[ip]
       case Some(id) => id in t.nodes && t.nodes[id].ip == ip
       case None => forall id :: id in t.nodes ==> t.nodes[id].ip != ip
  }

  ghost predicate AddressesOk(net: Network, t: Tables) {
    && DistinctIps(t)
    && (forall id :: id in t.nodes ==> IsHost(net, t.nodes[id].ip))
    && (forall ip :: ip in t.ips ==> AllocationOk(net, t, ip))
  }

  lemma DeleteKeepsAddresses(net: Network, t: Tables, ids: set<NodeId>)
    requires AddressesOk(net, t)
    ensures AddressesOk(net, Deleted(t, ids))
  {
  }

  lemma RewriteKeepsAddresses(net: Network, t: Tables, id: NodeId, row: NodeRow)
    requires AddressesOk(net, t) && id in t.nodes && row.ip == t.nodes[id].ip
    ensures AddressesOk(net, t.(nodes := t.nodes[id := row]))
  {
  }

  lemma CreateKeepsAddresses(net: Network, t: Tables, a: Attempt, ip: nat, t': Tables)
    requires AddressesOk(net, t) && Creates(net, t, a, ip, t')
    ensures AddressesOk(net, t')
  {
  }

  /** A created node takes its address and no other out of supply, even if the allocation is not recorded:
      that is why a free address must be missing from both tables. */
  lemma CreationTakesAddress(net: Network, t: Tables, a: Attempt, ip: nat, t': Tables)
    requires Creates(net, t, a, ip, t')
    ensures forall b :: Available(net, t', b) <==> Available(net, t, b) && b != ip
  {
    assert t'.nodes[a.id].ip == ip;
    assert forall id :: id in t.nodes ==> id in t'.nodes && t'.nodes[id] == t.nodes[id];
  }

  lemma ReleaseKeepsAddresses(net: Network, t: Tables, id: NodeId)
    requires AddressesOk(net, t)
    ensures AddressesOk(net, Released(t, id))
  {
  }

  lemma StepKeepsAddresses(net: Network, antifraud: bool, t: Tables, c: Call, t': Tables)
    requires AddressesOk(net, t) && Step(net, antifraud, t, c, t')
    ensures AddressesOk(net, t')
  {
    match c
    case Register(a, Ok(reg)) =>
      if Accepts(antifraud, t, a) {
        var u := Rewritten(t, a.row, a.account, a.req, a.now);
        RewriteKeepsAddresses(net, t, a.row, u.nodes[a.row]);
        DeleteKeepsAddresses(net, u, Ghosts(u, a.req.deviceId, a.row));
      } else {
        CreateKeepsAddresses(net, t, a, reg.ip, t');
      }
    case Register(_, Err(_)) =>
    case Deregister(id, releaseFails, deleteFails) =>
      ReleaseKeepsAddresses(net, t, id);
      DeleteKeepsAddresses(net, t, {id});
      DeleteKeepsAddresses(net, Released(t, id), {id});
    case Sweep(cutoff, fails) => DeleteKeepsAddresses(net, t, Stale(t, cutoff));
    case Heartbeat(id, now) =>
      if id in t.nodes {
        RewriteKeepsAddresses(net, t, id, t'.nodes[id]);
      }
  }

  /** Over every run, whatever fails: no two nodes share a mesh address, and none has the network or
      the broadcast address. */
  lemma {:induction false} LiveAddressesAreDistinct(net: Network, antifraud: bool, run: seq<Tables>, calls: seq<Call>,
                                                    k: nat)
    requires IsRun(net, antifraud, run, calls) && k < |run|
    ensures AddressesOk(net, run[k])
    ensures forall id :: id in run[k].nodes ==> net.base < run[k].nodes[id].ip < net.base + net.size - 1
  {
    if k > 0 {
      LiveAddressesAreDistinct(net, antifraud, run, calls, k - 1);
      StepKeepsAddresses(net, antifraud, run[k - 1], calls[k - 1], run[k]);
    }
  }

  // ---- Orphaned addresses ----

  /** The address is held by an allocation row whose node is gone. */
  predicate Orphaned(t: Tables, ip: nat) {
    ip in t.ips && t.ips[ip].None?
  }

  /** Nothing ever takes an orphaned allocation row away or gives it a node again. */
  lemma OrphansStay(net: Network, antifraud: bool, t: Tables, c: Call, t': Tables, ip: nat)
    requires Step(net, antifraud, t, c, t') && Orphaned(t, ip)
    ensures Orphaned(t', ip)
  {
  }

  /** So an address once orphaned is lost to the network for good: in every later state no node has it
      and none can be given it. */
  lemma {:induction false} OrphanedForGood(net: Network, antifraud: bool, run: seq<Tables>, calls: seq<Call>, j: nat,
                                           k: nat, ip: nat)
    requires IsRun(net, antifraud, run, calls) && j <= k < |run| && Orphaned(run[j], ip)
    ensures Orphaned(run[k], ip) && !Available(net, run[k], ip)
    ensures forall id :: id in run[k].nodes ==> run[k].nodes[id].ip != ip
  {
    LiveAddressesAreDistinct(net, antifraud, run, calls, k);
    if j < k {
      OrphanedForGood(net, antifraud, run, calls, j, k - 1, ip);
      OrphansStay(net, antifraud, run[k - 1], calls[k - 1], run[k], ip);
    }
    assert AllocationOk(net, run[k], ip);
  }

  /** The nodes a call deletes. */
  ghost function DeletedBy(antifraud: bool, t: Tables, c: Call): set<NodeId> {
    match c
    case Register(a, _) =>
      if Accepts(antifraud, t, a) && !a.faults.sweep then Ghosts(t, a.req.deviceId, a.row) else {}
    case Deregister(id, _, deleteFails) => if deleteFails then {} else {id}
    case Sweep(cutoff, fails) => if fails then {} else Stale(t, cutoff)
    case Heartbeat(_, _) => {}
  }

  predicate ReleasesFirst(c: Call) {
    c.Deregister? && !c.releaseFails
  }

  lemma RegisterTables(net: Network, antifraud: bool, t: Tables, a: Attempt, t': Tables, r: Result<Registered,
                       RegisterError>)
    requires Registers(net, antifraud, t, a, t', r)
    ensures Accepts(antifraud, t, a) ==> r.Ok? && Reregisters(t, a, t')
    ensures Accepts(antifraud, t, a) ==> Ghosts(Rewritten(t, a.row, a.account, a.req, a.now), a.req.deviceId, a.row)
                                         == Ghosts(t, a.req.deviceId, a.row)
    ensures Admits(net, t, a) ==> r.Ok? && Creates(net, t, a, r.value.ip, t')
    ensures !Accepts(antifraud, t, a) && !Admits(net, t, a) ==> t' == t
  {
  }

  /** Exactly when an address is lost: its node is deleted without having been released first, be it by
      the stale sweep, by a deregistration whose release failed, or as a ghost of a device. */
  lemma StepOrphansIff(net: Network, antifraud: bool, t: Tables, c: Call, t': Tables, ip: nat)
    requires Step(net, antifraud, t, c, t')
    ensures Orphaned(t', ip) <==>
      || Orphaned(t, ip)
      || (ip in t.ips && t.ips[ip].Some? && t.ips[ip].value in DeletedBy(antifraud, t, c) && !ReleasesFirst(c))
  {
    if c.Register? {
      RegisterTables(net, antifraud, t, c.a, t', c.r);
      hide Registers, Admits, Accepts, IsLatest;
    }
  }

  /** An address held in `t` is free in `t'`, where the nodes `gone` are missing, exactly if its node is one
      of those and no allocation row mentions it. */
  lemma FreedIff(net: Network, t: Tables, gone: set<NodeId>, t': Tables, ip: nat)
    requires DistinctIps(t) && IsHost(net, ip) && !Available(net, t, ip)
    requires t'.nodes.Keys == t.nodes.Keys - gone && forall k :: k in t'.nodes ==> t'.nodes[k].ip == t.nodes[k].ip
    requires ip !in t.ips ==> ip !in t'.ips
    ensures Available(net, t', ip) <==>
              ip !in t'.ips && forall id :: id in t.nodes && t.nodes[id].ip == ip ==> id in gone
    ensures ip !in t.ips ==> exists id :: id in t.nodes && t.nodes[id].ip == ip
  {
    assert forall id :: id in t.nodes ==> id in t'.nodes || id in gone;
  }

  /** Exactly when an address comes back: the node that has it is deleted, and its allocation row, if it
      has one, was released first, as only a deregistration does. */
  lemma StepFreesIff(net: Network, antifraud: bool, t: Tables, c: Call, t': Tables, ip: nat)
    requires AddressesOk(net, t) && Step(net, antifraud, t, c, t') && IsHost(net, ip) && !Available(net, t, ip)
    ensures Available(net, t', ip) <==>
      exists id :: id in t.nodes && id in DeletedBy(antifraud, t, c) && t.nodes[id].ip == ip
                   && (ip in t.ips ==> ReleasesFirst(c))
  {
    if c.Register? && Admits(net, t, c.a) {
      RegisterTables(net, antifraud, t, c.a, t', c.r);
      hide Admits, Registers;
      CreationTakesAddress(net, t, c.a, c.r.value.ip, t');
    } else {
      OtherNodes(net, antifraud, t, c, t', ip);
      FreedIff(net, t, DeletedBy(antifraud, t, c), t', ip);
      if ip in t.ips {
        assert AllocationOk(net, t, ip);
      }
      hide Step, DeletedBy;
    }
  }

  lemma OtherNodes(net: Network, antifraud: bool, t: Tables, c: Call, t': Tables, ip: nat)
    requires Step(net, antifraud, t, c, t') && !(c.Register? && Admits(net, t, c.a))
    ensures t'.nodes.Keys == t.nodes.Keys - DeletedBy(antifraud, t, c)
    ensures forall k :: k in t'.nodes ==> t'.nodes[k].ip == t.nodes[k].ip
    ensures ip in t'.ips <==> ip in t.ips && !(ReleasesFirst(c) && t.ips[ip] == Some(c.node))
    ensures c.Deregister? ==> DeletedBy(antifraud, t, c) == if c.deleteFails then {} else {c.node}
  {
    if c.Register? {
      RegisterTables(net, antifraud, t, c.a, t', c.r);
      hide Registers, Admits, Accepts, IsLatest;
    }
  }

  /** The node's own deregistration gives its address back, provided both statements work. */
  lemma DeregistrationFrees(net: Network, t: Tables, id: NodeId, t': Tables)
    requires AddressesOk(net, t) && id in t.nodes && Deregisters(t, id, false, false, t')
    ensures Available(net, t', t.nodes[id].ip)
  {
    StepFreesIff(net, false, t, Deregister(id, false, false), t', t.nodes[id].ip);
  }

  /** The stale sweep orphans exactly the recorded addresses of the nodes it deletes. */
  lemma SweepOrphans(net: Network, t: Tables, cutoff: int, id: NodeId)
    requires AddressesOk(net, t) && id in Stale(t, cutoff)
    ensures var t' := Deleted(t, Stale(t, cutoff));
            && (Orphaned(t', t.nodes[id].ip) <==> t.nodes[id].ip in t.ips)
            && (Available(net, t', t.nodes[id].ip) <==> t.nodes[id].ip !in t.ips)
  {
    var ip, t' := t.nodes[id].ip, Deleted(t, Stale(t, cutoff));
    if ip in t.ips {
      assert AllocationOk(net, t, ip);
    }
    StepOrphansIff(net, false, t, Sweep(cutoff, false), t', ip);
    StepFreesIff(net, false, t, Sweep(cutoff, false), t', ip);
  }

  // ---- Devices ----

  ghost predicate UniqueDevices(t: Tables) {
    forall a, b, d :: Linked(t, a, d) && Linked(t, b, d) ==> a == b
  }

  lemma CreationKeepsDevicesIff(net: Network, t: Tables, a: Attempt, ip: nat, t': Tables)
    requires UniqueDevices(t) && Creates(net, t, a, ip, t')
    ensures UniqueDevices(t') <==> a.req.deviceId == "" || forall k :: !Linked(t, k, a.req.deviceId)
  {
    forall k, d | k != a.id ensures Linked(t', k, d) <==> Linked(t, k, d) {
    }
    assert a.req.deviceId != "" ==> Linked(t', a.id, a.req.deviceId);
    if k :| a.req.deviceId != "" && Linked(t, k, a.req.deviceId) {
      assert Linked(t', k, a.req.deviceId) && k != a.id;
    }
  }

  /** The device has a row, the lookup fails to say so, and the registration goes through. */
  ghost predicate Duplicates(net: Network, t: Tables, c: Call) {
    c.Register? && c.a.faults.find && (exists k :: Linked(t, k, c.a.req.deviceId)) && Admits(net, t, c.a)
    && c.a.req.deviceId != ""
  }

  lemma OthersKeepDevices(net: Network, antifraud: bool, t: Tables, c: Call, t': Tables)
    requires UniqueDevices(t) && Step(net, antifraud, t, c, t') && !(c.Register? && Admits(net, t, c.a))
    ensures UniqueDevices(t')
  {
    hide Admits;
    assert forall a, d :: Linked(t', a, d) ==> Linked(t, a, d);
  }

  /** Every call keeps at most one row per device, but for a registration that would go through on an
      unknown device and whose lookup fails though the device has a row. */
  lemma StepKeepsDevicesIff(net: Network, antifraud: bool, t: Tables, c: Call, t': Tables)
    requires UniqueDevices(t) && Step(net, antifraud, t, c, t')
    ensures UniqueDevices(t') <==> !Duplicates(net, t, c)
  {
    if c.Register? && Admits(net, t, c.a) {
      RegisterTables(net, antifraud, t, c.a, t', c.r);
      CreationKeepsDevicesIff(net, t, c.a, c.r.value.ip, t');
    } else {
      OthersKeepDevices(net, antifraud, t, c, t');
    }
  }

  /** From empty tables, while no lookup fails, there is never more than one row per device. */
  lemma {:induction false} OneRowPerDevice(net: Network, antifraud: bool, run: seq<Tables>, calls: seq<Call>, k: nat)
    requires IsRun(net, antifraud, run, calls) && k < |run|
    requires forall i :: 0 <= i < k && calls[i].Register? ==> !calls[i].a.faults.find
    ensures UniqueDevices(run[k])
  {
    if k > 0 {
      OneRowPerDevice(net, antifraud, run, calls, k - 1);
      StepKeepsDevicesIff(net, antifraud, run[k - 1], calls[k - 1], run[k]);
    }
  }

  // ---- Accounts ----

  ghost predicate Capped(t: Tables) {
    forall a :: |DevicesOf(t, a)| <= MAX_DEVICES_PER_ACCOUNT
  }

  lemma Subset(a: set<NodeId>, b: set<NodeId>)
    requires a <= b
    ensures |a| <= |b|
  {
    if a != b {
      var x :| x in b && x !in a;
      assert a <= b - {x};
      Subset(a, b - {x});
    }
  }

  lemma AccountsStay(net: Network, t: Tables, c: Call, t': Tables, id: NodeId)
    requires Step(net, true, t, c, t') && id in t.nodes && id in t'.nodes
    ensures t'.nodes[id].account == t.nodes[id].account && t'.nodes[id].deviceId == t.nodes[id].deviceId
  {
  }

  /** With antifraud on, a row keeps its account and its device for as long as it lives. */
  lemma {:induction false} AccountsStayForLife(net: Network, run: seq<Tables>, calls: seq<Call>, j: nat, k: nat,
                                               id: NodeId)
    requires IsRun(net, true, run, calls) && j <= k < |run| && forall m :: j <= m <= k ==> id in run[m].nodes
    ensures run[k].nodes[id].account == run[j].nodes[id].account
    ensures run[k].nodes[id].deviceId == run[j].nodes[id].deviceId
  {
    if j < k {
      AccountsStayForLife(net, run, calls, j, k - 1, id);
      AccountsStay(net, run[k - 1], calls[k - 1], run[k], id);
    }
  }

  lemma NoNewDevices(t: Tables, t': Tables, a: string)
    requires DevicesOf(t', a) <= DevicesOf(t, a)
    ensures |DevicesOf(t', a)| <= |DevicesOf(t, a)|
  {
    Subset(DevicesOf(t', a), DevicesOf(t, a));
  }

  /** With antifraud on, no call, whatever fails in it, takes an account past its twenty devices. */
  lemma StepKeepsCap(net: Network, t: Tables, c: Call, t': Tables)
    requires Capped(t) && Step(net, true, t, c, t')
    ensures Capped(t')
  {
    forall a ensures |DevicesOf(t', a)| <= MAX_DEVICES_PER_ACCOUNT {
      if c.Register? && Admits(net, t, c.a) {
        RegisterTables(net, true, t, c.a, t', c.r);
        CreationDevices(net, t, c.a, c.r.value.ip, t', a);
      } else {
        OldRowsOnly(net, t, c, t', a);
        NoNewDevices(t, t', a);
      }
    }
  }

  lemma CreationDevices(net: Network, t: Tables, a: Attempt, ip: nat, t': Tables, account: string)
    requires Creates(net, t, a, ip, t')
    ensures |DevicesOf(t', account)| ==
            |DevicesOf(t, account)| + if account == a.account && a.req.deviceId != "" then 1 else 0
  {
    if account == a.account && a.req.deviceId != "" {
      assert DevicesOf(t', account) == DevicesOf(t, account) + {a.id};
    } else {
      assert DevicesOf(t', account) == DevicesOf(t, account);
    }
  }

  lemma OldRowsOnly(net: Network, t: Tables, c: Call, t': Tables, a: string)
    requires Step(net, true, t, c, t') && !(c.Register? && Admits(net, t, c.a))
    ensures DevicesOf(t', a) <= DevicesOf(t, a)
  {
    forall id | id in DevicesOf(t', a) ensures id in DevicesOf(t, a) {
      assert id in t.nodes;
      AccountsStay(net, t, c, t', id);
    }
  }

  lemma {:induction false} DeviceCapHolds(net: Network, run: seq<Tables>, calls: seq<Call>, k: nat)
    requires IsRun(net, true, run, calls) && k < |run|
    ensures Capped(run[k]) && forall a :: |DevicesOf(run[k], a)| <= 20
  {
    if k == 0 {
      forall a ensures |DevicesOf(run[0], a)| == 0 {
        assert DevicesOf(run[0], a) == {};
      }
    } else {
      DeviceCapHolds(net, run, calls, k - 1);
      StepKeepsCap(net, run[k - 1], calls[k - 1], run[k]);
    }
  }

  /** With antifraud off, moving a device to another account keeps the cap exactly when that account has
      room, not counting rows of the device that the move sweeps from it: the move does not look. */
  lemma MigrationKeepsCapIff(t: Tables, a: Attempt, t': Tables)
    requires Capped(t) && Reregisters(t, a, t') && t.nodes[a.row].account != a.account
    ensures var swept := if a.faults.sweep then {} else Ghosts(t, a.req.deviceId, a.row);
            Capped(t') <==> |DevicesOf(t, a.account) - swept| < MAX_DEVICES_PER_ACCOUNT
  {
    var swept := if a.faults.sweep then {} else Ghosts(t, a.req.deviceId, a.row);
    MovedDevices(t, a, t');
    assert a.row !in DevicesOf(t, a.account);
    forall b | b != a.account ensures |DevicesOf(t', b)| <= MAX_DEVICES_PER_ACCOUNT {
      NoNewDevices(t, t', b);
    }
  }

  lemma MovedDevices(t: Tables, a: Attempt, t': Tables)
    requires Reregisters(t, a, t')
    ensures var swept := if a.faults.sweep then {} else Ghosts(t, a.req.deviceId, a.row);
            DevicesOf(t', a.account) == DevicesOf(t, a.account) - swept + {a.row}
    ensures forall b :: b != a.account ==> DevicesOf(t', b) <= DevicesOf(t, b)
  {
    ReregistrationKeepsRow(t, a, t');
    hide Reregisters, Rewritten, Deleted, Fresher;
  }

  /** A device registered again keeps its row: same key, address and device, now this account's. Rows of
      other devices are untouched, and its own others are gone exactly if sweeping them works. */
  lemma ReregistrationKeepsRow(t: Tables, a: Attempt, t': Tables)
    requires Reregisters(t, a, t')
    ensures a.row in t'.nodes && t'.nodes[a.row].ip == t.nodes[a.row].ip && t'.nodes[a.row].account == a.account
    ensures Linked(t', a.row, a.req.deviceId)
    ensures forall k :: k in t'.nodes && k != a.row ==> k in t.nodes && t'.nodes[k] == t.nodes[k]
    ensures forall k :: k in t.nodes && k != a.row ==>
              (k in t'.nodes <==> a.faults.sweep || !Linked(t, k, a.req.deviceId))
  {
  }

  /** After a registration that went through, the row of the answered ID is the request's: its name, key and
      account, at the address answered. A row that was there keeps its address, device and age and counts as
      just seen; a new one is for the request's device, not seen yet, and its allocation is recorded unless
      that failed. No other row is written. */
  ghost predicate RowIsRequested(t: Tables, a: Attempt, t': Tables, reg: Registered) {
    && reg.nodeId in t'.nodes
    && var row := t'.nodes[reg.nodeId];
    && row.name == a.req.name && row.publicKey == a.req.publicKey && row.account == a.account && row.ip == reg.ip
    && (if reg.nodeId in t.nodes then
          && row.ip == t.nodes[reg.nodeId].ip && row.deviceId == t.nodes[reg.nodeId].deviceId
          && row.createdAt == t.nodes[reg.nodeId].createdAt && row.lastSeen == Some(a.now)
          && row.deviceId == Some(a.req.deviceId)
        else
          && row.deviceId == (if a.req.deviceId == "" then None else Some(a.req.deviceId))
          && row.createdAt == a.now && row.lastSeen == None
          && (a.faults.assign || (reg.ip in t'.ips && t'.ips[reg.ip] == Some(reg.nodeId))))
    && forall k :: k in t'.nodes && k != reg.nodeId ==> k in t.nodes && t'.nodes[k] == t.nodes[k]
  }

  lemma RegisteredRow(net: Network, antifraud: bool, t: Tables, a: Attempt, t': Tables, reg: Registered)
    requires Registers(net, antifraud, t, a, t', Ok(reg))
    ensures RowIsRequested(t, a, t', reg)
  {
    hide Available, AddressFound, Fresher;
  }

  // ---- Public keys ----

  ghost predicate UniqueKeys(t: Tables) {
    forall a, b :: a in t.nodes && b in t.nodes && t.nodes[a].publicKey == t.nodes[b].publicKey ==> a == b
  }

  /** The unique index refuses exactly the rows that would repeat a key. */
  lemma IndexRefusesIff(t: Tables, id: NodeId, row: NodeRow)
    requires UniqueKeys(t)
    ensures UniqueKeys(t.(nodes := t.nodes[id := row])) <==> !KeyTaken(t, id, row.publicKey)
  {
    var t' := t.(nodes := t.nodes[id := row]);
    if k :| k in t.nodes && k != id && t.nodes[k].publicKey == row.publicKey {
      assert t'.nodes[k] == t.nodes[k] && t'.nodes[id] == row;
    }
  }

  lemma StepKeepsKeys(net: Network, antifraud: bool, t: Tables, c: Call, t': Tables)
    requires UniqueKeys(t) && Step(net, antifraud, t, c, t')
    ensures UniqueKeys(t')
  {
    if c.Register? {
      RegisterTables(net, antifraud, t, c.a, t', c.r);
      if Accepts(antifraud, t, c.a) {
        IndexRefusesIff(t, c.a.row, Rewritten(t, c.a.row, c.a.account, c.a.req, c.a.now).nodes[c.a.row]);
      } else if Admits(net, t, c.a) {
        IndexRefusesIff(t, c.a.id, t'.nodes[c.a.id]);
      }
      hide Registers, Known, IsLatest, AddressFound, Available;
    }
  }

  /** Over every run no two nodes share a public key, so a key names one node at most. */
  lemma {:induction false} KeysAreDistinct(net: Network, antifraud: bool, run: seq<Tables>, calls: seq<Call>, k: nat)
    requires IsRun(net, antifraud, run, calls) && k < |run|
    ensures UniqueKeys(run[k])
  {
    if k > 0 {
      KeysAreDistinct(net, antifraud, run, calls, k - 1);
      StepKeepsKeys(net, antifraud, run[k - 1], calls[k - 1], run[k]);
    }
  }
}
