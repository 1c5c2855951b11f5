/** Registration and deregistration as the control plane runs them, statement by statement
    (control-plane/service/node_service.go), against the tables of Registration. */
module NodeService {
  import opened Common
  import opened Registration

  /** `a` sorting after `b` and `b` strictly before `c` leaves `a` after `c`. */
  lemma FresherIsOrder(a: NodeRow, b: NodeRow, c: NodeRow)
    requires !Fresher(a, b) && Fresher(c, b)
    ensures !Fresher(a, c)
  {
  }

  /** The first row of the device in the order of the lookup. */
  method LatestRow(t: Tables, device: string) returns (best: Option<NodeId>)
    ensures best.Some? ==> IsLatest(t, device, best.value) && IsMostRecent(t, device, best.value)
    ensures best.None? ==> forall k :: !Linked(t, k, device)
  {
    best := None;
    var ids := t.nodes.Keys;
    while ids != {}
      invariant ids <= t.nodes.Keys
      invariant best.Some? ==> Linked(t, best.value, device)
      invariant best.Some? ==>
                  forall k :: k !in ids && Linked(t, k, device) ==> !Fresher(t.nodes[k], t.nodes[best.value])
      invariant best.None? ==> forall k :: k !in ids ==> !Linked(t, k, device)
      decreases ids
    {
      var id :| id in ids;
      ids := ids - {id};
      if Linked(t, id, device) && (best.None? || Fresher(t.nodes[id], t.nodes[best.value])) {
        if best.Some? {
          forall k | k !in ids && Linked(t, k, device) ensures !Fresher(t.nodes[k], t.nodes[id]) {
            if k != id {
              FresherIsOrder(t.nodes[k], t.nodes[best.value], t.nodes[id]);
            }
          }
        }
        best := Some(id);
      }
    }
  }

  /** Last seen, or if never seen created, at the cutoff or later. */
  ghost predicate IsRecent(n: NodeRow, cutoff: int) {
    match n.lastSeen
    case Some(at) => at >= cutoff
    case None => n.createdAt >= cutoff
  }

  /** A row of the device; any other that was seen was not seen later, nor at the same time and created later,
      and if it was never seen, neither was any, and none was created later. */
  ghost predicate IsMostRecent(t: Tables, device: string, id: NodeId) {
    && id in t.nodes && t.nodes[id].deviceId == Some(device)
    && forall k :: k in t.nodes && t.nodes[k].deviceId == Some(device) ==>
         match t.nodes[k].lastSeen
         case Some(at) =>
           && t.nodes[id].lastSeen.Some? && at <= t.nodes[id].lastSeen.value
           && (at == t.nodes[id].lastSeen.value ==> t.nodes[k].createdAt <= t.nodes[id].createdAt)
         case None => t.nodes[id].lastSeen.None? ==> t.nodes[k].createdAt <= t.nodes[id].createdAt
  }

  class NodeService {
    const net: Network
    const antifraud: bool
    var t: Tables

    constructor (net: Network, antifraud: bool)
      ensures this.net == net && this.antifraud == antifraud && t == Tables(map[], map[])
    {
      this.net, this.antifraud, t := net, antifraud, Tables(map[], map[]);
    }

    /** UPDATE by ID; the public key is unique, so another row with the new key makes it fail. */
    method UpdateReregister(id: NodeId, account: string, req: Request, now: int, fails: bool) returns (ok: bool)
      requires id in t.nodes
      modifies this
      ensures ok <==> !fails && !KeyTaken(old(t), id, req.publicKey)
      ensures t == if ok then Rewritten(old(t), id, account, req, now) else old(t)
    {
      ok := !fails && !KeyTaken(t, id, req.publicKey);
      if ok {
        t := Rewritten(t, id, account, req, now);
      }
    }

    method DeleteOtherByDeviceId(device: string, keep: NodeId, fails: bool)
      modifies this
      ensures t == if fails then old(t) else Deleted(old(t), Ghosts(old(t), device, keep))
    {
      if !fails {
        t := Deleted(t, Ghosts(t, device, keep));
      }
    }

    /** The first free address; the query promises no order. */
    method FindAvailable(fails: bool) returns (ip: Option<nat>)
      ensures ip.Some? ==> Available(net, t, ip.value)
      ensures ip.Some? ==> net.base < ip.value < net.base + net.size - 1 && ip.value !in t.ips
                           && forall id :: id in t.nodes ==> t.nodes[id].ip != ip.value
      ensures ip.Some? <==> !fails && exists a :: Available(net, t, a)
      ensures ip.None? && !fails ==> forall a: nat :: net.base < a < net.base + net.size - 1 ==>
                a in t.ips || exists id :: id in t.nodes && t.nodes[id].ip == a
    {
      if fails {
        return None;
      }
      var a := net.base + 1;
      while a < net.base + net.size - 1
        invariant net.base < a
        invariant forall b :: net.base < b < a ==> !Available(net, t, b)
        decreases net.base + net.size - a
      {
        if a !in t.ips && forall id :: id in t.nodes ==> t.nodes[id].ip != a {
          assert Available(net, t, a);
          return Some(a);
        }
        a := a + 1;
      }
      forall b: nat | net.base < b < net.base + net.size - 1
        ensures b in t.ips || exists id :: id in t.nodes && t.nodes[id].ip == b
      {
        assert !Available(net, t, b);
      }
      ip := None;
    }

    method Create(id: NodeId, row: NodeRow, fails: bool) returns (ok: bool)
      requires id !in t.nodes
      modifies this
      ensures ok <==> !fails && !HasKey(old(t), row.publicKey)
      ensures t == if ok then old(t).(nodes := old(t).nodes[id := row]) else old(t)
    {
      ok := !fails && !HasKey(t, row.publicKey);
      if ok {
        t := t.(nodes := t.nodes[id := row]);
      }
    }

    /** INSERT or, on an existing row for the address, UPDATE. */
    method AssignIp(ip: nat, id: NodeId, fails: bool)
      modifies this
      ensures t == if fails then old(t) else old(t).(ips := old(t).ips[ip := Some(id)])
    {
      if !fails {
        t := t.(ips := t.ips[ip := Some(id)]);
      }
    }

    /** Creates, re-registers or migrates a node. `id` is the fresh key the database would generate. */
    method RegisterNode(account: string, req: Request, id: NodeId, now: int, faults: Faults)
      returns (r: Result<Registered, RegisterError>, ghost row: NodeId)
      requires id !in t.nodes
      modifies this
      ensures Registers(net, antifraud, old(t), Attempt(account, req, id, row, now, faults), t, r)
      ensures r.Ok? ==> RowIsRequested(old(t), Attempt(account, req, id, row, now, faults), t, r.value)
    {
      row := id;
      if req.deviceId != "" {
        // An error of the lookup is not looked at: it reads as "no such row".
        var existing := None;
        if !faults.find {
          existing := LatestRow(t, req.deviceId);
        }
        if existing.Some? {
          var ex := existing.value;
          row := ex;
          var ip := t.nodes[ex].ip;
          var crossAccount := t.nodes[ex].account != account;
          if crossAccount && antifraud {
            return Err(DeviceAlreadyLinked), row;
          }
          var updated := UpdateReregister(ex, account, req, now, faults.update);
          if !updated {
            return Err(UpdateFailed), row;
          }
          DeleteOtherByDeviceId(req.deviceId, ex, faults.sweep);
          RegisteredRow(net, antifraud, old(t), Attempt(account, req, id, row, now, faults), t, Registered(ex, ip));
          return Ok(Registered(ex, ip)), row;
        }
        if faults.count {
          return Err(CountFailed), row;
        }
        if |DevicesOf(t, account)| >= MAX_DEVICES_PER_ACCOUNT {
          return Err(DeviceLimitReached), row;
        }
      }
      var ip := FindAvailable(faults.findIp);
      if ip.None? {
        return Err(NoAddress), row;
      }
      var created := Create(id, NewRow(account, req, ip.value, now), faults.create);
      if !created {
        return Err(CreateFailed), row;
      }
      AssignIp(ip.value, id, faults.assign);
      RegisteredRow(net, antifraud, old(t), Attempt(account, req, id, row, now, faults), t, Registered(id, ip.value));
      r := Ok(Registered(id, ip.value));
    }

    method Release(id: NodeId, fails: bool)
      modifies this
      ensures t == if fails then old(t) else Released(old(t), id)
    {
      if !fails {
        t := Released(t, id);
      }
    }

    method Delete(id: NodeId, fails: bool) returns (ok: bool)
      modifies this
      ensures ok == !fails && t == if fails then old(t) else Deleted(old(t), {id})
    {
      ok := !fails;
      if ok {
        t := Deleted(t, {id});
      }
    }

    /** Releases the address, then deletes the node; a failing release does not stop the deletion. */
    method DeregisterNode(id: NodeId, releaseFails: bool, deleteFails: bool) returns (ok: bool)
      modifies this
      ensures Deregisters(old(t), id, releaseFails, deleteFails, t)
      ensures ok == !deleteFails
    {
      Release(id, releaseFails);
      ok := Delete(id, deleteFails);
    }

    /** Removes every node last seen, or if never seen created, before the cutoff, and counts them. */
    method DeleteStaleBefore(cutoff: int, fails: bool) returns (removed: nat)
      modifies this
      ensures t == if fails then old(t) else Deleted(old(t), Stale(old(t), cutoff))
      ensures forall id :: id in t.nodes <==> id in old(t).nodes && (fails || IsRecent(old(t).nodes[id], cutoff))
      ensures forall id :: id in t.nodes ==> t.nodes[id] == old(t).nodes[id]
      ensures removed == |old(t).nodes| - |t.nodes| && t.ips.Keys == old(t).ips.Keys
    {
      removed := 0;
      if !fails {
        removed := |Stale(t, cutoff)|;
        t := Deleted(t, Stale(t, cutoff));
        assert old(t).nodes.Keys == t.nodes.Keys + Stale(old(t), cutoff);
      }
    }
  }
}
