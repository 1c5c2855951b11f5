/** Short runs, from empty tables, at whose end each promise that the control plane's registration does not
    keep is broken (control-plane/service/node_service.go). */
module RegistrationRuns {
  import opened Common
  import opened Registration

  const NO_FAULTS := Faults(false, false, false, false, false, false, false)

  function Empty(): Tables {
    Tables(map[], map[])
  }

  /** One device of an account; its name and key are `n` letters long. */
  function Device(n: nat): Request {
    Request("", seq(n + 1, _ => 'd'), seq(n + 1, _ => 'k'))
  }

  /** `t` with one more device, at the next address. */
  function WithDevice(net: Network, t: Tables, account: string, n: nat): Tables {
    var ip := net.base + 1 + n;
    Tables(t.nodes[n := NewRow(account, Device(n), ip, 0)], t.ips[ip := Some(n)])
  }

  /** The tables after `n` devices of account "a" have registered. */
  function Filled(net: Network, n: nat): Tables {
    if n == 0 then Empty() else WithDevice(net, Filled(net, n - 1), "a", n - 1)
  }

  function FillCall(net: Network, account: string, n: nat): Call {
    Register(Attempt(account, Device(n), n, n, 0, NO_FAULTS), Ok(Registered(n, net.base + 1 + n)))
  }

  lemma KeysDiffer(j: nat, k: nat)
    requires j != k
    ensures Device(j).publicKey != Device(k).publicKey && Device(j).deviceId != Device(k).deviceId
  {
    assert |Device(j).publicKey| != |Device(k).publicKey| && |Device(j).deviceId| != |Device(k).deviceId|;
  }

  lemma WithDeviceCounts(net: Network, t: Tables, account: string, n: nat)
    requires n !in t.nodes
    ensures forall a :: DevicesOf(WithDevice(net, t, account, n), a) ==
                        DevicesOf(t, a) + if a == account then {n} else {}
  {
    assert Device(n).deviceId != "";
    hide Device;
  }

  /** Keys 0 to n - 1, addresses base + 1 to base + n. */
  ghost predicate IsFilled(net: Network, t: Tables, n: nat) {
    && (forall k: nat :: k in t.nodes <==> k < n) && (forall ip: nat :: ip in t.ips <==> net.base < ip <= net.base + n)
    && (forall k :: k in t.nodes ==> t.nodes[k] == NewRow("a", Device(k), net.base + 1 + k, 0))
  }

  lemma FilledGrows(net: Network, t: Tables, n: nat)
    requires IsFilled(net, t, n)
    ensures var t' := WithDevice(net, t, "a", n);
            IsFilled(net, t', n + 1) && n !in DevicesOf(t, "a")
            && DevicesOf(t', "a") == DevicesOf(t, "a") + {n} && DevicesOf(t', "b") == DevicesOf(t, "b")
  {
    WithDeviceCounts(net, t, "a", n);
    hide Device;
  }

  lemma EmptyIsFilled(net: Network)
    ensures IsFilled(net, Empty(), 0) && DevicesOf(Empty(), "a") == {} && DevicesOf(Empty(), "b") == {}
  {
  }

  lemma {:induction false} FilledIs(net: Network, n: nat)
    ensures IsFilled(net, Filled(net, n), n)
    ensures |DevicesOf(Filled(net, n), "a")| == n && DevicesOf(Filled(net, n), "b") == {}
  {
    if n == 0 {
      EmptyIsFilled(net);
    } else {
      var t := Filled(net, n - 1);
      assert Filled(net, n) == WithDevice(net, t, "a", n - 1);
      FilledIs(net, n - 1);
      hide Filled, DevicesOf, WithDevice;
      FilledGrows(net, t, n - 1);
      assert n - 1 !in DevicesOf(t, "a");
    }
  }

  lemma FillStep(net: Network, antifraud: bool, account: string, n: nat)
    requires net.size >= n + 3 && account in {"a", "b"} && (account == "a" ==> n < MAX_DEVICES_PER_ACCOUNT)
    ensures Step(net, antifraud, Filled(net, n), FillCall(net, account, n), WithDevice(net, Filled(net, n), account, n))
  {
    var t, c := Filled(net, n), FillCall(net, account, n);
    FilledIs(net, n);
    hide Filled;
    forall k | k in t.nodes ensures t.nodes[k].publicKey != c.a.req.publicKey && !Linked(t, k, c.a.req.deviceId) {
      KeysDiffer(k, n);
    }
    hide Device;
    assert c.a.req.deviceId != "";
    assert Available(net, t, net.base + 1 + n);
    assert Admits(net, t, c.a) && Creates(net, t, c.a, net.base + 1 + n, WithDevice(net, t, account, n));
  }

  lemma {:induction false} FillRun(net: Network, antifraud: bool, n: nat) returns (run: seq<Tables>, calls: seq<Call>)
    requires net.size >= n + 2 && n <= MAX_DEVICES_PER_ACCOUNT
    ensures IsRun(net, antifraud, run, calls) && run[|run| - 1] == Filled(net, n)
  {
    if n == 0 {
      run, calls := [Empty()], [];
    } else {
      run, calls := FillRun(net, antifraud, n - 1);
      FillStep(net, antifraud, "a", n - 1);
      RunGrows(net, antifraud, run, calls, FillCall(net, "a", n - 1), Filled(net, n));
      run, calls := run + [Filled(net, n)], calls + [FillCall(net, "a", n - 1)];
    }
  }

  lemma RunGrows(net: Network, antifraud: bool, run: seq<Tables>, calls: seq<Call>, c: Call, t: Tables)
    requires IsRun(net, antifraud, run, calls) && Step(net, antifraud, run[|run| - 1], c, t)
    ensures IsRun(net, antifraud, run + [t], calls + [c])
  {
    hide Step;
  }

  /** A device registers, falls silent and is swept: its address is lost to the network for good. */
  lemma AddressCanBeLost(net: Network, antifraud: bool)
    requires net.size >= 3
    ensures exists run, calls :: IsRun(net, antifraud, run, calls) && Orphaned(run[|run| - 1], net.base + 1)
  {
    var run, calls := FillRun(net, antifraud, 1);
    FilledIs(net, 1);
    var t := Filled(net, 1);
    var t' := Deleted(t, Stale(t, 1));
    RunGrows(net, antifraud, run, calls, Sweep(1, false), t');
    assert Orphaned(t', net.base + 1) by {
      assert 0 in Stale(t, 1) && t == WithDevice(net, Empty(), "a", 0);
    }
    assert (run + [t'])[|run|] == t';
  }

  /** A device registers twice, and the second time its lookup fails: it has two rows. */
  lemma DeviceCanHaveTwoRows(net: Network, antifraud: bool)
    requires net.size >= 4
    ensures exists run, calls :: IsRun(net, antifraud, run, calls) && !UniqueDevices(run[|run| - 1])
  {
    var run, calls := FillRun(net, antifraud, 1);
    FilledIs(net, 1);
    var t, req := Filled(net, 1), Device(0).(publicKey := Device(1).publicKey);
    var a := Attempt("a", req, 1, 1, 0, NO_FAULTS.(find := true));
    var ip := net.base + 2;
    var t' := Tables(t.nodes[1 := NewRow("a", req, ip, 0)], t.ips[ip := Some(1)]);
    KeysDiffer(0, 1);
    assert Available(net, t, ip);
    assert Admits(net, t, a) && Creates(net, t, a, ip, t');
    RunGrows(net, antifraud, run, calls, Register(a, Ok(Registered(1, ip))), t');
    assert Linked(t', 0, req.deviceId) && Linked(t', 1, req.deviceId);
    assert (run + [t'])[|run|] == t';
  }

  /** The only row of its device, the last one may be moved to "a". */
  lemma LastMoves(net: Network, t: Tables, a: Attempt, n: nat)
    requires IsFilled(net, t, n) && a == Attempt("a", Device(n), n + 1, n, 0, NO_FAULTS)
    ensures var u := WithDevice(net, t, "b", n);
            Accepts(false, u, a) && IsLatest(u, a.req.deviceId, n) && Ghosts(u, a.req.deviceId, n) == {}
  {
    var u := WithDevice(net, t, "b", n);
    forall k | k in u.nodes && k != n ensures u.nodes[k].publicKey != a.req.publicKey && !Linked(u, k, a.req.deviceId) {
      KeysDiffer(k, n);
    }
    assert a.req.deviceId != "";
    hide Device;
    assert Linked(u, n, a.req.deviceId);
  }

  lemma MoveStep(net: Network, a: Attempt, t': Tables, n: nat)
    requires a == Attempt("a", Device(n), n + 1, n, 0, NO_FAULTS)
    requires var u := Rewritten(WithDevice(net, Filled(net, n), "b", n), n, "a", a.req, 0);
             t' == Deleted(u, Ghosts(u, a.req.deviceId, n))
    ensures var answer := Ok(Registered(n, net.base + 1 + n));
            Step(net, false, WithDevice(net, Filled(net, n), "b", n), Register(a, answer), t')
    ensures |DevicesOf(t', "a")| == n + 1
  {
    var t := Filled(net, n);
    FilledIs(net, n);
    hide Filled;
    LastMoves(net, t, a, n);
    WithDeviceCounts(net, t, "b", n);
    NotThere(net, t, n);
    var u := WithDevice(net, t, "b", n);
    hide Accepts, IsLatest, Ghosts, Device, DevicesOf, Deleted, IsFilled, Rewritten, WithDevice;
    assert Reregisters(u, a, t');
    MovedDevices(u, a, t');
    hide Known, Reregisters, Admits;
  }

  lemma NotThere(net: Network, t: Tables, n: nat)
    requires IsFilled(net, t, n)
    ensures n !in DevicesOf(t, "a") && n + 1 !in WithDevice(net, t, "b", n).nodes
    ensures WithDevice(net, t, "b", n).nodes[n].ip == net.base + 1 + n
  {
  }

  /** Without antifraud: account "a" has its twenty devices, "b" has one, and it moves to "a". */
  lemma CapCanBeOverrun(net: Network)
    requires net.size >= 23
    ensures exists run, calls :: IsRun(net, false, run, calls) && !Capped(run[|run| - 1])
  {
    var n := MAX_DEVICES_PER_ACCOUNT;
    var run, calls := FillRun(net, false, n);
    FillStep(net, false, "b", n);
    var t := WithDevice(net, Filled(net, n), "b", n);
    RunGrows(net, false, run, calls, FillCall(net, "b", n), t);
    var a := Attempt("a", Device(n), n + 1, n, 0, NO_FAULTS);
    var t' := Deleted(Rewritten(t, n, "a", a.req, 0), Ghosts(Rewritten(t, n, "a", a.req, 0), a.req.deviceId, n));
    MoveStep(net, a, t', n);
    var answer := Ok(Registered(n, net.base + 1 + n));
    RunGrows(net, false, run + [t], calls + [FillCall(net, "b", n)], Register(a, answer), t');
    assert (run + [t] + [t'])[|run| + 1] == t';
  }
}
