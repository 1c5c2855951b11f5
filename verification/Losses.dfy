/** When the dispatcher gives a datagram up (relay-node/mesh/dispatcher.go): never without a reason. */
module Losses {
  import opened Framing
  import opened MeshToken
  import opened RoundRobin
  import opened SessionRegistry
  import opened Forwarding

  /** At this step, the handler drops entry `i`: its destination has no stream. */
  ghost predicate DropsUnreachable(st: State, l: Label, i: nat) {
    && l.Pick? && l.s in st.phase && st.phase[l.s] == Picking(i) && i < |st.log|
    && ListOf(st.reg, st.log[i].dst) == []
  }

  /** At this step, the handler's write of entry `i` to `t` fails, and the connection is closed. */
  ghost predicate FailsToWrite(st: State, l: Label, st': State, i: nat, t: Sid) {
    && (l.WriteHeader? || l.WriteBody?) && l.s in st.phase && t in st'.closed
    && (st.phase[l.s] == Heading(i, t) || st.phase[l.s] == Body(i, t))
  }

  /** What a step adds to the losses. */
  ghost predicate LosesFor(st: State, l: Label, st': State) {
    || st'.lost == st.lost
    || (exists i :: DropsUnreachable(st, l, i) && st'.lost == st.lost[i := NoStream])
    || (exists i, t :: FailsToWrite(st, l, st', i, t) && st'.lost == st.lost[i := WriteFailed(t)])
  }

  lemma PickLoses(st: State, l: Label, st': State)
    requires l.Pick? && IsPick(st, l.s, st')
    ensures LosesFor(st, l, st')
  {
    hide Drops, TurnsTo, Cursor;
    var i := st.phase[l.s].i;
    var list := ListOf(st.reg, st.log[i].dst);
    if list == [] {
      DropChanges(st, l.s, i, st');
      assert DropsUnreachable(st, l, i);
    } else {
      TurnChanges(st, l.s, i, Cursor(st.rr, 1), list, st');
    }
  }

  lemma HeaderLoses(st: State, l: Label, st': State)
    requires l.WriteHeader? && IsWriteHeader(st, l.s, l.n, l.ok, st')
    ensures LosesFor(st, l, st')
  {
    hide CanWrite, ForwardHeader;
    var i, t := st.phase[l.s].i, st.phase[l.s].target;
    assert !l.ok ==> FailsToWrite(st, l, st', i, t);
  }

  lemma BodyLoses(st: State, l: Label, st': State)
    requires l.WriteBody? && IsWriteBody(st, l.s, l.n, l.ok, st')
    ensures LosesFor(st, l, st')
  {
    hide CanWrite, MessageOf;
    var i, t := st.phase[l.s].i, st.phase[l.s].target;
    if l.n != |st.log[i].wg| {
      assert FailsToWrite(st, l, st', i, t);
    }
  }

  lemma OthersLoseNothing(h: Hmac, st: State, l: Label, st': State)
    requires Next(h, st, l, st') && !l.Pick? && !l.WriteHeader? && !l.WriteBody?
    ensures st'.lost == st.lost
  {
    hide ReadOne, Authenticate, Register, Unregister, Evicted, Logs, Skips;
    if l.Read? {
      ReadLosesNothing(st, l.s, st');
    }
  }

  lemma ReadLosesNothing(st: State, s: Sid, st': State)
    requires IsRead(st, s, st')
    ensures st'.lost == st.lost
  {
    hide ReadOne, Logs, Skips;
    var f := ReadOne(In(st, s).unread);
    if f.kind == FRAME_DATAGRAM && |f.payload| >= PUBKEY_LEN + 1 {
      LogChanges(st, s, f, st');
    } else {
      SkipChanges(st, s, f, st');
    }
  }

  lemma StepLoses(h: Hmac, st: State, l: Label, st': State)
    requires Next(h, st, l, st')
    ensures LosesFor(st, l, st')
  {
    hide LosesFor, IsAccept, IsArrive, IsHello, IsReject, IsRead, IsPick, IsLock, IsWriteHeader, IsWriteBody,
         IsLeave, IsClose;
    match l
    case Pick(_) => PickLoses(st, l, st');
    case WriteHeader(_, _, _) => HeaderLoses(st, l, st');
    case WriteBody(_, _, _) => BodyLoses(st, l, st');
    case _ => OthersLoseNothing(h, st, l, st'); SameLosses(st, l, st');
  }

  lemma SameLosses(st: State, l: Label, st': State)
    requires st'.lost == st.lost
    ensures LosesFor(st, l, st')
  {
  }

  /** Why entry `i` was given up, told from the run so far. */
  ghost predicate Justified(states: seq<State>, labels: seq<Label>, k: nat, i: nat)
    requires k < |states| && |states| == |labels| + 1 && i in states[k].lost
  {
    && i < |states[k].log|
    && match states[k].lost[i]
       case NoStream => exists j :: 0 <= j < k && DropsUnreachable(states[j], labels[j], i)
       case WriteFailed(t) => t in states[k].closed && Addressed(i, t, states[k].log, states[k].key)
  }

  /** Closed connections, the log and the keys of sessions only grow. */
  ghost predicate HistoryGrows(st: State, st': State) {
    && st.closed <= st'.closed && st.log <= st'.log
    && forall s :: s in st.key ==> s in st'.key && st'.key[s] == st.key[s]
  }

  lemma StepGrows(h: Hmac, st: State, l: Label, st': State)
    requires Inv(st) && Next(h, st, l, st')
    ensures HistoryGrows(st, st')
  {
    StepKeeps(h, st, l, st');
    KeysAreAuthenticated(h, st, l, st');
    LogIsWhatWasRead(h, st, l, st');
    hide Inv, Next, Authenticates, ReadOne;
  }

  lemma AddressedStays(st: State, st': State, i: nat, t: Sid)
    requires HistoryGrows(st, st') && Addressed(i, t, st.log, st.key)
    ensures Addressed(i, t, st'.log, st'.key)
  {
  }

  lemma JustifiedStays(states: seq<State>, labels: seq<Label>, k: nat, i: nat)
    requires |states| == |labels| + 1 && k < |labels| && HistoryGrows(states[k], states[k + 1])
    requires i in states[k].lost && Justified(states, labels, k, i)
    requires i in states[k + 1].lost && states[k + 1].lost[i] == states[k].lost[i]
    ensures Justified(states, labels, k + 1, i)
  {
    var st, st' := states[k], states[k + 1];
    hide DropsUnreachable, Addressed;
    match st.lost[i]
    case WriteFailed(t) => AddressedStays(st, st', i, t);
    case NoStream =>
      var j :| 0 <= j < k && DropsUnreachable(states[j], labels[j], i);
      assert 0 <= j < k + 1;
  }

  lemma NewLossIsJustified(states: seq<State>, labels: seq<Label>, k: nat, i: nat)
    requires |states| == |labels| + 1 && k < |labels| && HistoryGrows(states[k], states[k + 1])
    requires labels[k].s in states[k].phase ==>
               PhaseOk(labels[k].s, states[k].phase[labels[k].s], states[k].log, states[k].ids, states[k].key)
    requires i in states[k + 1].lost
    requires if states[k + 1].lost[i].NoStream? then DropsUnreachable(states[k], labels[k], i)
             else FailsToWrite(states[k], labels[k], states[k + 1], i, states[k + 1].lost[i].target)
    ensures Justified(states, labels, k + 1, i)
  {
    match states[k + 1].lost[i]
    case NoStream =>
      assert DropsUnreachable(states[k], labels[k], i);
    case WriteFailed(t) =>
      AddressedStays(states[k], states[k + 1], i, t);
  }

  lemma NewLoss(st: State, l: Label, st': State, i: nat)
    requires LosesFor(st, l, st') && i in st'.lost && !(i in st.lost && st'.lost[i] == st.lost[i])
    ensures if st'.lost[i].NoStream? then DropsUnreachable(st, l, i)
            else FailsToWrite(st, l, st', i, st'.lost[i].target)
  {
    hide DropsUnreachable, FailsToWrite;
  }

  lemma LosingIsJustified(h: Hmac, states: seq<State>, labels: seq<Label>, k: nat, i: nat)
    requires |states| == |labels| + 1 && k < |labels| && Inv(states[k]) && Next(h, states[k], labels[k], states[k + 1])
    requires i in states[k + 1].lost && (i in states[k].lost ==> Justified(states, labels, k, i))
    ensures Justified(states, labels, k + 1, i)
  {
    var st, l, st' := states[k], labels[k], states[k + 1];
    StepLoses(h, st, l, st');
    StepGrows(h, st, l, st');
    if l.s in st.phase {
      PhaseOf(st, l.s);
    }
    hide Inv, Next, Justified, HistoryGrows, PhaseOk, LosesFor, DropsUnreachable, FailsToWrite;
    if i in st.lost && st'.lost[i] == st.lost[i] {
      JustifiedStays(states, labels, k, i);
    } else {
      NewLoss(st, l, st', i);
      NewLossIsJustified(states, labels, k, i);
    }
  }

  ghost predicate AllJustified(states: seq<State>, labels: seq<Label>, k: nat) {
    && k < |states| && |states| == |labels| + 1
    && forall i :: i in states[k].lost ==> Justified(states, labels, k, i)
  }

  lemma StepIsJustified(h: Hmac, states: seq<State>, labels: seq<Label>, k: nat)
    requires 0 < k <= |labels| && AllJustified(states, labels, k - 1)
    requires Inv(states[k - 1]) && Next(h, states[k - 1], labels[k - 1], states[k])
    ensures AllJustified(states, labels, k)
  {
    hide Inv, Next, Justified;
    forall i | i in states[k].lost ensures Justified(states, labels, k, i) {
      LosingIsJustified(h, states, labels, k - 1, i);
    }
  }

  /** A datagram is given up only for a reason: its destination had no stream when the handler looked, or a
      write to the chosen one of its destination's streams failed, and that connection is closed. */
  lemma {:induction false} LossesAreJustified(h: Hmac, states: seq<State>, labels: seq<Label>, k: nat)
    requires IsRun(h, states, labels) && k < |states|
    ensures AllJustified(states, labels, k)
    decreases k
  {
    hide IsRun, AllJustified;
    if k == 0 {
      NothingLostYet(h, states, labels);
    } else {
      LossesAreJustified(h, states, labels, k - 1);
      RunLoses(h, states, labels, k);
    }
  }

  lemma NothingLostYet(h: Hmac, states: seq<State>, labels: seq<Label>)
    requires IsRun(h, states, labels)
    ensures AllJustified(states, labels, 0)
  {
    hide Next, Justified;
  }

  lemma RunLoses(h: Hmac, states: seq<State>, labels: seq<Label>, k: nat)
    requires IsRun(h, states, labels) && 0 < k < |states| && AllJustified(states, labels, k - 1)
    ensures AllJustified(states, labels, k)
  {
    RunBefore(h, states, labels, k);
    RunKeeps(h, states, labels, k - 1);
    hide IsRun, Inv, Next, AllJustified;
    StepIsJustified(h, states, labels, k);
  }
}
