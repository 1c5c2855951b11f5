/** How the dispatcher spreads datagrams over a destination's streams (relay-node/mesh/dispatcher.go): the
    fairness of the cursor, carried over to runs. */
module Spreading {
  import opened Framing
  import opened MeshToken
  import opened RoundRobin
  import opened SessionRegistry
  import opened Forwarding

  /** The step looks for a stream of `dst` and finds one: it moves the cursor. */
  ghost predicate TurnsFor(st: State, l: Label, dst: Pubkey) {
    && l.Pick? && l.s in st.phase && st.phase[l.s].Picking? && st.phase[l.s].i < |st.log|
    && st.log[st.phase[l.s].i].dst == dst && ListOf(st.reg, dst) != []
  }

  /** And it chooses the stream `t`. */
  ghost predicate Chooses(st: State, l: Label, st': State, dst: Pubkey, t: Sid) {
    TurnsFor(st, l, dst) && l.s in st'.phase && st'.phase[l.s] == Waiting(st.phase[l.s].i, t)
  }

  ghost function Turns(states: seq<State>, labels: seq<Label>, j: nat, k: nat, dst: Pubkey): nat
    requires j <= k <= |labels| && |states| == |labels| + 1
  {
    if j == k then 0
    else Turns(states, labels, j, k - 1, dst) + if TurnsFor(states[k - 1], labels[k - 1], dst) then 1 else 0
  }

  ghost function Choices(states: seq<State>, labels: seq<Label>, j: nat, k: nat, dst: Pubkey, t: Sid): nat
    requires j <= k <= |labels| && |states| == |labels| + 1
  {
    if j == k then 0
    else Choices(states, labels, j, k - 1, dst, t)
         + if Chooses(states[k - 1], labels[k - 1], states[k], dst, t) then 1 else 0
  }

  /** From state `j` to state `k` the streams of `dst` stay the same, and only its datagrams move the cursor. */
  ghost predicate Steady(states: seq<State>, labels: seq<Label>, j: nat, k: nat, dst: Pubkey, list: seq<Sid>) {
    && |states| == |labels| + 1 && j <= k <= |labels|
    && (forall m :: j <= m <= k ==> ListOf(states[m].reg, dst) == list)
    && (forall m :: j <= m < k ==> OnlyFor(states[m], labels[m], dst))
  }

  ghost predicate Distinct(list: seq<Sid>) {
    forall x, y :: 0 <= x < y < |list| ==> list[x] != list[y]
  }

  /** If the step moves the cursor, it does so for `dst`. */
  ghost predicate OnlyFor(st: State, l: Label, dst: Pubkey) {
    forall d :: TurnsFor(st, l, d) ==> d == dst
  }

  lemma TurnMoves(st: State, l: Label, st': State, dst: Pubkey)
    requires TurnsFor(st, l, dst) && IsPick(st, l.s, st')
    ensures st'.rr == Cursor(st.rr, 1)
    ensures forall t :: Chooses(st, l, st', dst, t) <==> t == Choice(ListOf(st.reg, dst), st'.rr)
  {
    hide Drops, TurnsTo, Cursor;
    var i := st.phase[l.s].i;
    TurnSets(st, l.s, i, Cursor(st.rr, 1), ListOf(st.reg, dst), st');
  }

  lemma TurnSets(st: State, s: Sid, i: nat, rr: nat, list: seq<Sid>, st': State)
    requires TurnsTo(st, s, i, rr, list, st')
    ensures st'.rr == rr && st'.phase == st.phase[s := Waiting(i, Choice(list, rr))]
  {
  }

  lemma DropSets(st: State, s: Sid, i: nat, st': State)
    requires Drops(st, s, i, st')
    ensures st'.rr == st.rr
  {
  }

  lemma PickWithout(st: State, l: Label, st': State)
    requires l.Pick? && IsPick(st, l.s, st') && forall dst :: !TurnsFor(st, l, dst)
    ensures st'.rr == st.rr
  {
    hide Drops, TurnsTo, Cursor;
    var i := st.phase[l.s].i;
    assert !TurnsFor(st, l, st.log[i].dst);
    DropSets(st, l.s, i, st');
  }

  lemma ReadKeepsCursor(st: State, s: Sid, st': State)
    requires IsRead(st, s, st')
    ensures st'.rr == st.rr
  {
    hide ReadOne, Logs, Skips;
    var f := ReadOne(In(st, s).unread);
    if f.kind == FRAME_DATAGRAM && |f.payload| >= PUBKEY_LEN + 1 {
      LogChanges(st, s, f, st');
    } else {
      SkipChanges(st, s, f, st');
    }
  }

  lemma BodyKeepsCursor(st: State, s: Sid, n: nat, ok: bool, st': State)
    requires IsWriteBody(st, s, n, ok, st')
    ensures st'.rr == st.rr
  {
    hide CanWrite, CompletesFrame, CutsFrame;
    var i, t := st.phase[s].i, st.phase[s].target;
    if n == |st.log[i].wg| {
      CompletedChanges(st, s, i, t, ok, st');
    } else {
      CutChanges(st, s, i, t, n, st');
    }
  }

  lemma OthersKeepCursor(h: Hmac, st: State, l: Label, st': State)
    requires Next(h, st, l, st') && !l.Pick?
    ensures st'.rr == st.rr
  {
    hide IsRead, IsWriteHeader, IsWriteBody, ReadOne, Authenticate, Register, Unregister, Evicted;
    match l
    case Read(s) => ReadKeepsCursor(st, s, st');
    case WriteHeader(s, n, ok) => HeaderChanges(st, s, n, ok, st');
    case WriteBody(s, n, ok) => BodyKeepsCursor(st, s, n, ok, st');
    case _ =>
  }

  /** The cursor stays or turns once. */
  lemma StepTurns(h: Hmac, st: State, l: Label, st': State, dst: Pubkey)
    requires Next(h, st, l, st') && OnlyFor(st, l, dst)
    ensures if TurnsFor(st, l, dst) then st'.rr == Cursor(st.rr, 1) else st'.rr == st.rr
    ensures forall t :: Chooses(st, l, st', dst, t) <==>
              TurnsFor(st, l, dst) && t == Choice(ListOf(st.reg, dst), st'.rr)
  {
    hide Cursor, Choice, TurnsFor, IsPick;
    if TurnsFor(st, l, dst) {
      assert l.Pick? by {
        TurnIsPick(st, l, dst);
      }
      TurnMoves(st, l, st', dst);
    } else if l.Pick? {
      PickWithout(st, l, st');
    } else {
      OthersKeepCursor(h, st, l, st');
    }
  }

  lemma TurnIsPick(st: State, l: Label, dst: Pubkey)
    requires TurnsFor(st, l, dst)
    ensures l.Pick?
  {
  }

  lemma {:induction false} CursorInRange(h: Hmac, states: seq<State>, labels: seq<Label>, k: nat)
    requires IsRun(h, states, labels) && k < |states|
    ensures states[k].rr < WRAP
  {
    if k > 0 {
      CursorInRange(h, states, labels, k - 1);
      RunBefore(h, states, labels, k);
      hide IsRun, Next;
      StepInRange(h, states[k - 1], labels[k - 1], states[k]);
    }
  }

  lemma StepInRange(h: Hmac, st: State, l: Label, st': State)
    requires Next(h, st, l, st') && st.rr < WRAP
    ensures st'.rr < WRAP
  {
    hide TurnsFor, IsPick;
    if dst :| TurnsFor(st, l, dst) {
      TurnIsPick(st, l, dst);
      TurnMoves(st, l, st', dst);
    } else if l.Pick? {
      PickWithout(st, l, st');
    } else {
      OthersKeepCursor(h, st, l, st');
    }
  }

  /** The cursor has moved by as many turns as there were, and the stream at position `p` was chosen as often
      as the cursor picks that position. */
  ghost predicate CursorTracks(states: seq<State>, labels: seq<Label>, j: nat, k: nat, dst: Pubkey, list: seq<Sid>,
                               p: nat)
  {
    && j <= k <= |labels| && |states| == |labels| + 1 && p < |list|
    && var n := Turns(states, labels, j, k, dst);
    && states[k].rr == Cursor(states[j].rr, n)
    && Choices(states, labels, j, k, dst, list[p]) == Picks(states[j].rr, n, |list|, p)
  }

  lemma StepTracks(h: Hmac, states: seq<State>, labels: seq<Label>, j: nat, k: nat, dst: Pubkey, list: seq<Sid>,
                   p: nat)
    requires j < k <= |labels| && |states| == |labels| + 1 && CursorTracks(states, labels, j, k - 1, dst, list, p)
    requires Next(h, states[k - 1], labels[k - 1], states[k]) && OnlyFor(states[k - 1], labels[k - 1], dst)
    requires ListOf(states[k - 1].reg, dst) == list && Distinct(list)
    ensures CursorTracks(states, labels, j, k, dst, list, p)
  {
    var rr, n := states[j].rr, Turns(states, labels, j, k - 1, dst);
    StepTurns(h, states[k - 1], labels[k - 1], states[k], dst);
    CursorSteps(rr, n);
    OnePick(rr, n, list, p);
    hide Next, OnlyFor, TurnsFor, Chooses, Cursor, Choice, ListOf;
  }

  lemma NothingTracked(h: Hmac, states: seq<State>, labels: seq<Label>, j: nat, dst: Pubkey, list: seq<Sid>, p: nat)
    requires IsRun(h, states, labels) && Steady(states, labels, j, j, dst, list) && p < |list|
    ensures CursorTracks(states, labels, j, j, dst, list, p)
  {
    hide Next;
    CursorInRange(h, states, labels, j);
  }

  /** Over a steady stretch, the choices of each stream are the cursor's picks of its position. */
  lemma {:induction false} ChoicesArePicks(h: Hmac, states: seq<State>, labels: seq<Label>, j: nat, k: nat, dst: Pubkey,
                                           list: seq<Sid>, p: nat)
    requires IsRun(h, states, labels) && Steady(states, labels, j, k, dst, list) && p < |list| && Distinct(list)
    ensures CursorTracks(states, labels, j, k, dst, list, p)
    decreases k
  {
    hide IsRun, Steady, CursorTracks, Distinct;
    SteadyShorter(states, labels, j, k, dst, list);
    if j == k {
      NothingTracked(h, states, labels, j, dst, list, p);
    } else {
      ChoicesArePicks(h, states, labels, j, k - 1, dst, list, p);
      RunTracks(h, states, labels, j, k, dst, list, p);
    }
  }

  lemma SteadyShorter(states: seq<State>, labels: seq<Label>, j: nat, k: nat, dst: Pubkey, list: seq<Sid>)
    requires Steady(states, labels, j, k, dst, list)
    ensures j <= k && (j < k ==> Steady(states, labels, j, k - 1, dst, list))
  {
    hide OnlyFor;
  }

  lemma RunTracks(h: Hmac, states: seq<State>, labels: seq<Label>, j: nat, k: nat, dst: Pubkey, list: seq<Sid>, p: nat)
    requires IsRun(h, states, labels) && Steady(states, labels, j, k, dst, list) && Distinct(list)
    requires j < k && CursorTracks(states, labels, j, k - 1, dst, list, p)
    ensures CursorTracks(states, labels, j, k, dst, list, p)
  {
    SteadyBefore(states, labels, j, k, dst, list);
    RunBefore(h, states, labels, k);
    hide IsRun, Next, OnlyFor, CursorTracks, Steady, Distinct, ListOf;
    StepTracks(h, states, labels, j, k, dst, list, p);
  }

  lemma OnePick(rr: nat, n: nat, list: seq<Sid>, p: nat)
    requires p < |list| && Distinct(list)
    ensures Picks(rr, n + 1, |list|, p) ==
            Picks(rr, n, |list|, p) + if list[p] == Choice(list, Cursor(rr, n + 1)) then 1 else 0
  {
    hide Cursor;
    var q := Cursor(rr, n + 1) % |list|;
    assert Choice(list, Cursor(rr, n + 1)) == list[q];
    assert q < p || p < q ==> list[q] != list[p];
  }

  lemma SteadyBefore(states: seq<State>, labels: seq<Label>, j: nat, k: nat, dst: Pubkey, list: seq<Sid>)
    requires j < k && Steady(states, labels, j, k, dst, list)
    ensures |states| == |labels| + 1 && k <= |labels|
    ensures Steady(states, labels, j, k - 1, dst, list) && ListOf(states[k - 1].reg, dst) == list
    ensures OnlyFor(states[k - 1], labels[k - 1], dst)
  {
    hide OnlyFor;
  }

  /** Over any stretch of a run in which a destination's streams stay the same and the cursor moves for it
      alone, each stream is chosen for its share of the datagrams, rounded one way or the other, unless the
      cursor wraps on the way and the number of streams does not divide 2^64. */
  lemma StreamsShareFairly(h: Hmac, states: seq<State>, labels: seq<Label>, j: nat, k: nat, dst: Pubkey,
                           list: seq<Sid>, t: Sid)
    requires IsRun(h, states, labels) && Steady(states, labels, j, k, dst, list) && t in list
    requires states[j].rr + Turns(states, labels, j, k, dst) < WRAP || WRAP % |list| == 0
    ensures var n := Turns(states, labels, j, k, dst);
            Floor(n, |list|) <= Choices(states, labels, j, k, dst, t) <= Ceiling(n, |list|)
  {
    RunKeeps(h, states, labels, j);
    ListIsDistinct(states[j], dst);
    var p :| 0 <= p < |list| && list[p] == t;
    ChoicesArePicks(h, states, labels, j, k, dst, list, p);
    PicksAreFair(states[j].rr, Turns(states, labels, j, k, dst), |list|);
    hide IsRun, Inv, Steady, Turns, Choices, Picks;
  }

  lemma ListIsDistinct(st: State, dst: Pubkey)
    requires Inv(st)
    ensures Distinct(ListOf(st.reg, dst))
  {
    if dst in st.reg {
      assert ListOk(st.reg[dst], dst, st.key, st.joined);
    }
  }
}
