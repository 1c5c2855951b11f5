/** From the bytes that arrive on one connection to the frames that leave on another
    (relay-node/mesh/dispatcher.go): over whole runs, each frame delivered is one frame received. */
module Delivery {
  import opened Common
  import opened Framing
  import opened MeshToken
  import opened RoundRobin
  import opened SessionRegistry
  import opened Forwarding

  /** The destination and ciphertext of each DATAGRAM frame long enough to go on, in order. */
  function Forwardable(ms: seq<Message>): seq<(Pubkey, Bytes)> {
    if ms == [] then []
    else
      var m := ms[|ms| - 1];
      Forwardable(ms[..|ms| - 1])
      + if m.kind == FRAME_DATAGRAM && |m.payload| >= PUBKEY_LEN + 1
        then [(m.payload[..PUBKEY_LEN], m.payload[PUBKEY_LEN..])] else []
  }

  /** The same of the log entries of one source. */
  function SentBy(log: seq<Datagram>, s: Sid): seq<(Pubkey, Bytes)> {
    if log == [] then []
    else
      var d := log[|log| - 1];
      SentBy(log[..|log| - 1], s) + if d.src == s then [(d.dst, d.wg)] else []
  }

  lemma ForwardableAppend(ms: seq<Message>, m: Message)
    ensures Forwardable(ms + [m]) == Forwardable(ms) + Forwardable([m])
  {
    assert (ms + [m])[..|ms|] == ms && [m][..0] == [];
  }

  lemma {:induction false} ForwardableConcat(a: seq<Message>, b: seq<Message>)
    ensures Forwardable(a) <= Forwardable(a + b)
  {
    if b == [] {
      assert a + b == a;
    } else {
      var front, m := b[..|b| - 1], b[|b| - 1];
      ForwardableConcat(a, front);
      ForwardableAppend(a + front, m);
      assert a + b == a + front + [m];
    }
  }

  lemma SentByAppend(log: seq<Datagram>, d: Datagram, s: Sid)
    ensures SentBy(log + [d], s) == SentBy(log, s) + if d.src == s then [(d.dst, d.wg)] else []
  {
    assert (log + [d])[..|log|] == log;
  }

  // ---- The incoming side ----

  /** The bytes that arrived are the frames taken, then the bytes unread. */
  ghost predicate Accounted(c: Incoming) {
    c.arrived == Concat(c.taken) + c.unread && Fits(c.taken)
  }

  /** And the log entries of the source are the frames taken that can go on. */
  ghost predicate ReceivedBy(st: State, s: Sid) {
    Accounted(In(st, s)) && SentBy(st.log, s) == Forwardable(In(st, s).taken)
  }

  ghost predicate Received(st: State) {
    forall s: Sid :: ReceivedBy(st, s)
  }

  lemma ArrivedAccounted(c: Incoming, bytes: Bytes)
    requires Accounted(c)
    ensures Accounted(Arrived(c, bytes))
  {
    assert (Concat(c.taken) + c.unread) + bytes == Concat(c.taken) + (c.unread + bytes);
  }

  lemma TakenAccounted(c: Incoming, f: ReadResult)
    requires Accounted(c) && f.Frame? && ReadOne(c.unread) == f
    ensures Accounted(Taken(c, f))
  {
    ReadIsCanonical(c.unread);
    hide ReadOne, FrameBytes;
    var m, frame := Message(f.kind, f.payload), FrameBytes(f.kind, f.payload);
    assert (c.taken + [m])[..|c.taken|] == c.taken;
    assert Concat(c.taken) + (frame + f.rest) == (Concat(c.taken) + frame) + f.rest;
  }

  ghost predicate TakesOne(st: State, s: Sid, st': State) {
    var f := ReadOne(In(st, s).unread);
    && f.Frame? && st'.incoming == st.incoming[s := Taken(In(st, s), f)]
    && if f.kind == FRAME_DATAGRAM && |f.payload| >= PUBKEY_LEN + 1
       then s in st.key
            && st'.log == st.log + [Datagram(s, st.key[s], f.payload[..PUBKEY_LEN], f.payload[PUBKEY_LEN..])]
       else st'.log == st.log
  }

  lemma ReadTakes(st: State, s: Sid, st': State)
    requires IsRead(st, s, st')
    ensures TakesOne(st, s, st')
  {
    hide ReadOne, Logs;
    var f := ReadOne(In(st, s).unread);
    if f.kind == FRAME_DATAGRAM && |f.payload| >= PUBKEY_LEN + 1 {
      LogChanges(st, s, f, st');
    }
  }

  ghost predicate TakesHello(st: State, s: Sid, st': State) {
    var f := ReadOne(In(st, s).unread);
    f.Frame? && f.kind == FRAME_HELLO && st'.log == st.log && st'.incoming == st.incoming[s := Taken(In(st, s), f)]
  }

  lemma HelloTakes(h: Hmac, st: State, s: Sid, secret: Bytes, now: int, st': State)
    requires IsHello(h, st, s, secret, now, st')
    ensures TakesHello(st, s, st')
  {
    hide ReadOne, Authenticate, Register, Evicted;
  }

  lemma HeaderTakesNothing(st: State, s: Sid, n: nat, ok: bool, st': State)
    requires IsWriteHeader(st, s, n, ok, st')
    ensures st'.log == st.log && st'.incoming == st.incoming
  {
    hide CanWrite, ForwardHeader;
  }

  lemma BodyTakesNothing(st: State, s: Sid, n: nat, ok: bool, st': State)
    requires IsWriteBody(st, s, n, ok, st')
    ensures st'.log == st.log && st'.incoming == st.incoming
  {
    hide CanWrite, MessageOf;
  }

  lemma PickTakesNothing(st: State, s: Sid, st': State)
    requires IsPick(st, s, st')
    ensures st'.log == st.log && st'.incoming == st.incoming
  {
    hide ListOf, Cursor, Drops, TurnsTo;
    var i := st.phase[s].i;
    var list := ListOf(st.reg, st.log[i].dst);
    if list == [] {
      DropChanges(st, s, i, st');
    } else {
      TurnChanges(st, s, i, Cursor(st.rr, 1), list, st');
    }
  }

  lemma OthersTakeNothing(h: Hmac, st: State, l: Label, st': State)
    requires Next(h, st, l, st') && !l.Arrive? && !l.Hello? && !l.Read?
    ensures st'.log == st.log && st'.incoming == st.incoming
  {
    hide IsArrive, IsHello, IsRead, IsPick, IsWriteHeader, IsWriteBody, Unregister;
    match l
    case Pick(s) => PickTakesNothing(st, s, st');
    case WriteHeader(s, n, ok) => HeaderTakesNothing(st, s, n, ok, st');
    case WriteBody(s, n, ok) => BodyTakesNothing(st, s, n, ok, st');
    case _ =>
  }

  lemma TakeReceives(st: State, s: Sid, f: ReadResult, st': State, more: seq<(Pubkey, Bytes)>)
    requires ReceivedBy(st, s) && f.Frame? && ReadOne(In(st, s).unread) == f
    requires st'.incoming == st.incoming[s := Taken(In(st, s), f)]
    requires more == Forwardable([Message(f.kind, f.payload)]) && SentBy(st'.log, s) == SentBy(st.log, s) + more
    ensures ReceivedBy(st', s)
  {
    TakenAccounted(In(st, s), f);
    ForwardableAppend(In(st, s).taken, Message(f.kind, f.payload));
    hide Forwardable, SentBy, Accounted;
  }

  lemma OneForwardable(m: Message)
    ensures Forwardable([m]) == if m.kind == FRAME_DATAGRAM && |m.payload| >= PUBKEY_LEN + 1
                                then [(m.payload[..PUBKEY_LEN], m.payload[PUBKEY_LEN..])] else []
  {
    assert [m][..0] == [];
  }

  lemma ReadReceives(st: State, s: Sid, st': State)
    requires Received(st) && TakesOne(st, s, st')
    ensures Received(st')
  {
    var f := ReadOne(In(st, s).unread);
    OneForwardable(Message(f.kind, f.payload));
    hide Forwardable, SentBy, Accounted, ReadOne;
    assert ReceivedBy(st, s);
    if st'.log == st.log + [] {
      TakeReceives(st, s, f, st', []);
    }
    if f.kind == FRAME_DATAGRAM && |f.payload| >= PUBKEY_LEN + 1 {
      var d := Datagram(s, st.key[s], f.payload[..PUBKEY_LEN], f.payload[PUBKEY_LEN..]);
      var more := [(f.payload[..PUBKEY_LEN], f.payload[PUBKEY_LEN..])];
      forall u ensures SentBy(st'.log, u) == SentBy(st.log, u) + if s == u then more else []
      {
        SentByAppend(st.log, d, u);
      }
      TakeReceives(st, s, f, st', more);
    }
    forall u ensures ReceivedBy(st', u) {
      assert ReceivedBy(st, u);
    }
  }

  lemma HelloReceives(st: State, s: Sid, st': State)
    requires Received(st) && TakesHello(st, s, st')
    ensures Received(st')
  {
    var f := ReadOne(In(st, s).unread);
    OneForwardable(Message(f.kind, f.payload));
    hide ReadOne, Accounted, Forwardable, SentBy;
    assert ReceivedBy(st, s);
    TakeReceives(st, s, f, st', []);
    forall u ensures ReceivedBy(st', u) {
      assert ReceivedBy(st, u);
    }
  }

  lemma ArriveReceives(st: State, s: Sid, bytes: Bytes, st': State)
    requires Received(st) && IsArrive(st, s, bytes, st')
    ensures Received(st')
  {
    forall u ensures ReceivedBy(st', u) {
      assert ReceivedBy(st, u);
      ArrivedAccounted(In(st, u), bytes);
    }
  }

  lemma StepReceives(h: Hmac, st: State, l: Label, st': State)
    requires Received(st) && Next(h, st, l, st')
    ensures Received(st')
  {
    hide Received, TakesOne, TakesHello, IsArrive, IsHello, IsRead;
    match l
    case Arrive(s, bytes) => ArriveReceives(st, s, bytes, st');
    case Hello(s, secret, now) => HelloTakes(h, st, s, secret, now, st'); HelloReceives(st, s, st');
    case Read(s) => ReadTakes(st, s, st'); ReadReceives(st, s, st');
    case _ => OthersTakeNothing(h, st, l, st'); SameReceived(st, st');
  }

  lemma SameReceived(st: State, st': State)
    requires Received(st) && st'.log == st.log && st'.incoming == st.incoming
    ensures Received(st')
  {
    forall u ensures ReceivedBy(st', u) {
      assert ReceivedBy(st, u);
    }
  }

  lemma {:induction false} RunReceives(h: Hmac, states: seq<State>, labels: seq<Label>, k: nat)
    requires IsRun(h, states, labels) && k < |states|
    ensures Received(states[k])
  {
    if k == 0 {
      hide Next;
    } else {
      RunReceives(h, states, labels, k - 1);
      hide Received, Next;
      StepReceives(h, states[k - 1], labels[k - 1], states[k]);
    }
  }

  /** What has arrived from `s` to be forwarded: the parse of every byte that ever came. */
  ghost function Arrivals(st: State, s: Sid): seq<(Pubkey, Bytes)> {
    Forwardable(ReadAll(In(st, s).arrived))
  }

  /** Over every run, the log entries of a source are, in order and one for one, the datagrams among the
      frames taken from it so far, and those are the first frames in the bytes that arrived. */
  lemma LogIsWhatArrived(h: Hmac, states: seq<State>, labels: seq<Label>, k: nat, s: Sid)
    requires IsRun(h, states, labels) && k < |states|
    ensures var st := states[k];
      && In(st, s).taken <= ReadAll(In(st, s).arrived)
      && SentBy(st.log, s) == Forwardable(In(st, s).taken) <= Arrivals(st, s)
  {
    var c := In(states[k], s);
    RunReceives(h, states, labels, k);
    assert ReceivedBy(states[k], s);
    ReadAllAfter(c.taken, c.unread);
    ForwardableConcat(c.taken, ReadAll(c.unread));
  }

  // ---- Whose key it is ----

  /** The first of these frames is a HELLO that authenticates, under some secret and at some time, as `pk`. */
  ghost predicate Greets(h: Hmac, ms: seq<Message>, pk: Pubkey) {
    && ms != [] && ms[0].kind == FRAME_HELLO
    && exists secret, now :: Authenticate(h, secret, ms[0].payload, now) == Some(pk)
  }

  /** A session that has a key has greeted with it first of all; one that waits for its HELLO, or has not
      begun, has had no frame taken. */
  ghost predicate Greeted(h: Hmac, st: State, s: Sid) {
    && (s !in st.phase || st.phase[s].AwaitHello? ==> In(st, s).taken == [] && s !in st.key)
    && (s in st.key ==> Greets(h, In(st, s).taken, st.key[s]))
  }

  lemma TakenKeepsGreeting(h: Hmac, c: Incoming, f: ReadResult, pk: Pubkey)
    requires Greets(h, c.taken, pk) && f.Frame?
    ensures Greets(h, Taken(c, f).taken, pk)
  {
    assert Taken(c, f).taken[0] == c.taken[0];
  }

  lemma HelloGreets(h: Hmac, st: State, s: Sid, secret: Bytes, now: int, st': State, u: Sid)
    requires Greeted(h, st, u) && Greeted(h, st, s) && IsHello(h, st, s, secret, now, st')
    ensures Greeted(h, st', u)
  {
    hide ReadOne, Authenticate, Register, Evicted;
    if u == s {
      var f := ReadOne(In(st, s).unread);
      assert In(st', s).taken == [Message(f.kind, f.payload)];
      assert Authenticate(h, secret, f.payload, now) == Some(st'.key[s]);
    }
  }

  lemma ReadGreets(h: Hmac, st: State, s: Sid, st': State, u: Sid)
    requires Greeted(h, st, u) && IsRead(st, s, st')
    ensures Greeted(h, st', u)
  {
    ReadChanges(st, s, st');
    var f := ReadOne(In(st, s).unread);
    hide ReadOne, IsRead, Greets;
    if u == s {
      TakenKeepsGreeting(h, In(st, s), f, st.key[s]);
    }
  }

  lemma ReadChanges(st: State, s: Sid, st': State)
    requires IsRead(st, s, st')
    ensures s in st.phase && s in st.key && !st.phase[s].AwaitHello? && ReadOne(In(st, s).unread).Frame?
    ensures st'.incoming == st.incoming[s := Taken(In(st, s), ReadOne(In(st, s).unread))] && st'.key == st.key
    ensures s in st'.phase && !st'.phase[s].AwaitHello? && st'.phase == st.phase[s := st'.phase[s]]
  {
    hide ReadOne;
  }

  lemma ArriveGreets(h: Hmac, st: State, s: Sid, bytes: Bytes, st': State, u: Sid)
    requires Greeted(h, st, u) && IsArrive(st, s, bytes, st')
    ensures Greeted(h, st', u)
  {
    hide Greets;
    assert In(st', u).taken == In(st, u).taken;
  }

  /** The other steps take no frame and give no key, and no handler waits for its HELLO that did not. */
  lemma OthersGreet(h: Hmac, st: State, l: Label, st': State, u: Sid)
    requires Greeted(h, st, u) && Inv(st) && Next(h, st, l, st') && !l.Arrive? && !l.Hello? && !l.Read?
    ensures Greeted(h, st', u)
  {
    OthersTakeNothing(h, st, l, st');
    StepKeeps(h, st, l, st');
    OthersWaitNoMore(h, st, l, st', u);
    hide Inv, Next, Greets, Frozen;
  }

  lemma BodyFrees(st: State, s: Sid, n: nat, ok: bool, st': State)
    requires IsWriteBody(st, s, n, ok, st')
    ensures st'.phase == st.phase[s := Reading]
  {
    hide CanWrite, MessageOf, CompletesFrame, CutsFrame;
    var i, t := st.phase[s].i, st.phase[s].target;
    if n == |st.log[i].wg| {
      CompletedChanges(st, s, i, t, ok, st');
    } else {
      CutChanges(st, s, i, t, n, st');
    }
  }

  lemma PickMoves(st: State, s: Sid, st': State)
    requires IsPick(st, s, st')
    ensures s in st'.phase && !st'.phase[s].AwaitHello? && st'.phase == st.phase[s := st'.phase[s]]
  {
    hide ListOf, Cursor, Choice, Drops, TurnsTo;
    var i := st.phase[s].i;
    var list := ListOf(st.reg, st.log[i].dst);
    if list == [] {
      DropChanges(st, s, i, st');
    } else {
      TurnChanges(st, s, i, Cursor(st.rr, 1), list, st');
    }
  }

  lemma OthersWaitNoMore(h: Hmac, st: State, l: Label, st': State, u: Sid)
    requires Next(h, st, l, st') && !l.Arrive? && !l.Hello? && !l.Read?
    ensures u in st.phase && !st.phase[u].AwaitHello? ==> u in st'.phase && !st'.phase[u].AwaitHello?
  {
    hide IsPick, IsLock, IsWriteHeader, IsWriteBody, Unregister;
    match l
    case Pick(s) => PickMoves(st, s, st');
    case Lock(s) => LockChanges(st, s, st');
    case WriteHeader(s, n, ok) => HeaderChanges(st, s, n, ok, st');
    case WriteBody(s, n, ok) => BodyFrees(st, s, n, ok, st');
    case _ =>
  }

  lemma StepGreets(h: Hmac, st: State, l: Label, st': State, u: Sid)
    requires Greeted(h, st, u) && Greeted(h, st, l.s) && Inv(st) && Next(h, st, l, st')
    ensures Greeted(h, st', u)
  {
    hide Inv, Greeted, IsAccept, IsArrive, IsHello, IsReject, IsRead, IsPick, IsLock, IsWriteHeader, IsWriteBody,
         IsLeave, IsClose;
    match l
    case Arrive(s, bytes) => ArriveGreets(h, st, s, bytes, st', u);
    case Hello(s, secret, now) => HelloGreets(h, st, s, secret, now, st', u);
    case Read(s) => ReadGreets(h, st, s, st', u);
    case _ => OthersGreet(h, st, l, st', u);
  }

  /** Over every run, a session's key is the one that the first frame taken from it, a HELLO, authenticates. */
  lemma {:induction false} KeysComeFromHello(h: Hmac, states: seq<State>, labels: seq<Label>, k: nat, s: Sid)
    requires IsRun(h, states, labels) && k < |states|
    ensures Greeted(h, states[k], s)
  {
    if k > 0 {
      RunBefore(h, states, labels, k);
      RunKeeps(h, states, labels, k - 1);
      hide IsRun, Inv, Next, Greeted;
      KeysComeFromHello(h, states, labels, k - 1, s);
      KeysComeFromHello(h, states, labels, k - 1, labels[k - 1].s);
      StepGreets(h, states[k - 1], labels[k - 1], states[k], s);
    }
  }

  // ---- End to end ----

  /** Which of its source's datagrams log entry `i` is. */
  ghost function RankOf(log: seq<Datagram>, i: nat): nat
    requires i < |log|
  {
    |SentBy(log[..i], log[i].src)|
  }

  lemma {:induction false} RankHolds(log: seq<Datagram>, i: nat, n: nat)
    requires i < n <= |log|
    ensures RankOf(log, i) < |SentBy(log[..n], log[i].src)|
    ensures SentBy(log[..n], log[i].src)[RankOf(log, i)] == (log[i].dst, log[i].wg)
  {
    assert log[..n] == log[..n - 1] + [log[n - 1]];
    SentByAppend(log[..n - 1], log[n - 1], log[i].src);
    hide SentBy;
    if i < n - 1 {
      RankHolds(log, i, n - 1);
    }
  }

  /** The datagram behind frame `j` on `t`: its source, and its place among the source's. */
  ghost function Origin(st: State, t: Sid, j: nat): (Sid, nat)
    requires j < |At(st.ids, t)| && At(st.ids, t)[j] < |st.log|
  {
    var i := At(st.ids, t)[j];
    (st.log[i].src, RankOf(st.log, i))
  }

  /** The first frame in the bytes that arrived from `s` is the HELLO that authenticates its key. */
  ghost predicate OwnsKey(h: Hmac, st: State, s: Sid) {
    s in st.key && Greets(h, ReadAll(In(st, s).arrived), st.key[s])
  }

  lemma KeyIsOwned(h: Hmac, st: State, s: Sid)
    requires s in st.key && Greeted(h, st, s) && In(st, s).taken <= ReadAll(In(st, s).arrived)
    ensures OwnsKey(h, st, s)
  {
    hide ReadAll;
    assert ReadAll(In(st, s).arrived)[0] == In(st, s).taken[0];
  }

  /** Frame `j` on `t` is datagram `n` that arrived from `s`, sent to the key `t` has authenticated and passed
      on under the key `s` has. */
  ghost predicate IsDelivery(h: Hmac, st: State, t: Sid, j: nat, s: Sid, n: nat) {
    && OwnsKey(h, st, s) && OwnsKey(h, st, t) && j < |ReadAll(At(st.output, t))| && n < |Arrivals(st, s)|
    && Arrivals(st, s)[n].0 == st.key[t]
    && ReadAll(At(st.output, t))[j] == Message(FRAME_DATAGRAM, st.key[s] + Arrivals(st, s)[n].1)
  }

  ghost predicate EveryFrameArrived(h: Hmac, st: State) {
    forall t: Sid :: |At(st.ids, t)| == |ReadAll(At(st.output, t))|
      && forall j: nat :: j < |At(st.ids, t)| ==> IsFrom(h, st, t, j)
  }

  ghost predicate IsFrom(h: Hmac, st: State, t: Sid, j: nat)
    requires j < |At(st.ids, t)|
  {
    At(st.ids, t)[j] < |st.log| && IsDelivery(h, st, t, j, Origin(st, t, j).0, Origin(st, t, j).1)
  }

  ghost predicate OriginsDiffer(h: Hmac, st: State)
    requires EveryFrameArrived(h, st)
  {
    forall t: Sid, j: nat, u: Sid, l: nat :: j < |At(st.ids, t)| && l < |At(st.ids, u)| && (t, j) != (u, l) ==>
      assert IsFrom(h, st, t, j) && IsFrom(h, st, u, l); Origin(st, t, j) != Origin(st, u, l)
  }

  ghost predicate OriginsInOrder(h: Hmac, st: State)
    requires EveryFrameArrived(h, st)
  {
    forall t: Sid, j: nat, l: nat :: j < l < |At(st.ids, t)| ==>
      assert IsFrom(h, st, t, j) && IsFrom(h, st, t, l);
      Origin(st, t, j).0 == Origin(st, t, l).0 ==> Origin(st, t, j).1 < Origin(st, t, l).1
  }

  /** End to end, in every reachable state: each frame that can be read off a connection is one datagram
      found in the bytes that arrived on another, addressed to this connection's key and passed on under
      its sender's; different frames are different datagrams, wherever they were delivered; and those of
      one source follow each other on one connection in the order they arrived. */
  lemma DeliveryIsEndToEnd(h: Hmac, states: seq<State>, labels: seq<Label>, k: nat)
    requires IsRun(h, states, labels) && k < |states|
    ensures EveryFrameArrived(h, states[k]) && OriginsDiffer(h, states[k]) && OriginsInOrder(h, states[k])
  {
    DeliveryIsFaithful(h, states, labels, k);
    forall s ensures SentBy(states[k].log, s) <= Arrivals(states[k], s) {
      LogIsWhatArrived(h, states, labels, k, s);
    }
    forall s | s in states[k].key ensures OwnsKey(h, states[k], s) {
      LogIsWhatArrived(h, states, labels, k, s);
      KeysComeFromHello(h, states, labels, k, s);
      KeyIsOwned(h, states[k], s);
    }
    hide IsRun, SentBy, Arrivals, OwnsKey;
    FaithfulIsEndToEnd(h, states[k]);
  }

  lemma FaithfulIsEndToEnd(h: Hmac, st: State)
    requires NothingInvented(st) && NothingDuplicated(st) && OrderKept(st)
    requires forall s :: SentBy(st.log, s) <= Arrivals(st, s)
    requires forall s :: s in st.key ==> OwnsKey(h, st, s)
    ensures EveryFrameArrived(h, st) && OriginsDiffer(h, st) && OriginsInOrder(h, st)
  {
    hide SentBy, Arrivals, ReadAll, RankOf, OwnsKey;
    forall t: Sid, j: nat | j < |At(st.ids, t)| ensures IsFrom(h, st, t, j) {
      assert Carries(st, t, j, At(st.ids, t)[j]);
      CarriedIsDelivery(h, st, t, j, At(st.ids, t)[j]);
    }
    forall i: nat, m: nat | i < m < |st.log| && st.log[i].src == st.log[m].src
      ensures RankOf(st.log, i) < RankOf(st.log, m)
    {
      RanksGrow(st.log, i, m);
    }
    hide IsDelivery, Carries;
  }

  lemma RanksGrow(log: seq<Datagram>, i: nat, m: nat)
    requires i < m < |log| && log[i].src == log[m].src
    ensures RankOf(log, i) < RankOf(log, m)
  {
    RankHolds(log, i, m);
  }

  lemma CarriedIsDelivery(h: Hmac, st: State, t: Sid, j: nat, i: nat)
    requires Carries(st, t, j, i) && SentBy(st.log, st.log[i].src) <= Arrivals(st, st.log[i].src)
    requires OwnsKey(h, st, t) && OwnsKey(h, st, st.log[i].src)
    ensures IsDelivery(h, st, t, j, st.log[i].src, RankOf(st.log, i))
  {
    RankHolds(st.log, i, |st.log|);
    assert st.log[..|st.log|] == st.log;
    hide SentBy, Arrivals, ReadAll, RankOf, OwnsKey;
  }
}
