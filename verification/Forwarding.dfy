/** The mesh dispatcher as a step machine (relay-node/mesh/dispatcher.go). Every connection has a
    handler goroutine; a step is one frame read, one region under the table's lock, one acquisition of
    a target's write mutex, or one write to a connection, which may fail part-way. Steps of different
    handlers interleave freely. */
module Forwarding {
  import opened Common
  import opened Framing
  import opened MeshToken
  import opened RoundRobin
  import opened SessionRegistry

  /** A DATAGRAM frame read from a session, on its way to `dst`. */
  datatype Datagram = Datagram(src: Sid, srcKey: Pubkey, dst: Pubkey, wg: Bytes)

  /** Where a handler stands; `i` is the log entry it is forwarding. */
  datatype Phase =
    | AwaitHello
    | Reading
    | Picking(i: nat)
    | Waiting(i: nat, target: Sid)
    | Heading(i: nat, target: Sid)
    | Body(i: nat, target: Sid)
    | Done

  /** One connection's arriving side: the bytes not read yet; and as history, which no step reads, every
      byte that has arrived and every frame read. */
  datatype Incoming = Incoming(unread: Bytes, arrived: Bytes, taken: seq<Message>)

  datatype State = State(
    phase: map<Sid, Phase>,
    incoming: map<Sid, Incoming>,
    output: map<Sid, Bytes>,       // bytes put on the connection
    closed: set<Sid>,
    reg: Registry,
    rr: nat,
    lock: map<Sid, Sid>,           // who holds each session's write mutex
    // History, which no step reads:
    key: map<Sid, Pubkey>,         // every session ever admitted
    joined: map<Sid, nat>,         // and when
    gone: set<Sid>,                // those evicted or unregistered since
    log: seq<Datagram>,            // every datagram read, in order
    lost: map<nat, Loss>,          // the log entries given up, and why
    wrote: map<Sid, seq<Message>>, // the whole frames put on each connection
    ids: map<Sid, seq<nat>>,       // and the log entries they carry
    tail: map<Sid, Bytes>)         // what follows them

  datatype Loss = NoStream | WriteFailed(target: Sid)

  datatype Label =
    | Accept(s: Sid)
    | Arrive(s: Sid, bytes: Bytes)
    | Hello(s: Sid, secret: Bytes, now: int)
    | Reject(s: Sid)
    | Read(s: Sid)
    | Pick(s: Sid)
    | Lock(s: Sid)
    | WriteHeader(s: Sid, n: nat, ok: bool)
    | WriteBody(s: Sid, n: nat, ok: bool)
    | Leave(s: Sid)
    | Close(s: Sid)

  /** The entry of a connection, empty if nothing was ever entered. */
  function At<T>(m: map<Sid, seq<T>>, t: Sid): seq<T> {
    if t in m then m[t] else []
  }

  ghost function Initial(): State {
    State(map[], map[], map[], {}, map[], 0, map[], map[], map[], {}, [], map[], map[], map[], map[])
  }

  function MessageOf(d: Datagram): Message {
    Message(FRAME_DATAGRAM, d.srcKey + d.wg)
  }

  /** One Write of `size` bytes puts `n` of them on the connection: all if it succeeds, which it never
      does once the connection is closed, and then it puts none. */
  ghost predicate CanWrite(st: State, t: Sid, size: nat, n: nat, ok: bool) {
    n <= size && (ok ==> n == size) && (t in st.closed ==> n == 0 && !ok)
  }

  function In(st: State, s: Sid): Incoming {
    if s in st.incoming then st.incoming[s] else Incoming([], [], [])
  }

  function Arrived(c: Incoming, bytes: Bytes): Incoming {
    Incoming(c.unread + bytes, c.arrived + bytes, c.taken)
  }

  function Taken(c: Incoming, f: ReadResult): Incoming
    requires f.Frame?
  {
    Incoming(f.rest, c.arrived, c.taken + [Message(f.kind, f.payload)])
  }

  ghost predicate IsAccept(st: State, s: Sid, st': State) {
    && s !in st.phase
    && st' == st.(phase := st.phase[s := AwaitHello])
  }

  ghost predicate IsArrive(st: State, s: Sid, bytes: Bytes, st': State) {
    s in st.phase && st' == st.(incoming := st.incoming[s := Arrived(In(st, s), bytes)])
  }

  /** The first frame is a HELLO that authenticates: the session joins the table. */
  ghost predicate IsHello(h: Hmac, st: State, s: Sid, secret: Bytes, now: int, st': State) {
    && s in st.phase && st.phase[s].AwaitHello? && s !in st.closed
    && var f := ReadOne(In(st, s).unread);
    && f.Frame? && f.kind == FRAME_HELLO
    && var admitted := Authenticate(h, secret, f.payload, now);
    && admitted.Some?
    && var pk := admitted.value;
       var out := Evicted(ListOf(st.reg, pk));
       st' == st.(phase := st.phase[s := Reading], incoming := st.incoming[s := Taken(In(st, s), f)],
                  reg := Register(st.reg, pk, s),
                  closed := st.closed + out, gone := st.gone + out,
                  key := st.key[s := pk], joined := st.joined[s := |st.joined|])
  }

  ghost predicate IsReject(st: State, s: Sid, st': State) {
    s in st.phase && st.phase[s].AwaitHello? && st' == st.(phase := st.phase[s := Done])
  }

  /** One more frame: a DATAGRAM with something after the destination key goes on; others are skipped. */
  ghost predicate IsRead(st: State, s: Sid, st': State) {
    && s in st.phase && s in st.key && st.phase[s].Reading? && s !in st.closed
    && var f := ReadOne(In(st, s).unread);
    && f.Frame?
    && if f.kind != FRAME_DATAGRAM || |f.payload| < PUBKEY_LEN + 1 then Skips(st, s, f, st') else Logs(st, s, f, st')
  }

  ghost predicate Skips(st: State, s: Sid, f: ReadResult, st': State) {
    f.Frame? && st' == st.(incoming := st.incoming[s := Taken(In(st, s), f)])
  }

  ghost predicate Logs(st: State, s: Sid, f: ReadResult, st': State) {
    && s in st.key && f.Frame? && |f.payload| >= PUBKEY_LEN + 1
    && var d := Datagram(s, st.key[s], f.payload[..PUBKEY_LEN], f.payload[PUBKEY_LEN..]);
       st' == st.(incoming := st.incoming[s := Taken(In(st, s), f)], log := st.log + [d],
                  phase := st.phase[s := Picking(|st.log|)])
  }

  /** The stream the cursor stands for. */
  function Choice(list: seq<Sid>, rr: nat): (t: Sid)
    requires list != []
    ensures t in list
  {
    list[rr % |list|]
  }

  /** Under the table's lock: the next of the destination's streams in turn, or drop the datagram. */
  ghost predicate IsPick(st: State, s: Sid, st': State) {
    && s in st.phase && st.phase[s].Picking? && st.phase[s].i < |st.log|
    && var i := st.phase[s].i;
       var list := ListOf(st.reg, st.log[i].dst);
       if list == [] then Drops(st, s, i, st') else TurnsTo(st, s, i, Cursor(st.rr, 1), list, st')
  }

  ghost predicate Drops(st: State, s: Sid, i: nat, st': State) {
    st' == st.(phase := st.phase[s := Reading], lost := st.lost[i := NoStream])
  }

  ghost predicate TurnsTo(st: State, s: Sid, i: nat, rr: nat, list: seq<Sid>, st': State) {
    list != [] && st' == st.(rr := rr, phase := st.phase[s := Waiting(i, Choice(list, rr))])
  }

  ghost predicate IsLock(st: State, s: Sid, st': State) {
    && s in st.phase && st.phase[s].Waiting?
    && var t := st.phase[s].target;
    && t !in st.lock
    && st' == st.(lock := st.lock[t := s], phase := st.phase[s := Heading(st.phase[s].i, t)])
  }

  ghost predicate IsWriteHeader(st: State, s: Sid, n: nat, ok: bool, st': State) {
    && s in st.phase && st.phase[s].Heading? && st.phase[s].i < |st.log|
    && var i, t := st.phase[s].i, st.phase[s].target;
    && var header := ForwardHeader(st.log[i].srcKey, |st.log[i].wg|);
    && CanWrite(st, t, |header|, n, ok)
    && var next := st.(output := st.output[t := At(st.output, t) + header[..n]],
                       tail := st.tail[t := At(st.tail, t) + header[..n]]);
       st' == if ok then next.(phase := st.phase[s := Body(i, t)])
              else next.(phase := st.phase[s := Reading], lock := st.lock - {t}, closed := st.closed + {t},
                         lost := st.lost[i := WriteFailed(t)])
  }

  ghost predicate IsWriteBody(st: State, s: Sid, n: nat, ok: bool, st': State) {
    && s in st.phase && st.phase[s].Body? && st.phase[s].i < |st.log|
    && var i, t := st.phase[s].i, st.phase[s].target;
    && CanWrite(st, t, |st.log[i].wg|, n, ok)
    && if n == |st.log[i].wg| then CompletesFrame(st, s, i, t, ok, st') else CutsFrame(st, s, i, t, n, st')
  }

  /** All of the body is on the connection, which stays open only if the write says so. */
  ghost predicate CompletesFrame(st: State, s: Sid, i: nat, t: Sid, ok: bool, st': State) {
    && i < |st.log|
    && st' == st.(output := st.output[t := At(st.output, t) + st.log[i].wg], tail := st.tail[t := []],
                  ids := st.ids[t := At(st.ids, t) + [i]],
                  wrote := st.wrote[t := At(st.wrote, t) + [MessageOf(st.log[i])]],
                  phase := st.phase[s := Reading], lock := st.lock - {t},
                  closed := if ok then st.closed else st.closed + {t})
  }

  /** Only `n` bytes of the body are: the connection is closed. */
  ghost predicate CutsFrame(st: State, s: Sid, i: nat, t: Sid, n: nat, st': State) {
    && i < |st.log| && n < |st.log[i].wg|
    && st' == st.(output := st.output[t := At(st.output, t) + st.log[i].wg[..n]],
                  tail := st.tail[t := At(st.tail, t) + st.log[i].wg[..n]], lost := st.lost[i := WriteFailed(t)],
                  phase := st.phase[s := Reading], lock := st.lock - {t}, closed := st.closed + {t})
  }

  /** A read failed or the relay is stopping: the handler unregisters its session. */
  ghost predicate IsLeave(st: State, s: Sid, st': State) {
    && s in st.phase && st.phase[s].Reading? && s in st.key
    && st' == st.(phase := st.phase[s := Done], reg := Unregister(st.reg, st.key[s], s), gone := st.gone + {s})
  }

  /** The handler's deferred close, or the remote end going away. */
  ghost predicate IsClose(st: State, s: Sid, st': State) {
    s in st.phase && st' == st.(closed := st.closed + {s})
  }

  ghost predicate Next(h: Hmac, st: State, l: Label, st': State) {
    match l
    case Accept(s) => IsAccept(st, s, st')
    case Arrive(s, bytes) => IsArrive(st, s, bytes, st')
    case Hello(s, secret, now) => IsHello(h, st, s, secret, now, st')
    case Reject(s) => IsReject(st, s, st')
    case Read(s) => IsRead(st, s, st')
    case Pick(s) => IsPick(st, s, st')
    case Lock(s) => IsLock(st, s, st')
    case WriteHeader(s, n, ok) => IsWriteHeader(st, s, n, ok, st')
    case WriteBody(s, n, ok) => IsWriteBody(st, s, n, ok, st')
    case Leave(s) => IsLeave(st, s, st')
    case Close(s) => IsClose(st, s, st')
  }

  // ---- The invariant ----
  // Each part mentions only the components it depends on, so a step keeps most parts by touching none.

  type Phases = map<Sid, Phase>
  type Keys = map<Sid, Pubkey>

  predicate InSession(p: Phase) {
    !p.AwaitHello? && !p.Done?
  }

  ghost predicate Shape(phase: Phases, key: Keys, joined: map<Sid, nat>) {
    && key.Keys == joined.Keys
    && (forall s :: s in key ==> s in phase && !phase[s].AwaitHello?)
    && (forall s :: s in phase && InSession(phase[s]) ==> s in key)
  }

  /** The table is in order and holds exactly the sessions admitted and not gone. */
  ghost predicate Table(reg: Registry, key: Keys, joined: map<Sid, nat>, gone: set<Sid>) {
    && RegistryOk(reg, key, joined)
    && (forall s :: s in joined ==> joined[s] < |joined|)
    && (forall s :: Live(reg, s) <==> s in key && s !in gone)
    && gone <= key.Keys
  }

  ghost predicate EntryOk(d: Datagram, key: Keys) {
    d.src in key && d.srcKey == key[d.src] && 1 <= |d.wg| && |d.srcKey + d.wg| < MAX_FRAME
  }

  ghost predicate LogOk(log: seq<Datagram>, key: Keys) {
    forall i :: 0 <= i < |log| ==> EntryOk(log[i], key)
  }

  /** Entry `i` is the latest its source `s` has sent, and is on no connection. */
  ghost predicate Unsent(s: Sid, i: nat, log: seq<Datagram>, ids: map<Sid, seq<nat>>) {
    && i < |log| && log[i].src == s
    && (forall k :: i < k < |log| ==> log[k].src != s)
    && (forall t: Sid :: i !in At(ids, t))
  }

  ghost predicate Addressed(i: nat, t: Sid, log: seq<Datagram>, key: Keys) {
    i < |log| && t in key && key[t] == log[i].dst
  }

  ghost predicate PhaseOk(s: Sid, p: Phase, log: seq<Datagram>, ids: map<Sid, seq<nat>>, key: Keys) {
    match p
    case Picking(i) => Unsent(s, i, log, ids)
    case Waiting(i, t) => Unsent(s, i, log, ids) && Addressed(i, t, log, key)
    case Heading(i, t) => Unsent(s, i, log, ids) && Addressed(i, t, log, key)
    case Body(i, t) => Unsent(s, i, log, ids) && Addressed(i, t, log, key)
    case _ => true
  }

  ghost predicate PhasesOk(phase: Phases, log: seq<Datagram>, ids: map<Sid, seq<nat>>, key: Keys) {
    forall s :: s in phase ==> PhaseOk(s, phase[s], log, ids, key)
  }

  predicate Holds(p: Phase, t: Sid) {
    (p.Heading? || p.Body?) && p.target == t
  }

  /** A write mutex is held exactly by the handler that is writing. */
  ghost predicate Locks(lock: map<Sid, Sid>, phase: Phases) {
    && (forall t :: t in lock ==> lock[t] in phase && Holds(phase[lock[t]], t))
    && (forall s, t :: s in phase && Holds(phase[s], t) ==> t in lock && lock[t] == s)
  }

  /** The frames on `t` carry entries addressed to `t`, those of one source in the order it sent them. */
  ghost predicate SentOk(t: Sid, wrote: seq<Message>, ids: seq<nat>, log: seq<Datagram>, key: Keys) {
    && |wrote| == |ids|
    && (forall j :: 0 <= j < |ids| ==> Addressed(ids[j], t, log, key) && wrote[j] == MessageOf(log[ids[j]]))
    && (forall j, k :: 0 <= j < k < |ids| && log[ids[j]].src == log[ids[k]].src ==> ids[j] < ids[k])
  }

  ghost predicate Sent(wrote: map<Sid, seq<Message>>, ids: map<Sid, seq<nat>>, log: seq<Datagram>, key: Keys) {
    && (forall t: Sid :: SentOk(t, At(wrote, t), At(ids, t), log, key))
    && (forall t: Sid, u: Sid, i: nat :: i in At(ids, t) && i in At(ids, u) ==> t == u)
  }

  function HeaderOf(d: Datagram): Bytes {
    ForwardHeader(d.srcKey, |d.wg|)
  }

  /** What follows the whole frames: the header of a body under way, or on a closed connection a cut
      frame, or nothing. */
  ghost predicate TailOk(tail: Bytes, closed: bool, writer: Option<Phase>, log: seq<Datagram>) {
    if writer.Some? && writer.value.Body? then writer.value.i < |log| && tail == HeaderOf(log[writer.value.i])
    else if closed then ReadOne(tail).EndOfStream?
    else tail == []
  }

  ghost function Writer(t: Sid, lock: map<Sid, Sid>, phase: Phases): Option<Phase> {
    if t in lock && lock[t] in phase then Some(phase[lock[t]]) else None
  }

  ghost predicate StreamOk(output: Bytes, wrote: seq<Message>, tail: Bytes, closed: bool, writer: Option<Phase>,
                           log: seq<Datagram>)
  {
    output == Concat(wrote) + tail && Fits(wrote) && TailOk(tail, closed, writer, log)
  }

  ghost predicate StreamAt(st: State, t: Sid) {
    StreamOk(At(st.output, t), At(st.wrote, t), At(st.tail, t), t in st.closed, Writer(t, st.lock, st.phase), st.log)
  }

  ghost predicate Streams(st: State) {
    forall t: Sid :: StreamAt(st, t)
  }

  ghost predicate Inv(st: State) {
    && Shape(st.phase, st.key, st.joined) && Table(st.reg, st.key, st.joined, st.gone) && LogOk(st.log, st.key)
    && PhasesOk(st.phase, st.log, st.ids, st.key) && Locks(st.lock, st.phase)
    && Sent(st.wrote, st.ids, st.log, st.key) && Streams(st)
  }

  // ---- Changes that leave most things alone ----

  /** A handler that neither holds nor takes a mutex moves on. */
  lemma QuietPhase(lock: map<Sid, Sid>, phase: Phases, s: Sid, p: Phase)
    requires Locks(lock, phase) && !p.Heading? && !p.Body?
    requires s in phase ==> !phase[s].Heading? && !phase[s].Body?
    ensures Locks(lock, phase[s := p])
    ensures forall t :: Writer(t, lock, phase[s := p]) == Writer(t, lock, phase)
  {
  }

  lemma OnePhase(phase: Phases, log: seq<Datagram>, ids: map<Sid, seq<nat>>, key: Keys, s: Sid, p: Phase)
    requires PhasesOk(phase, log, ids, key) && PhaseOk(s, p, log, ids, key)
    ensures PhasesOk(phase[s := p], log, ids, key)
  {
  }

  /** Streams do not mind connections closing, nor the log growing. */
  lemma StreamsStay(st: State, st': State)
    requires Streams(st) && st'.output == st.output && st'.wrote == st.wrote && st'.tail == st.tail
    requires st.closed <= st'.closed && st.log <= st'.log
    requires forall t :: Writer(t, st'.lock, st'.phase) == Writer(t, st.lock, st.phase)
    ensures Streams(st')
  {
    forall t: Sid ensures StreamAt(st', t) {
      assert StreamAt(st, t);
      StreamStays(At(st.output, t), At(st.wrote, t), At(st.tail, t), t in st.closed, Writer(t, st.lock, st.phase),
                  st.log, t in st'.closed, st'.log);
    }
  }

  lemma StreamStays(output: Bytes, wrote: seq<Message>, tail: Bytes, closed: bool, writer: Option<Phase>,
                    log: seq<Datagram>, closed': bool, log': seq<Datagram>)
    requires StreamOk(output, wrote, tail, closed, writer, log) && (closed ==> closed') && log <= log'
    ensures StreamOk(output, wrote, tail, closed', writer, log')
  {
  }

  lemma LogKeyGrows(log: seq<Datagram>, key: Keys, s: Sid, pk: Pubkey)
    requires s !in key && LogOk(log, key)
    ensures LogOk(log, key[s := pk])
  {
  }

  lemma PhasesKeyGrows(phase: Phases, log: seq<Datagram>, ids: map<Sid, seq<nat>>, key: Keys, s: Sid, pk: Pubkey)
    requires s !in key && PhasesOk(phase, log, ids, key)
    ensures PhasesOk(phase, log, ids, key[s := pk])
  {
  }

  lemma SentKeyGrows(wrote: map<Sid, seq<Message>>, ids: map<Sid, seq<nat>>, log: seq<Datagram>, key: Keys, s: Sid,
                     pk: Pubkey)
    requires s !in key && Sent(wrote, ids, log, key)
    ensures Sent(wrote, ids, log, key[s := pk])
  {
    forall t: Sid ensures SentOk(t, At(wrote, t), At(ids, t), log, key[s := pk]) {
      assert SentOk(t, At(wrote, t), At(ids, t), log, key);
    }
  }

  lemma LogGrows(log: seq<Datagram>, key: Keys, d: Datagram)
    requires LogOk(log, key) && EntryOk(d, key)
    ensures LogOk(log + [d], key)
  {
  }

  /** A source that is not forwarding adds an entry: no other handler's entry is affected. */
  lemma PhasesLogGrows(phase: Phases, log: seq<Datagram>, ids: map<Sid, seq<nat>>, key: Keys, d: Datagram)
    requires PhasesOk(phase, log, ids, key) && d.src in phase && phase[d.src].Reading?
    ensures PhasesOk(phase, log + [d], ids, key)
  {
  }

  lemma SentLogGrows(wrote: map<Sid, seq<Message>>, ids: map<Sid, seq<nat>>, log: seq<Datagram>, key: Keys, d: Datagram)
    requires Sent(wrote, ids, log, key)
    ensures Sent(wrote, ids, log + [d], key)
    ensures Unsent(d.src, |log|, log + [d], ids)
  {
    forall t: Sid ensures SentOk(t, At(wrote, t), At(ids, t), log + [d], key) && |log| !in At(ids, t) {
      assert SentOk(t, At(wrote, t), At(ids, t), log, key);
    }
  }

  lemma EvictedAreLive(reg: Registry, key: Keys, joined: map<Sid, nat>, pk: Pubkey)
    requires RegistryOk(reg, key, joined)
    ensures forall t :: t in Evicted(ListOf(reg, pk)) ==> Live(reg, t) && t in key
  {
  }

  lemma TableRegister(reg: Registry, key: Keys, joined: map<Sid, nat>, gone: set<Sid>, pk: Pubkey, s: Sid)
    requires Table(reg, key, joined, gone) && s !in key && s !in joined
    ensures Table(Register(reg, pk, s), key[s := pk], joined[s := |joined|], gone + Evicted(ListOf(reg, pk)))
  {
    RegisterKeeps(reg, key, joined, pk, s);
    EvictedAreLive(reg, key, joined, pk);
  }

  lemma TableUnregister(reg: Registry, key: Keys, joined: map<Sid, nat>, gone: set<Sid>, s: Sid)
    requires Table(reg, key, joined, gone) && s in key
    ensures Table(Unregister(reg, key[s], s), key, joined, gone + {s})
  {
    UnregisterKeeps(reg, key, joined, s);
  }

  /** Closed connections stay closed and get nothing more. */
  ghost predicate Frozen(st: State, st': State) {
    && st.closed <= st'.closed
    && forall t :: t in st.closed ==> At(st'.output, t) == At(st.output, t)
  }

  // ---- Every step keeps the invariant ----

  lemma AcceptKeeps(st: State, s: Sid, st': State)
    requires Inv(st) && IsAccept(st, s, st')
    ensures Inv(st') && Frozen(st, st') && st'.log == st.log && st'.key == st.key
  {
    hide Table, LogOk, PhasesOk, Locks, Sent, Streams;
    QuietPhase(st.lock, st.phase, s, AwaitHello);
    OnePhase(st.phase, st.log, st.ids, st.key, s, AwaitHello);
    StreamsStay(st, st');
  }

  lemma IncomingChanges(st: State, s: Sid, c: Incoming, st': State)
    requires Inv(st) && st' == st.(incoming := st.incoming[s := c])
    ensures Inv(st') && Frozen(st, st') && st'.log == st.log && st'.key == st.key
  {
    hide Shape, Table, LogOk, PhasesOk, Locks, Sent, Streams;
    StreamsStay(st, st');
  }

  lemma ArriveKeeps(st: State, s: Sid, bytes: Bytes, st': State)
    requires Inv(st) && IsArrive(st, s, bytes, st')
    ensures Inv(st') && Frozen(st, st') && st'.log == st.log && st'.key == st.key
  {
    IncomingChanges(st, s, Arrived(In(st, s), bytes), st');
  }

  lemma HelloKeeps(h: Hmac, st: State, s: Sid, secret: Bytes, now: int, st': State)
    requires Inv(st) && IsHello(h, st, s, secret, now, st')
    ensures Inv(st') && Frozen(st, st') && st'.log == st.log
  {
    hide Table, LogOk, PhasesOk, Locks, Sent, Streams;
    var pk := st'.key[s];
    LogKeyGrows(st.log, st.key, s, pk);
    PhasesKeyGrows(st.phase, st.log, st.ids, st.key, s, pk);
    SentKeyGrows(st.wrote, st.ids, st.log, st.key, s, pk);
    TableRegister(st.reg, st.key, st.joined, st.gone, pk, s);
    QuietPhase(st.lock, st.phase, s, Reading);
    OnePhase(st.phase, st.log, st.ids, st'.key, s, Reading);
    StreamsStay(st, st');
  }

  lemma RejectKeeps(st: State, s: Sid, st': State)
    requires Inv(st) && IsReject(st, s, st')
    ensures Inv(st') && Frozen(st, st') && st'.log == st.log && st'.key == st.key
  {
    hide Table, LogOk, PhasesOk, Locks, Sent, Streams;
    QuietPhase(st.lock, st.phase, s, Done);
    OnePhase(st.phase, st.log, st.ids, st.key, s, Done);
    StreamsStay(st, st');
  }

  /** Any datagram that can be read is small enough to be forwarded. */
  lemma ReadableIsSendable(s: Sid, key: Keys, input: Bytes)
    requires s in key && ReadOne(input).Frame? && |ReadOne(input).payload| > PUBKEY_LEN
    ensures var p := ReadOne(input).payload;
            EntryOk(Datagram(s, key[s], p[..PUBKEY_LEN], p[PUBKEY_LEN..]), key)
  {
  }

  lemma ReadKeeps(st: State, s: Sid, st': State)
    requires Inv(st) && IsRead(st, s, st')
    ensures Inv(st') && Frozen(st, st') && st'.key == st.key
  {
    hide Inv, Frozen, EntryOk, ReadOne, Taken;
    var f := ReadOne(In(st, s).unread);
    if f.kind != FRAME_DATAGRAM || |f.payload| < PUBKEY_LEN + 1 {
      IncomingChanges(st, s, Taken(In(st, s), f), st');
    } else {
      ReadableIsSendable(s, st.key, In(st, s).unread);
      var d := Datagram(s, st.key[s], f.payload[..PUBKEY_LEN], f.payload[PUBKEY_LEN..]);
      ReadLogged(st, s, d, Taken(In(st, s), f), st');
    }
  }

  lemma ReadLogged(st: State, s: Sid, d: Datagram, c: Incoming, st': State)
    requires Inv(st) && s in st.phase && st.phase[s].Reading? && d.src == s && EntryOk(d, st.key)
    requires st' == st.(incoming := st.incoming[s := c], log := st.log + [d],
                        phase := st.phase[s := Picking(|st.log|)])
    ensures Inv(st') && Frozen(st, st') && st'.key == st.key
  {
    hide Shape, Table, LogOk, PhasesOk, Locks, Sent, Streams, EntryOk;
    LogGrows(st.log, st.key, d);
    PhasesLogGrows(st.phase, st.log, st.ids, st.key, d);
    SentLogGrows(st.wrote, st.ids, st.log, st.key, d);
    ShapePhase(st.phase, st.key, st.joined, s, Picking(|st.log|));
    QuietPhase(st.lock, st.phase, s, Picking(|st.log|));
    OnePhase(st.phase, st'.log, st.ids, st.key, s, Picking(|st.log|));
    StreamsStay(st, st');
  }

  /** A handler in session that holds no mutex, before or after, moves on. */
  lemma MovesOn(st: State, s: Sid, p: Phase, rr: nat, lost: map<nat, Loss>, st': State)
    requires Inv(st) && s in st.phase && InSession(st.phase[s]) && !st.phase[s].Heading? && !st.phase[s].Body?
    requires InSession(p) && !p.Heading? && !p.Body? && PhaseOk(s, p, st.log, st.ids, st.key)
    requires st' == st.(phase := st.phase[s := p], rr := rr, lost := lost)
    ensures Inv(st') && Frozen(st, st') && st'.log == st.log && st'.key == st.key
  {
    hide Shape, Table, LogOk, PhasesOk, Locks, Sent, Streams;
    ShapePhase(st.phase, st.key, st.joined, s, p);
    QuietPhase(st.lock, st.phase, s, p);
    OnePhase(st.phase, st.log, st.ids, st.key, s, p);
    StreamsStay(st, st');
  }

  lemma PickKeeps(st: State, s: Sid, st': State)
    requires Inv(st) && IsPick(st, s, st')
    ensures Inv(st') && Frozen(st, st') && st'.log == st.log && st'.key == st.key
  {
    PhaseOf(st, s);
    var i := st.phase[s].i;
    var list := ListOf(st.reg, st.log[i].dst);
    if list == [] {
      hide Inv, Frozen;
      MovesOn(st, s, Reading, st.rr, st.lost[i := NoStream], st');
    } else {
      PickForwards(st, s, i, Choice(list, Cursor(st.rr, 1)), st');
    }
  }

  lemma PickForwards(st: State, s: Sid, i: nat, t: Sid, st': State)
    requires Inv(st) && s in st.phase && st.phase[s] == Picking(i) && i < |st.log| && t in ListOf(st.reg, st.log[i].dst)
    requires st' == st.(rr := Cursor(st.rr, 1), phase := st.phase[s := Waiting(i, t)])
    ensures Inv(st') && Frozen(st, st') && st'.log == st.log && st'.key == st.key
  {
    PhaseOf(st, s);
    hide Inv, Frozen, RegistryOk, Cursor, Unsent, Addressed;
    PickedPhase(st, s, i, t);
    MovesOn(st, s, Waiting(i, t), Cursor(st.rr, 1), st.lost, st');
  }

  /** Whatever stream is picked belongs to the destination. */
  lemma PickedPhase(st: State, s: Sid, i: nat, t: Sid)
    requires RegistryOk(st.reg, st.key, st.joined) && PhaseOk(s, Picking(i), st.log, st.ids, st.key)
    requires t in ListOf(st.reg, st.log[i].dst)
    ensures PhaseOk(s, Waiting(i, t), st.log, st.ids, st.key)
  {
  }

  lemma PhaseOf(st: State, s: Sid)
    requires Inv(st) && s in st.phase
    ensures PhaseOk(s, st.phase[s], st.log, st.ids, st.key) && RegistryOk(st.reg, st.key, st.joined)
  {
  }

  lemma ShapePhase(phase: Phases, key: Keys, joined: map<Sid, nat>, s: Sid, p: Phase)
    requires Shape(phase, key, joined) && s in phase && InSession(phase[s]) && InSession(p)
    ensures Shape(phase[s := p], key, joined)
  {
  }

  /** The table, its cursor, the keys, the log and the frames put down so far are as they were. */
  ghost predicate SameRecords(st: State, st': State) {
    && st'.reg == st.reg && st'.key == st.key && st'.joined == st.joined && st'.gone == st.gone
    && st'.log == st.log && st'.ids == st.ids && st'.wrote == st.wrote && st'.rr == st.rr
  }

  lemma LockChanges(st: State, s: Sid, st': State)
    requires IsLock(st, s, st')
    ensures SameRecords(st, st') && Frozen(st, st')
    ensures st'.phase == st.phase[s := Heading(st.phase[s].i, st.phase[s].target)]
  {
  }

  lemma LockKeeps(st: State, s: Sid, st': State)
    requires Inv(st) && IsLock(st, s, st')
    ensures Inv(st') && Frozen(st, st') && st'.log == st.log && st'.key == st.key
  {
    LockChanges(st, s, st');
    TakeLock(st, s, st');
    PhaseOf(st, s);
    var p := Heading(st.phase[s].i, st.phase[s].target);
    hide IsLock, Frozen, Shape, Table, LogOk, PhasesOk, Locks, Sent, Streams, Unsent, Addressed;
    OnePhase(st.phase, st.log, st.ids, st.key, s, p);
    ShapePhase(st.phase, st.key, st.joined, s, p);
  }

  lemma TakeLock(st: State, s: Sid, st': State)
    requires Locks(st.lock, st.phase) && Streams(st) && IsLock(st, s, st')
    ensures Locks(st'.lock, st'.phase) && Streams(st')
  {
    forall t: Sid ensures StreamAt(st', t) {
      assert StreamAt(st, t);
    }
  }

  lemma LeaveKeeps(st: State, s: Sid, st': State)
    requires Inv(st) && IsLeave(st, s, st')
    ensures Inv(st') && Frozen(st, st') && st'.log == st.log && st'.key == st.key
  {
    hide Table, LogOk, PhasesOk, Locks, Sent, Streams;
    TableUnregister(st.reg, st.key, st.joined, st.gone, s);
    QuietPhase(st.lock, st.phase, s, Done);
    OnePhase(st.phase, st.log, st.ids, st.key, s, Done);
    StreamsStay(st, st');
  }

  lemma CloseKeeps(st: State, s: Sid, st': State)
    requires Inv(st) && IsClose(st, s, st')
    ensures Inv(st') && Frozen(st, st') && st'.log == st.log && st'.key == st.key
  {
    hide Shape, Table, LogOk, PhasesOk, Locks, Sent, Streams;
    StreamsStay(st, st');
  }

  // ---- The two writes ----

  lemma FrameParts(d: Datagram, n: nat)
    requires 1 <= |d.wg| && |d.srcKey + d.wg| < MAX_FRAME
    ensures HeaderOf(d) + d.wg == FrameBytes(FRAME_DATAGRAM, d.srcKey + d.wg)
    ensures n <= |HeaderOf(d)| ==> ReadOne(HeaderOf(d)[..n]).EndOfStream?
    ensures n < |d.wg| ==> ReadOne(HeaderOf(d) + d.wg[..n]).EndOfStream?
  {
    var frame := FrameBytes(FRAME_DATAGRAM, d.srcKey + d.wg);
    assert HeaderOf(d) + d.wg == frame;
    if n <= |HeaderOf(d)| {
      assert HeaderOf(d)[..n] == frame[..n];
      CutFrameEndsStream(FRAME_DATAGRAM, d.srcKey + d.wg, n);
    }
    if n < |d.wg| {
      assert HeaderOf(d) + d.wg[..n] == frame[..|HeaderOf(d)| + n];
      CutFrameEndsStream(FRAME_DATAGRAM, d.srcKey + d.wg, |HeaderOf(d)| + n);
    }
  }

  /** The holder of a mutex goes from header to body. */
  lemma KeepLock(lock: map<Sid, Sid>, phase: Phases, s: Sid, t: Sid, p: Phase)
    requires Locks(lock, phase) && s in phase && Holds(phase[s], t) && Holds(p, t)
    ensures Locks(lock, phase[s := p])
    ensures Writer(t, lock, phase) == Some(phase[s]) && Writer(t, lock, phase[s := p]) == Some(p)
    ensures forall u :: u != t ==> Writer(u, lock, phase[s := p]) == Writer(u, lock, phase)
  {
  }

  /** The holder of a mutex lets go of it. */
  lemma FreeLock(lock: map<Sid, Sid>, phase: Phases, s: Sid, t: Sid, p: Phase)
    requires Locks(lock, phase) && s in phase && Holds(phase[s], t) && !p.Heading? && !p.Body?
    ensures Locks(lock - {t}, phase[s := p])
    ensures Writer(t, lock, phase) == Some(phase[s]) && Writer(t, lock - {t}, phase[s := p]) == None
    ensures forall u :: u != t ==> Writer(u, lock - {t}, phase[s := p]) == Writer(u, lock, phase)
  {
  }

  /** One stream changes, together with its writer; the others and their writers do not. */
  lemma OneStream(st: State, st': State, t: Sid)
    requires Streams(st) && StreamAt(st', t) && st'.log == st.log
    requires forall u: Sid :: u != t ==>
      && At(st'.output, u) == At(st.output, u) && At(st'.wrote, u) == At(st.wrote, u)
      && At(st'.tail, u) == At(st.tail, u)
      && (u in st'.closed <==> u in st.closed) && Writer(u, st'.lock, st'.phase) == Writer(u, st.lock, st.phase)
    ensures Streams(st')
  {
    forall u: Sid ensures StreamAt(st', u) {
      assert StreamAt(st, u);
    }
  }

  /** A header put down, whole or in part, on a connection no body is under way on. */
  lemma HeaderStream(output: Bytes, wrote: seq<Message>, tail: Bytes, closed: bool, i: nat, t: Sid, log: seq<Datagram>,
                     n: nat, ok: bool)
    requires StreamOk(output, wrote, tail, closed, Some(Heading(i, t)), log)
    requires i < |log| && 1 <= |log[i].wg| && |log[i].srcKey + log[i].wg| < MAX_FRAME
    requires n <= |HeaderOf(log[i])| && (ok ==> n == |HeaderOf(log[i])|) && (closed ==> n == 0 && !ok)
    ensures var part := HeaderOf(log[i])[..n];
            StreamOk(output + part, wrote, tail + part, closed || !ok, if ok then Some(Body(i, t)) else None, log)
  {
    var part := HeaderOf(log[i])[..n];
    FrameParts(log[i], n);
    assert (Concat(wrote) + tail) + part == Concat(wrote) + (tail + part);
    if closed {
      assert tail + part == tail;
    } else {
      assert tail + part == part;
      assert ok ==> part == HeaderOf(log[i]);
    }
  }

  /** An entry small enough to forward. */
  ghost predicate Sendable(d: Datagram) {
    1 <= |d.wg| && |d.srcKey + d.wg| < MAX_FRAME
  }

  lemma WriteHeaderStreams(st: State, s: Sid, n: nat, ok: bool, st': State)
    requires Locks(st.lock, st.phase) && Streams(st) && IsWriteHeader(st, s, n, ok, st')
    requires Sendable(st.log[st.phase[s].i]) && Writer(st.phase[s].target, st.lock, st.phase) == Some(st.phase[s])
    ensures Locks(st'.lock, st'.phase) && Streams(st')
  {
    var i, t := st.phase[s].i, st.phase[s].target;
    assert StreamAt(st, t);
    hide Locks, Streams, StreamOk, ForwardHeader;
    if ok {
      KeepLock(st.lock, st.phase, s, t, Body(i, t));
    } else {
      FreeLock(st.lock, st.phase, s, t, Reading);
    }
    HeaderStream(At(st.output, t), At(st.wrote, t), At(st.tail, t), t in st.closed, i, t, st.log, n, ok);
    OneStream(st, st', t);
  }

  lemma HeaderChanges(st: State, s: Sid, n: nat, ok: bool, st': State)
    requires IsWriteHeader(st, s, n, ok, st')
    ensures SameRecords(st, st') && Frozen(st, st')
    ensures st'.phase == st.phase[s := if ok then Body(st.phase[s].i, st.phase[s].target) else Reading]
  {
    var t := st.phase[s].target;
    if t in st.closed {
      assert At(st'.output, t) == At(st.output, t);
    }
    hide ForwardHeader;
  }

  lemma WriteHeaderKeeps(st: State, s: Sid, n: nat, ok: bool, st': State)
    requires Inv(st) && IsWriteHeader(st, s, n, ok, st')
    ensures Inv(st') && Frozen(st, st') && st'.log == st.log && st'.key == st.key
  {
    EntryOf(st, s);
    HeaderChanges(st, s, n, ok, st');
    WriteHeaderStreams(st, s, n, ok, st');
    var p := if ok then Body(st.phase[s].i, st.phase[s].target) else Reading;
    hide IsWriteHeader, Frozen, Shape, Table, LogOk, PhasesOk, Locks, Sent, Streams, Unsent, Addressed;
    OnePhase(st.phase, st.log, st.ids, st.key, s, p);
    ShapePhase(st.phase, st.key, st.joined, s, p);
  }

  /** What is known of the entry a handler is writing. */
  lemma EntryOf(st: State, s: Sid)
    requires Inv(st) && s in st.phase && (st.phase[s].Heading? || st.phase[s].Body?)
    ensures var i, t := st.phase[s].i, st.phase[s].target;
            && Unsent(s, i, st.log, st.ids) && Addressed(i, t, st.log, st.key) && EntryOk(st.log[i], st.key)
            && Writer(t, st.lock, st.phase) == Some(st.phase[s])
  {
    assert PhaseOk(s, st.phase[s], st.log, st.ids, st.key);
    assert Holds(st.phase[s], st.phase[s].target);
  }

  /** A whole body put down after its header completes a frame. */
  lemma CompletedStream(output: Bytes, wrote: seq<Message>, tail: Bytes, closed: bool, i: nat, t: Sid,
                        log: seq<Datagram>, ok: bool)
    requires StreamOk(output, wrote, tail, closed, Some(Body(i, t)), log) && i < |log| && Sendable(log[i])
    ensures StreamOk(output + log[i].wg, wrote + [MessageOf(log[i])], [], closed || !ok, None, log)
  {
    var d := log[i];
    FrameParts(d, 0);
    assert (Concat(wrote) + tail) + d.wg == Concat(wrote) + (tail + d.wg);
    var all := wrote + [MessageOf(d)];
    assert all[..|all| - 1] == wrote;
    assert Concat(all) == Concat(wrote) + FrameBytes(FRAME_DATAGRAM, d.srcKey + d.wg);
    assert Concat(all) + [] == Concat(all);
  }

  /** Part of a body put down after its header leaves a cut frame. */
  lemma CutStream(output: Bytes, wrote: seq<Message>, tail: Bytes, closed: bool, i: nat, t: Sid, log: seq<Datagram>,
                  n: nat)
    requires StreamOk(output, wrote, tail, closed, Some(Body(i, t)), log) && i < |log| && Sendable(log[i])
    requires n < |log[i].wg|
    ensures StreamOk(output + log[i].wg[..n], wrote, tail + log[i].wg[..n], true, None, log)
  {
    var part := log[i].wg[..n];
    FrameParts(log[i], n);
    assert (Concat(wrote) + tail) + part == Concat(wrote) + (tail + part);
  }

  lemma SentOneGrows(t: Sid, wrote: seq<Message>, ids: seq<nat>, log: seq<Datagram>, key: Keys, s: Sid, i: nat)
    requires SentOk(t, wrote, ids, log, key) && Addressed(i, t, log, key) && log[i].src == s
    requires forall k :: i < k < |log| ==> log[k].src != s
    requires i !in ids
    ensures SentOk(t, wrote + [MessageOf(log[i])], ids + [i], log, key)
  {
  }

  /** A frame completed on `t` joins the others in order, for its entry is the newest of its source. */
  lemma SentGrows(wrote: map<Sid, seq<Message>>, ids: map<Sid, seq<nat>>, log: seq<Datagram>, key: Keys, s: Sid,
                  i: nat, t: Sid)
    requires Sent(wrote, ids, log, key) && Unsent(s, i, log, ids) && Addressed(i, t, log, key)
    ensures Sent(wrote[t := At(wrote, t) + [MessageOf(log[i])]], ids[t := At(ids, t) + [i]], log, key)
  {
    var wrote', ids' := wrote[t := At(wrote, t) + [MessageOf(log[i])]], ids[t := At(ids, t) + [i]];
    forall u: Sid ensures SentOk(u, At(wrote', u), At(ids', u), log, key) {
      assert SentOk(u, At(wrote, u), At(ids, u), log, key);
      if u == t {
        assert i !in At(ids, t);
        SentOneGrows(t, At(wrote, t), At(ids, t), log, key, s, i);
      }
    }
    hide SentOk, Addressed, MessageOf;
    forall u: Sid, v: Sid, k: nat | k in At(ids', u) && k in At(ids', v) ensures u == v {
      assert i !in At(ids, u) && i !in At(ids, v);
    }
  }

  lemma PhasesIdsGrow(phase: Phases, log: seq<Datagram>, ids: map<Sid, seq<nat>>, key: Keys, s: Sid, i: nat, t: Sid)
    requires PhasesOk(phase, log, ids, key) && s in phase && Unsent(s, i, log, ids)
    ensures PhasesOk(phase[s := Reading], log, ids[t := At(ids, t) + [i]], key)
  {
    var ids' := ids[t := At(ids, t) + [i]];
    forall u, k: nat | u != s && Unsent(u, k, log, ids) ensures Unsent(u, k, log, ids') {
      assert k != i;
      forall v: Sid ensures k !in At(ids', v) {
        assert k !in At(ids, v);
      }
    }
    forall u | u in phase && u != s ensures PhaseOk(u, phase[u], log, ids', key) {
      assert PhaseOk(u, phase[u], log, ids, key);
    }
  }

  lemma CompletedStreams(st: State, s: Sid, i: nat, t: Sid, ok: bool, st': State)
    requires Locks(st.lock, st.phase) && Streams(st) && CompletesFrame(st, s, i, t, ok, st') && Sendable(st.log[i])
    requires s in st.phase && st.phase[s] == Body(i, t) && Writer(t, st.lock, st.phase) == Some(Body(i, t))
    requires t in st.closed ==> !ok
    ensures Locks(st'.lock, st'.phase) && Streams(st')
  {
    assert StreamAt(st, t);
    hide Locks, Streams, StreamOk, MessageOf;
    FreeLock(st.lock, st.phase, s, t, Reading);
    CompletedStream(At(st.output, t), At(st.wrote, t), At(st.tail, t), t in st.closed, i, t, st.log, ok);
    OneStream(st, st', t);
  }

  lemma CutStreams(st: State, s: Sid, i: nat, t: Sid, n: nat, st': State)
    requires Locks(st.lock, st.phase) && Streams(st) && CutsFrame(st, s, i, t, n, st') && Sendable(st.log[i])
    requires s in st.phase && st.phase[s] == Body(i, t) && Writer(t, st.lock, st.phase) == Some(Body(i, t))
    ensures Locks(st'.lock, st'.phase) && Streams(st')
  {
    assert StreamAt(st, t);
    hide Locks, Streams, StreamOk;
    FreeLock(st.lock, st.phase, s, t, Reading);
    CutStream(At(st.output, t), At(st.wrote, t), At(st.tail, t), t in st.closed, i, t, st.log, n);
    OneStream(st, st', t);
  }

  lemma CompletedFreezes(st: State, s: Sid, i: nat, t: Sid, ok: bool, st': State)
    requires CompletesFrame(st, s, i, t, ok, st') && t !in st.closed
    ensures Frozen(st, st') && st'.log == st.log && st'.key == st.key
  {
  }

  lemma CutFreezes(st: State, s: Sid, i: nat, t: Sid, n: nat, st': State)
    requires CutsFrame(st, s, i, t, n, st') && (t in st.closed ==> n == 0)
    ensures Frozen(st, st') && st'.log == st.log && st'.key == st.key
  {
  }

  lemma CompletesKeeps(st: State, s: Sid, i: nat, t: Sid, ok: bool, st': State)
    requires Inv(st) && s in st.phase && st.phase[s] == Body(i, t)
    requires CompletesFrame(st, s, i, t, ok, st') && t !in st.closed
    ensures Inv(st')
  {
    EntryOf(st, s);
    CompletedStreams(st, s, i, t, ok, st');
    CompletedChanges(st, s, i, t, ok, st');
    hide CompletesFrame, Shape, Table, LogOk, PhasesOk, Locks, Sent, Streams, MessageOf, Unsent, Addressed, Writer;
    ShapePhase(st.phase, st.key, st.joined, s, Reading);
    SentGrows(st.wrote, st.ids, st.log, st.key, s, i, t);
    PhasesIdsGrow(st.phase, st.log, st.ids, st.key, s, i, t);
  }

  lemma CompletedChanges(st: State, s: Sid, i: nat, t: Sid, ok: bool, st': State)
    requires CompletesFrame(st, s, i, t, ok, st')
    ensures st'.reg == st.reg && st'.key == st.key && st'.joined == st.joined && st'.gone == st.gone
    ensures st'.log == st.log
    ensures st'.phase == st.phase[s := Reading] && st'.ids == st.ids[t := At(st.ids, t) + [i]]
    ensures st'.wrote == st.wrote[t := At(st.wrote, t) + [MessageOf(st.log[i])]]
    ensures st'.rr == st.rr
  {
  }

  lemma CutsKeeps(st: State, s: Sid, i: nat, t: Sid, n: nat, st': State)
    requires Inv(st) && s in st.phase && st.phase[s] == Body(i, t) && CutsFrame(st, s, i, t, n, st')
    ensures Inv(st')
  {
    EntryOf(st, s);
    CutStreams(st, s, i, t, n, st');
    CutChanges(st, s, i, t, n, st');
    hide CutsFrame, Shape, Table, LogOk, PhasesOk, Locks, Sent, Streams, Unsent, Addressed, Writer;
    ShapePhase(st.phase, st.key, st.joined, s, Reading);
    OnePhase(st.phase, st.log, st.ids, st.key, s, Reading);
  }

  lemma CutChanges(st: State, s: Sid, i: nat, t: Sid, n: nat, st': State)
    requires CutsFrame(st, s, i, t, n, st')
    ensures SameRecords(st, st') && st'.phase == st.phase[s := Reading]
  {
  }

  lemma WriteBodyKeeps(st: State, s: Sid, n: nat, ok: bool, st': State)
    requires Inv(st) && IsWriteBody(st, s, n, ok, st')
    ensures Inv(st') && Frozen(st, st') && st'.log == st.log && st'.key == st.key
  {
    var i, t := st.phase[s].i, st.phase[s].target;
    EntryOf(st, s);
    hide Inv, Frozen, CompletesFrame, CutsFrame, Unsent, Addressed, Writer;
    if n == |st.log[i].wg| {
      CompletedFreezes(st, s, i, t, ok, st');
      CompletesKeeps(st, s, i, t, ok, st');
    } else {
      CutFreezes(st, s, i, t, n, st');
      CutsKeeps(st, s, i, t, n, st');
    }
  }

  lemma StepKeeps(h: Hmac, st: State, l: Label, st': State)
    requires Inv(st) && Next(h, st, l, st')
    ensures Inv(st') && Frozen(st, st')
    ensures !l.Read? ==> st'.log == st.log
    ensures !l.Hello? ==> st'.key == st.key
  {
    hide Inv, Frozen, IsAccept, IsArrive, IsHello, IsReject, IsRead, IsPick, IsLock, IsWriteHeader, IsWriteBody,
         IsLeave, IsClose;
    match l
    case Accept(s) => AcceptKeeps(st, s, st');
    case Arrive(s, bytes) => ArriveKeeps(st, s, bytes, st');
    case Hello(s, secret, now) => HelloKeeps(h, st, s, secret, now, st');
    case Reject(s) => RejectKeeps(st, s, st');
    case Read(s) => ReadKeeps(st, s, st');
    case Pick(s) => PickKeeps(st, s, st');
    case Lock(s) => LockKeeps(st, s, st');
    case WriteHeader(s, n, ok) => WriteHeaderKeeps(st, s, n, ok, st');
    case WriteBody(s, n, ok) => WriteBodyKeeps(st, s, n, ok, st');
    case Leave(s) => LeaveKeeps(st, s, st');
    case Close(s) => CloseKeeps(st, s, st');
  }

  // ---- Whole runs ----

  ghost predicate IsRun(h: Hmac, states: seq<State>, labels: seq<Label>) {
    && |states| == |labels| + 1 && states[0] == Initial()
    && forall k :: 0 <= k < |labels| ==> Next(h, states[k], labels[k], states[k + 1])
  }

  lemma RunBefore(h: Hmac, states: seq<State>, labels: seq<Label>, k: nat)
    requires IsRun(h, states, labels) && 0 < k < |states|
    ensures |states| == |labels| + 1 && Next(h, states[k - 1], labels[k - 1], states[k])
  {
    assert Next(h, states[k - 1], labels[k - 1], states[k - 1 + 1]);
  }

  lemma {:induction false} RunKeeps(h: Hmac, states: seq<State>, labels: seq<Label>, k: nat)
    requires IsRun(h, states, labels) && k < |states|
    ensures Inv(states[k])
  {
    hide Inv, Next, Frozen;
    if k == 0 {
      InitialKeeps();
    } else {
      RunKeeps(h, states, labels, k - 1);
      StepKeeps(h, states[k - 1], labels[k - 1], states[k]);
    }
  }

  lemma InitialKeeps()
    ensures Inv(Initial())
  {
    InitialStreams();
    hide Streams;
  }

  lemma InitialStreams()
    ensures Streams(Initial())
  {
    forall t: Sid ensures StreamAt(Initial(), t) {
      hide ReadOne;
    }
  }

  /** However forwarders interleave and writes fail, what is on a connection at any time is whole
      frames followed by at most one cut one: a reader gets exactly the frames written and is never
      out of step. */
  lemma StreamsStayInSync(h: Hmac, states: seq<State>, labels: seq<Label>, k: nat, t: Sid)
    requires IsRun(h, states, labels) && k < |states|
    ensures var out := At(states[k].output, t);
            && ReadAll(out) == At(states[k].wrote, t)
            && out == Concat(ReadAll(out)) + At(states[k].tail, t) && ReadOne(At(states[k].tail, t)).EndOfStream?
  {
    RunKeeps(h, states, labels, k);
    InvMeansInSync(states[k], t);
  }

  lemma InvMeansInSync(st: State, t: Sid)
    requires Inv(st)
    ensures ReadAll(At(st.output, t)) == At(st.wrote, t)
    ensures At(st.output, t) == Concat(At(st.wrote, t)) + At(st.tail, t) && ReadOne(At(st.tail, t)).EndOfStream?
  {
    assert StreamAt(st, t);
    var writer := Writer(t, st.lock, st.phase);
    if writer.Some? && writer.value.Body? {
      var s := st.lock[t];
      assert st.phase[s].target == t;
      EntryOf(st, s);
      var d := st.log[writer.value.i];
      FrameParts(d, |HeaderOf(d)|);
      assert HeaderOf(d)[..|HeaderOf(d)|] == HeaderOf(d);
    }
    ReadAllOfConcat(At(st.wrote, t), At(st.tail, t));
  }

  /** Frame `j` a reader of `t` gets is the datagram of log entry `i`. */
  ghost predicate Carries(st: State, t: Sid, j: nat, i: nat) {
    && j < |ReadAll(At(st.output, t))| && i < |st.log|
    && ReadAll(At(st.output, t))[j] == Message(FRAME_DATAGRAM, st.log[i].srcKey + st.log[i].wg)
    && t in st.key && st.log[i].dst == st.key[t]
    && st.log[i].src in st.key && st.log[i].srcKey == st.key[st.log[i].src]
  }

  ghost predicate SameSource(st: State, t: Sid, j: nat, l: nat)
    requires j < |At(st.ids, t)| && l < |At(st.ids, t)|
  {
    var i, k := At(st.ids, t)[j], At(st.ids, t)[l];
    i < |st.log| && k < |st.log| && st.log[i].src == st.log[k].src
  }

  /** The frames a reader of each stream gets are the log entries listed for it, one for one. */
  ghost predicate NothingInvented(st: State) {
    forall t: Sid :: |At(st.ids, t)| == |ReadAll(At(st.output, t))|
      && forall j: nat :: j < |At(st.ids, t)| ==> Carries(st, t, j, At(st.ids, t)[j])
  }

  ghost predicate NothingDuplicated(st: State) {
    forall t: Sid, j: nat, u: Sid, l: nat :: j < |At(st.ids, t)| && l < |At(st.ids, u)| && (t, j) != (u, l) ==>
      At(st.ids, t)[j] != At(st.ids, u)[l]
  }

  ghost predicate OrderKept(st: State) {
    forall t: Sid, j: nat, l: nat :: j < l < |At(st.ids, t)| && SameSource(st, t, j, l) ==>
      At(st.ids, t)[j] < At(st.ids, t)[l]
  }

  /** Nothing is invented: every frame a reader gets is a datagram some session, admitted under the key
      shown, sent to this reader's key. Nothing is duplicated: no datagram is delivered twice, to one
      stream or to two. And the datagrams of one source arrive on one stream in the order it sent them. */
  lemma DeliveryIsFaithful(h: Hmac, states: seq<State>, labels: seq<Label>, k: nat)
    requires IsRun(h, states, labels) && k < |states|
    ensures NothingInvented(states[k]) && NothingDuplicated(states[k]) && OrderKept(states[k])
  {
    RunKeeps(h, states, labels, k);
    hide IsRun;
    InvMeansFaithful(states[k]);
  }

  lemma InvMeansFaithful(st: State)
    requires Inv(st)
    ensures NothingInvented(st) && NothingDuplicated(st) && OrderKept(st)
  {
    forall t: Sid
      ensures SentOk(t, At(st.wrote, t), At(st.ids, t), st.log, st.key) && ReadAll(At(st.output, t)) == At(st.wrote, t)
    {
      InvMeansInSync(st, t);
    }
    assert Sent(st.wrote, st.ids, st.log, st.key) && LogOk(st.log, st.key);
    hide Inv, ReadAll, Sent, LogOk;
    SentIsInvented(st);
    SentIsDistinct(st);
  }

  lemma SentIsInvented(st: State)
    requires LogOk(st.log, st.key)
    requires forall t: Sid :: SentOk(t, At(st.wrote, t), At(st.ids, t), st.log, st.key)
                              && ReadAll(At(st.output, t)) == At(st.wrote, t)
    ensures NothingInvented(st) && OrderKept(st)
  {
    hide ReadAll;
    forall t: Sid, j: nat | j < |At(st.ids, t)| ensures Carries(st, t, j, At(st.ids, t)[j]) {
      assert SentOk(t, At(st.wrote, t), At(st.ids, t), st.log, st.key);
      assert Addressed(At(st.ids, t)[j], t, st.log, st.key);
      assert EntryOk(st.log[At(st.ids, t)[j]], st.key);
    }
  }

  lemma SentIsDistinct(st: State)
    requires Sent(st.wrote, st.ids, st.log, st.key)
    ensures NothingDuplicated(st)
  {
    forall t: Sid, j: nat, u: Sid, l: nat | j < |At(st.ids, t)| && l < |At(st.ids, u)| && (t, j) != (u, l)
      ensures At(st.ids, t)[j] != At(st.ids, u)[l]
    {
      assert SentOk(t, At(st.wrote, t), At(st.ids, t), st.log, st.key);
      assert At(st.ids, t)[j] in At(st.ids, t) && At(st.ids, u)[l] in At(st.ids, u);
      if t == u {
        hide Sent;
        assert j != l;
      }
    }
  }

  /** The log holds what sessions sent and nothing else: it grows only by the datagram just read. */
  lemma LogIsWhatWasRead(h: Hmac, st: State, l: Label, st': State)
    requires Inv(st) && Next(h, st, l, st')
    ensures st'.log == st.log ||
      (l.Read? && exists dst: Pubkey, wg: Bytes, rest: Bytes ::
         && ReadOne(In(st, l.s).unread) == Frame(FRAME_DATAGRAM, dst + wg, rest) && l.s in st.key
         && st'.log == st.log + [Datagram(l.s, st.key[l.s], dst, wg)])
  {
    StepKeeps(h, st, l, st');
    hide Inv;
    if l.Read? && st'.log != st.log {
      var dst, wg, rest := ReadLogs(st, l.s, st');
    }
  }

  lemma LogChanges(st: State, s: Sid, f: ReadResult, st': State)
    requires Logs(st, s, f, st')
    ensures st'.incoming == st.incoming[s := Taken(In(st, s), f)] && st'.phase == st.phase[s := Picking(|st.log|)]
    ensures st'.log == st.log + [Datagram(s, st.key[s], f.payload[..PUBKEY_LEN], f.payload[PUBKEY_LEN..])]
    ensures st'.ids == st.ids && st'.lost == st.lost && st'.rr == st.rr
  {
  }

  lemma ReadLogs(st: State, s: Sid, st': State) returns (dst: Pubkey, wg: Bytes, rest: Bytes)
    requires IsRead(st, s, st') && st'.log != st.log
    ensures ReadOne(In(st, s).unread) == Frame(FRAME_DATAGRAM, dst + wg, rest) && s in st.key
    ensures st'.log == st.log + [Datagram(s, st.key[s], dst, wg)]
  {
    var f := ReadOne(In(st, s).unread);
    hide ReadOne, Logs;
    dst, wg, rest := f.payload[..PUBKEY_LEN], f.payload[PUBKEY_LEN..], f.rest;
    LogChanges(st, s, f, st');
    assert f.payload == dst + wg;
  }

  /** The next frame of `s` authenticates as `pk`. */
  ghost predicate Authenticates(h: Hmac, st: State, s: Sid, secret: Bytes, now: int, pk: Pubkey) {
    var f := ReadOne(In(st, s).unread);
    f.Frame? && f.kind == FRAME_HELLO && Authenticate(h, secret, f.payload, now) == Some(pk)
  }

  /** No key changes, and one is new only for the session whose HELLO has just authenticated with it. */
  ghost predicate KeysFromHello(h: Hmac, st: State, l: Label, st': State) {
    && (forall s :: s in st.key ==> s in st'.key && st'.key[s] == st.key[s])
    && (forall s :: s in st'.key && s !in st.key ==>
          l.Hello? && l.s == s && Authenticates(h, st, s, l.secret, l.now, st'.key[s]))
  }

  /** A session's key is the one its HELLO authenticated, and never changes. */
  lemma KeysAreAuthenticated(h: Hmac, st: State, l: Label, st': State)
    requires Inv(st) && Next(h, st, l, st')
    ensures KeysFromHello(h, st, l, st')
  {
    StepKeeps(h, st, l, st');
    PhaseShape(st);
    hide Inv, Frozen, Shape, KeysFromHello, Authenticates,
         IsAccept, IsArrive, IsHello, IsReject, IsRead, IsPick, IsLock, IsWriteHeader, IsWriteBody, IsLeave, IsClose;
    if l.Hello? {
      HelloAdmits(h, st, l.s, l.secret, l.now, st');
      NewKey(h, st, l, st');
    } else {
      NoNewKey(h, st, l, st');
    }
  }

  lemma PhaseShape(st: State)
    requires Inv(st)
    ensures Shape(st.phase, st.key, st.joined)
  {
  }

  lemma NewKey(h: Hmac, st: State, l: Label, st': State)
    requires l.Hello? && l.s !in st.key && l.s in st'.key && st'.key == st.key[l.s := st'.key[l.s]]
    requires Authenticates(h, st, l.s, l.secret, l.now, st'.key[l.s])
    ensures KeysFromHello(h, st, l, st')
  {
    hide Authenticates;
  }

  lemma NoNewKey(h: Hmac, st: State, l: Label, st': State)
    requires st'.key == st.key
    ensures KeysFromHello(h, st, l, st')
  {
    hide Authenticates;
  }

  lemma HelloAdmits(h: Hmac, st: State, s: Sid, secret: Bytes, now: int, st': State)
    requires Shape(st.phase, st.key, st.joined) && IsHello(h, st, s, secret, now, st')
    ensures s !in st.key && s in st'.key && st'.key == st.key[s := st'.key[s]]
    ensures Authenticates(h, st, s, secret, now, st'.key[s])
  {
    hide Authenticate, ReadOne, Register, Evicted;
  }

  lemma RunFreezes(h: Hmac, states: seq<State>, labels: seq<Label>, k: nat)
    requires IsRun(h, states, labels) && k + 1 < |states|
    ensures Frozen(states[k], states[k + 1])
  {
    RunKeeps(h, states, labels, k);
    hide Inv;
    StepKeeps(h, states[k], labels[k], states[k + 1]);
  }

  /** Once a connection is closed, nothing more is ever put on it. */
  lemma {:induction false} NothingAfterClose(h: Hmac, states: seq<State>, labels: seq<Label>, j: nat, k: nat, t: Sid)
    requires IsRun(h, states, labels) && j <= k < |states| && t in states[j].closed
    ensures t in states[k].closed && At(states[k].output, t) == At(states[j].output, t)
  {
    hide IsRun;
    if j < k {
      NothingAfterClose(h, states, labels, j, k - 1, t);
      RunFreezes(h, states, labels, k - 1);
    }
  }

  /** In every reachable state each list is non-empty, at most 16 long, in order of joining and of its
      own key's sessions; and the sessions on the lists are those admitted less those gone. */
  lemma TableIsExact(h: Hmac, states: seq<State>, labels: seq<Label>, k: nat)
    requires IsRun(h, states, labels) && k < |states|
    ensures var st := states[k];
      && RegistryOk(st.reg, st.key, st.joined)
      && AllLive(st.reg, st.key) == st.key.Keys - st.gone
      && |AllLive(st.reg, st.key)| == |st.key| - |st.gone|
  {
    RunKeeps(h, states, labels, k);
    var st := states[k];
    assert AllLive(st.reg, st.key) == st.key.Keys - st.gone;
    assert st.key.Keys == AllLive(st.reg, st.key) + st.gone;
    SizeOfUnion(AllLive(st.reg, st.key), st.gone, st.key.Keys);
  }

  /** The handler is writing to `t`, and its write can end and let go of the mutex. */
  ghost predicate CanFinishWrite(h: Hmac, st: State, u: Sid, t: Sid) {
    && u in st.phase && Holds(st.phase[u], t)
    && exists n: nat, ok: bool, st': State :: t !in st'.lock
         && (Next(h, st, WriteHeader(u, n, ok), st') || Next(h, st, WriteBody(u, n, ok), st'))
  }

  /** No deadlock: a handler waiting for a stream's mutex can take it, or waits only for a handler that
      is writing to that very stream and can let go of it at once. */
  lemma WaitersAreServed(h: Hmac, states: seq<State>, labels: seq<Label>, k: nat, s: Sid)
    requires IsRun(h, states, labels) && k < |states| && s in states[k].phase && states[k].phase[s].Waiting?
    ensures var st, t := states[k], states[k].phase[s].target;
      if t in st.lock then CanFinishWrite(h, st, st.lock[t], t) else exists st' :: Next(h, st, Lock(s), st')
  {
    RunKeeps(h, states, labels, k);
    var st, t := states[k], states[k].phase[s].target;
    if t in st.lock {
      WriterCanFinish(h, st, st.lock[t]);
    } else {
      var st' := st.(lock := st.lock[t := s], phase := st.phase[s := Heading(st.phase[s].i, t)]);
      assert Next(h, st, Lock(s), st');
    }
  }

  lemma WriterCanFinish(h: Hmac, st: State, u: Sid)
    requires Inv(st) && u in st.phase && (st.phase[u].Heading? || st.phase[u].Body?)
    ensures CanFinishWrite(h, st, u, st.phase[u].target)
  {
    EntryOf(st, u);
    hide Inv;
    if st.phase[u].Heading? {
      HeaderCanFail(h, st, u);
    } else {
      BodyCanFail(h, st, u);
    }
  }

  lemma HeaderCanFail(h: Hmac, st: State, u: Sid)
    requires u in st.phase && st.phase[u].Heading? && st.phase[u].i < |st.log|
    ensures CanFinishWrite(h, st, u, st.phase[u].target)
  {
    var st' := HeaderFails(st, u);
    hide IsWriteHeader;
    assert Next(h, st, WriteHeader(u, 0, false), st');
  }

  lemma HeaderFails(st: State, u: Sid) returns (st': State)
    requires u in st.phase && st.phase[u].Heading? && st.phase[u].i < |st.log|
    ensures IsWriteHeader(st, u, 0, false, st') && st.phase[u].target !in st'.lock
  {
    var i, t := st.phase[u].i, st.phase[u].target;
    var none := ForwardHeader(st.log[i].srcKey, |st.log[i].wg|)[..0];
    st' := st.(output := st.output[t := At(st.output, t) + none], tail := st.tail[t := At(st.tail, t) + none],
               phase := st.phase[u := Reading], lock := st.lock - {t}, closed := st.closed + {t},
               lost := st.lost[i := WriteFailed(t)]);
    hide ForwardHeader;
  }

  lemma BodyCanFail(h: Hmac, st: State, u: Sid)
    requires u in st.phase && st.phase[u].Body? && st.phase[u].i < |st.log| && |st.log[st.phase[u].i].wg| > 0
    ensures CanFinishWrite(h, st, u, st.phase[u].target)
  {
    var i, t := st.phase[u].i, st.phase[u].target;
    var none := st.log[i].wg[..0];
    var st' := st.(output := st.output[t := At(st.output, t) + none], tail := st.tail[t := At(st.tail, t) + none],
                   phase := st.phase[u := Reading], lock := st.lock - {t}, closed := st.closed + {t},
                   lost := st.lost[i := WriteFailed(t)]);
    assert CutsFrame(st, u, i, t, 0, st');
    assert Next(h, st, WriteBody(u, 0, false), st');
  }

  // ---- Conservation ----

  /** The log entry a handler has in hand. */
  function InHand(p: Phase): Option<nat> {
    match p
    case Picking(i) => Some(i)
    case Waiting(i, _) => Some(i)
    case Heading(i, _) => Some(i)
    case Body(i, _) => Some(i)
    case _ => None
  }

  ghost predicate Pending(phase: Phases, log: seq<Datagram>, i: nat)
    requires i < |log|
  {
    log[i].src in phase && InHand(phase[log[i].src]) == Some(i)
  }

  ghost predicate OnStream(ids: map<Sid, seq<nat>>, i: nat) {
    exists t: Sid :: i in At(ids, t)
  }

  /** Entry `i` is in hand, on a stream, or given up: exactly one of the three. */
  ghost predicate OneFate(phase: Phases, log: seq<Datagram>, ids: map<Sid, seq<nat>>, lost: map<nat, Loss>, i: nat)
    requires i < |log|
  {
    var pending, sent := Pending(phase, log, i), OnStream(ids, i);
    (pending || sent || i in lost) && !(pending && sent) && !(pending && i in lost) && !(sent && i in lost)
  }

  ghost predicate Fates(phase: Phases, log: seq<Datagram>, ids: map<Sid, seq<nat>>, lost: map<nat, Loss>) {
    && (forall i :: 0 <= i < |log| ==> OneFate(phase, log, ids, lost, i))
    && (forall i :: i in lost ==> i < |log|)
  }

  /** A handler that keeps in hand what it had changes no fate. */
  lemma FatesPhase(phase: Phases, log: seq<Datagram>, ids: map<Sid, seq<nat>>, lost: map<nat, Loss>, s: Sid, p: Phase)
    requires Fates(phase, log, ids, lost)
    requires InHand(p) == if s in phase then InHand(phase[s]) else None
    ensures Fates(phase[s := p], log, ids, lost)
  {
    var phase' := phase[s := p];
    forall i | 0 <= i < |log| ensures OneFate(phase', log, ids, lost, i) {
      assert OneFate(phase, log, ids, lost, i);
    }
  }

  lemma FatesLost(phase: Phases, log: seq<Datagram>, ids: map<Sid, seq<nat>>, lost: map<nat, Loss>, s: Sid, i: nat,
                  why: Loss)
    requires Fates(phase, log, ids, lost) && s in phase && InHand(phase[s]) == Some(i) && i < |log| && log[i].src == s
    ensures Fates(phase[s := Reading], log, ids, lost[i := why])
  {
    var phase', lost' := phase[s := Reading], lost[i := why];
    forall k | 0 <= k < |log| ensures OneFate(phase', log, ids, lost', k) {
      assert OneFate(phase, log, ids, lost, k);
    }
  }

  lemma FatesSent(phase: Phases, log: seq<Datagram>, ids: map<Sid, seq<nat>>, lost: map<nat, Loss>, s: Sid, i: nat,
                  t: Sid)
    requires Fates(phase, log, ids, lost) && s in phase && InHand(phase[s]) == Some(i) && i < |log| && log[i].src == s
    ensures Fates(phase[s := Reading], log, ids[t := At(ids, t) + [i]], lost)
  {
    var ids' := ids[t := At(ids, t) + [i]];
    forall k: nat ensures OnStream(ids', k) <==> OnStream(ids, k) || k == i {
      assert i in At(ids', t);
      if u: Sid :| k in At(ids, u) {
        assert k in At(ids', u);
      }
      if u: Sid :| k in At(ids', u) && k != i {
        assert k in At(ids, u);
      }
    }
    var phase' := phase[s := Reading];
    forall k | 0 <= k < |log| ensures OneFate(phase', log, ids', lost, k) {
      assert OneFate(phase, log, ids, lost, k);
    }
  }

  lemma FatesRead(phase: Phases, log: seq<Datagram>, ids: map<Sid, seq<nat>>, lost: map<nat, Loss>, d: Datagram)
    requires Fates(phase, log, ids, lost) && d.src in phase && InHand(phase[d.src]) == None && !OnStream(ids, |log|)
    ensures Fates(phase[d.src := Picking(|log|)], log + [d], ids, lost)
  {
    var phase', log' := phase[d.src := Picking(|log|)], log + [d];
    forall k | 0 <= k < |log'| ensures OneFate(phase', log', ids, lost, k) {
      if k < |log| {
        assert OneFate(phase, log, ids, lost, k);
      }
    }
  }

  /** The entry in a handler's hand is its own. */
  lemma InHandIsOwn(st: State, s: Sid)
    requires Inv(st) && s in st.phase && InHand(st.phase[s]).Some?
    ensures var i := InHand(st.phase[s]).value; i < |st.log| && st.log[i].src == s
  {
  }

  lemma BeyondLogIsUnsent(st: State)
    requires Inv(st)
    ensures !OnStream(st.ids, |st.log|)
  {
  }

  lemma SkipChanges(st: State, s: Sid, f: ReadResult, st': State)
    requires Skips(st, s, f, st')
    ensures st'.log == st.log && st'.phase == st.phase && st'.ids == st.ids && st'.lost == st.lost && st'.rr == st.rr
  {
  }

  lemma ReadFates(st: State, s: Sid, st': State)
    requires Inv(st) && Fates(st.phase, st.log, st.ids, st.lost) && IsRead(st, s, st')
    ensures Fates(st'.phase, st'.log, st'.ids, st'.lost)
  {
    BeyondLogIsUnsent(st);
    hide Inv, Fates, OnStream, ReadOne, Logs, Skips;
    var f := ReadOne(In(st, s).unread);
    if f.kind == FRAME_DATAGRAM && |f.payload| >= PUBKEY_LEN + 1 {
      var d := Datagram(s, st.key[s], f.payload[..PUBKEY_LEN], f.payload[PUBKEY_LEN..]);
      LogChanges(st, s, f, st');
      FatesRead(st.phase, st.log, st.ids, st.lost, d);
    } else {
      SkipChanges(st, s, f, st');
    }
  }

  lemma DropChanges(st: State, s: Sid, i: nat, st': State)
    requires Drops(st, s, i, st')
    ensures st'.log == st.log && st'.ids == st.ids && st'.incoming == st.incoming
    ensures st'.phase == st.phase[s := Reading] && st'.lost == st.lost[i := NoStream]
  {
  }

  lemma TurnChanges(st: State, s: Sid, i: nat, rr: nat, list: seq<Sid>, st': State)
    requires TurnsTo(st, s, i, rr, list, st')
    ensures st'.log == st.log && st'.ids == st.ids && st'.incoming == st.incoming && st'.lost == st.lost
    ensures st'.phase == st.phase[s := Waiting(i, Choice(list, rr))]
  {
  }

  lemma PickFates(st: State, s: Sid, st': State)
    requires Inv(st) && Fates(st.phase, st.log, st.ids, st.lost) && IsPick(st, s, st')
    ensures Fates(st'.phase, st'.log, st'.ids, st'.lost)
  {
    InHandIsOwn(st, s);
    hide Inv, Fates, Drops, TurnsTo, Cursor, ListOf;
    var i := st.phase[s].i;
    var list := ListOf(st.reg, st.log[i].dst);
    if list == [] {
      DropChanges(st, s, i, st');
      FatesLost(st.phase, st.log, st.ids, st.lost, s, i, NoStream);
    } else {
      TurnChanges(st, s, i, Cursor(st.rr, 1), list, st');
      FatesPhase(st.phase, st.log, st.ids, st.lost, s, Waiting(i, Choice(list, Cursor(st.rr, 1))));
    }
  }

  lemma WriteHeaderFates(st: State, s: Sid, n: nat, ok: bool, st': State)
    requires Inv(st) && Fates(st.phase, st.log, st.ids, st.lost) && IsWriteHeader(st, s, n, ok, st')
    ensures Fates(st'.phase, st'.log, st'.ids, st'.lost)
  {
    InHandIsOwn(st, s);
    hide Inv, Fates, CanWrite, ForwardHeader;
    var i, t := st.phase[s].i, st.phase[s].target;
    if ok {
      FatesPhase(st.phase, st.log, st.ids, st.lost, s, Body(i, t));
    } else {
      FatesLost(st.phase, st.log, st.ids, st.lost, s, i, WriteFailed(t));
    }
  }

  lemma WriteBodyFates(st: State, s: Sid, n: nat, ok: bool, st': State)
    requires Inv(st) && Fates(st.phase, st.log, st.ids, st.lost) && IsWriteBody(st, s, n, ok, st')
    ensures Fates(st'.phase, st'.log, st'.ids, st'.lost)
  {
    InHandIsOwn(st, s);
    hide Inv, Fates, CanWrite, MessageOf;
    var i, t := st.phase[s].i, st.phase[s].target;
    if n == |st.log[i].wg| {
      FatesSent(st.phase, st.log, st.ids, st.lost, s, i, t);
    } else {
      FatesLost(st.phase, st.log, st.ids, st.lost, s, i, WriteFailed(t));
    }
  }

  /** A step other than these four leaves what each handler has in hand. */
  lemma OtherStepKeepsHands(h: Hmac, st: State, l: Label, st': State) returns (s: Sid, p: Phase)
    requires Shape(st.phase, st.key, st.joined) && Next(h, st, l, st')
    requires !l.Read? && !l.Pick? && !l.WriteHeader? && !l.WriteBody?
    ensures st'.log == st.log && st'.ids == st.ids && st'.lost == st.lost
    ensures st'.phase == st.phase[s := p] || st'.phase == st.phase
    ensures InHand(p) == if s in st.phase then InHand(st.phase[s]) else None
  {
    hide Shape, Authenticate, ReadOne, Register, Unregister, Evicted;
    s := l.s;
    p := if s in st'.phase then st'.phase[s] else AwaitHello;
  }

  lemma OtherStepKeepsFates(h: Hmac, st: State, l: Label, st': State)
    requires Shape(st.phase, st.key, st.joined) && Fates(st.phase, st.log, st.ids, st.lost) && Next(h, st, l, st')
    requires !l.Read? && !l.Pick? && !l.WriteHeader? && !l.WriteBody?
    ensures Fates(st'.phase, st'.log, st'.ids, st'.lost)
  {
    hide Fates, Shape, Next, InHand;
    var s, p := OtherStepKeepsHands(h, st, l, st');
    if st'.phase == st.phase[s := p] {
      FatesPhase(st.phase, st.log, st.ids, st.lost, s, p);
    }
  }

  lemma StepKeepsFates(h: Hmac, st: State, l: Label, st': State)
    requires Inv(st) && Fates(st.phase, st.log, st.ids, st.lost) && Next(h, st, l, st')
    ensures Fates(st'.phase, st'.log, st'.ids, st'.lost)
  {
    hide Fates, Shape, Table, LogOk, PhasesOk, Locks, Sent, Streams, InHand,
         IsAccept, IsArrive, IsHello, IsReject, IsRead, IsPick, IsLock, IsWriteHeader, IsWriteBody, IsLeave, IsClose;
    match l
    case Read(s) => ReadFates(st, s, st');
    case Pick(s) => PickFates(st, s, st');
    case WriteHeader(s, n, ok) => WriteHeaderFates(st, s, n, ok, st');
    case WriteBody(s, n, ok) => WriteBodyFates(st, s, n, ok, st');
    case _ => OtherStepKeepsFates(h, st, l, st');
  }

  lemma InitialFates()
    ensures var st := Initial(); Fates(st.phase, st.log, st.ids, st.lost)
  {
  }

  /** Conservation: in every reachable state each datagram read is in exactly one place: in its
      handler's hand, on exactly one stream, or given up, because the destination had no stream or a
      write to the chosen one failed. */
  lemma {:induction false} EveryDatagramHasOneFate(h: Hmac, states: seq<State>, labels: seq<Label>, k: nat)
    requires IsRun(h, states, labels) && k < |states|
    ensures Fates(states[k].phase, states[k].log, states[k].ids, states[k].lost)
  {
    hide Inv, Fates, Next;
    if k == 0 {
      InitialFates();
    } else {
      EveryDatagramHasOneFate(h, states, labels, k - 1);
      RunKeeps(h, states, labels, k - 1);
      StepKeepsFates(h, states[k - 1], labels[k - 1], states[k]);
    }
  }
}
