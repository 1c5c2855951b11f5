/** The wake-up broker (control-plane/events/broker.go) and the long-poll heartbeat that waits on it
    (control-plane/handler/node.go). The broker's maps are edited under its lock; a publish takes its
    snapshot under the lock and sends outside it, so everything else may run in between. */
module Broker {

  /** A wake channel: one slot, so all there is to know is whether it is full. */
  type Chan = nat

  type Subs = map<string, set<Chan>>

  function Of(subs: Subs, account: string): set<Chan> {
    if account in subs then subs[account] else {}
  }

  function Subscribed(subs: Subs, account: string, c: Chan): Subs {
    subs[account := Of(subs, account) + {c}]
  }

  /** Takes the channel out, and the account's set with it when that was the last one. */
  function Unsubscribed(subs: Subs, account: string, c: Chan): Subs {
    if account !in subs then subs
    else if subs[account] - {c} == {} then subs - {account}
    else subs[account := subs[account] - {c}]
  }

  class Broker {
    var subs: Subs
    var full: set<Chan>  // channels with a wake-up waiting in them
    var made: set<Chan>

    constructor ()
      ensures subs == map[] && full == {} && made == {}
    {
      subs, full, made := map[], {}, {};
    }

    method Subscribe(account: string, c: Chan)
      requires c !in made
      modifies this
      ensures subs == Subscribed(old(subs), account, c)
      ensures made == old(made) + {c} && full == old(full) - {c}
    {
      made, full := made + {c}, full - {c};
      if account !in subs {
        subs := subs[account := {}];
      }
      subs := subs[account := subs[account] + {c}];
    }

    method Unsubscribe(account: string, c: Chan)
      modifies this`subs
      ensures subs == Unsubscribed(old(subs), account, c)
    {
      if account in subs {
        subs := subs[account := subs[account] - {c}];
        if subs[account] == {} {
          subs := subs - {account};
          assert old(subs) - {account} == subs;
        }
      }
    }

    /** With nothing else running, a publish leaves a wake-up in each channel of the account, one at most,
        and touches no other channel. */
    method Publish(account: string)
      modifies this`full
      ensures full == old(full) + Of(subs, account)
    {
      var chans := Of(subs, account);
      while chans != {}
        invariant chans <= Of(subs, account)
        invariant full == old(full) + (Of(subs, account) - chans)
        decreases chans
      {
        var c :| c in chans;
        if c !in full {
          full := full + {c};
        }
        chans := chans - {c};
      }
    }
  }

  // ---- All interleavings ----

  /** One request: it writes, publishes, and if it is a long poll subscribes, waits, and re-reads. */
  type Handler = nat

  datatype Phase =
    | Wrote
    | Sending(left: set<Chan>, news: nat)  // snapshot not yet attempted; the version the snapshot follows
    | Waiting(c: Chan)
    | Woken(c: Chan)
    | Leaving(c: Chan)
    | Over

  datatype State = State(
    account: map<Handler, string>,
    phase: map<Handler, Phase>,
    subs: Subs,
    full: set<Chan>,
    version: map<string, nat>,        // writes committed to each account's state so far
    // History, which no step reads:
    owner: map<Chan, Handler>,        // every channel made, and the request waiting on it
    told: map<Chan, nat>,             // the latest version a send attempt on the channel stood for
    seen: map<Chan, nat>,             // the version its request last read after a wake-up
    senders: map<Chan, set<Handler>>) // the requests that attempted a send on it

  datatype Label =
    | Write(h: Handler, account: string)
    | Snapshot(h: Handler)
    | Send(h: Handler, c: Chan)
    | Finish(h: Handler)
    | Subscribe(h: Handler, c: Chan)
    | Receive(h: Handler)
    | Reread(h: Handler)
    | Timeout(h: Handler)
    | Unsubscribe(h: Handler)

  function Initial(): State {
    State(map[], map[], map[], {}, map[], map[], map[], map[], map[])
  }

  function Num<K>(m: map<K, nat>, k: K): nat {
    if k in m then m[k] else 0
  }

  function Senders(m: map<Chan, set<Handler>>, c: Chan): set<Handler> {
    if c in m then m[c] else {}
  }

  function Max(a: nat, b: nat): nat {
    if a < b then b else a
  }

  ghost predicate Next(st: State, l: Label, st': State) {
    match l
    case Write(h, a) =>
      && h !in st.phase
      && st' == st.(account := st.account[h := a], phase := st.phase[h := Wrote],
                    version := st.version[a := Num(st.version, a) + 1])
    case Snapshot(h) =>
      && At(st, h).Wrote?
      && st' == st.(phase := st.phase[h := Sending(Of(st.subs, st.account[h]), Num(st.version, st.account[h]))])
    case Send(h, c) =>
      && At(st, h).Sending? && c in At(st, h).left
      && var news := At(st, h).news;
         st' == st.(full := st.full + {c}, phase := st.phase[h := Sending(At(st, h).left - {c}, news)],
                    told := st.told[c := Max(Num(st.told, c), news)],
                    senders := st.senders[c := Senders(st.senders, c) + {h}])
    case Finish(h) => Sent(st, h) && st' == st.(phase := st.phase[h := Over])
    case Subscribe(h, c) =>
      && Sent(st, h) && c !in st.owner
      && st' == st.(subs := Subscribed(st.subs, st.account[h], c), phase := st.phase[h := Waiting(c)],
                    owner := st.owner[c := h])
    case Receive(h) =>
      && At(st, h).Waiting? && At(st, h).c in st.full
      && st' == st.(full := st.full - {At(st, h).c}, phase := st.phase[h := Woken(At(st, h).c)])
    case Reread(h) =>
      && At(st, h).Woken?
      && st' == st.(phase := st.phase[h := Leaving(At(st, h).c)],
                    seen := st.seen[At(st, h).c := Num(st.version, st.account[h])])
    case Timeout(h) => At(st, h).Waiting? && st' == st.(phase := st.phase[h := Leaving(At(st, h).c)])
    case Unsubscribe(h) =>
      && At(st, h).Leaving?
      && st' == st.(subs := Unsubscribed(st.subs, st.account[h], At(st, h).c), phase := st.phase[h := Over])
  }

  /** Where a request stands; one that has not begun is over. */
  function At(st: State, h: Handler): Phase {
    if h in st.phase && h in st.account then st.phase[h] else Over
  }

  /** All sends attempted. */
  predicate Sent(st: State, h: Handler) {
    At(st, h).Sending? && At(st, h).left == {}
  }

  ghost predicate IsRun(states: seq<State>, labels: seq<Label>) {
    && |states| == |labels| + 1 && states[0] == Initial()
    && forall k :: 0 <= k < |labels| ==> Next(states[k], labels[k], states[k + 1])
  }

  lemma OfSubscribed(subs: Subs, account: string, c: Chan)
    ensures forall a, k :: k in Of(Subscribed(subs, account, c), a) <==> k in Of(subs, a) || (a == account && k == c)
    ensures forall a :: a in Subscribed(subs, account, c) && Subscribed(subs, account, c)[a] == {} ==>
              a in subs && subs[a] == {}
  {
  }

  lemma OfUnsubscribed(subs: Subs, account: string, c: Chan)
    ensures forall a, k :: k in Of(Unsubscribed(subs, account, c), a) <==> k in Of(subs, a) && !(a == account && k == c)
    ensures forall a :: a in Unsubscribed(subs, account, c) && Unsubscribed(subs, account, c)[a] == {} ==>
              a in subs && subs[a] == {}
  {
  }

  // ---- The invariant ----

  predicate Polls(p: Phase, c: Chan) {
    (p.Waiting? || p.Woken? || p.Leaving?) && p.c == c
  }

  ghost predicate OwnerOk(st: State, c: Chan, h: Handler) {
    && h in st.account && h in st.phase
    && (Polls(st.phase[h], c) || st.phase[h].Over?)
    && (forall a :: c in Of(st.subs, a) <==> a == st.account[h] && Polls(st.phase[h], c))
  }

  ghost predicate PhaseOk(st: State, h: Handler) {
    match At(st, h)
    case Wrote => Num(st.version, st.account[h]) >= 1
    case Sending(left, news) =>
      && 1 <= news <= Num(st.version, st.account[h])
      && forall c :: c in left ==> c in st.owner && OnAccount(st, c, st.account[h])
    case Waiting(c) => c in st.owner && st.owner[c] == h && Num(st.seen, c) == 0
    case Woken(c) => c in st.owner && st.owner[c] == h
    case Leaving(c) => c in st.owner && st.owner[c] == h
    case _ => true
  }

  ghost predicate OnAccount(st: State, c: Chan, a: string) {
    c in st.owner && st.owner[c] in st.account && st.account[st.owner[c]] == a
  }

  /** No wake-up is lost: news a channel has been told and its request has not read since either still
      waits in the channel, or has just been received, unless the request has stopped listening. */
  ghost predicate NotLost(st: State, c: Chan) {
    Num(st.told, c) > Num(st.seen, c) ==>
      c in st.full || (c in st.owner && (At(st, st.owner[c]).Woken? || !At(st, st.owner[c]).Waiting?))
  }

  /** Wake-ups come from other requests of the same account, and stand for writes already made. */
  ghost predicate TracesOk(st: State, c: Chan) {
    && (c !in st.owner ==>
          Num(st.told, c) == 0 && Num(st.seen, c) == 0 && Senders(st.senders, c) == {} && c !in st.full)
    && (forall h :: h in Senders(st.senders, c) ==>
          h in st.account && OnAccount(st, c, st.account[h]) && st.owner[c] != h)
    && (c in st.owner && st.owner[c] in st.account ==> Num(st.told, c) <= Num(st.version, st.account[st.owner[c]]))
  }

  ghost predicate InvBut(st: State) {
    && st.phase.Keys == st.account.Keys
    && (forall c :: c in st.owner ==> OwnerOk(st, c, st.owner[c]))
    && (forall c, a :: c in Of(st.subs, a) ==> c in st.owner)
    && (forall a :: a in st.subs ==> st.subs[a] != {})
    && (forall h :: h in st.phase ==> PhaseOk(st, h))
  }

  ghost predicate Inv(st: State) {
    InvBut(st) && forall c: Chan :: TracesOk(st, c) && NotLost(st, c)
  }

  lemma SendTraces(st: State, h: Handler, c: Chan, st': State, k: Chan)
    requires Next(st, Send(h, c), st') && st.phase.Keys == st.account.Keys
    requires TracesOk(st, k) && NotLost(st, k) && (k in st.owner ==> OwnerOk(st, k, st.owner[k]))
    requires h in st.phase && PhaseOk(st, h)
    ensures TracesOk(st', k) && NotLost(st', k)
  {
    if k != c {
      assert Num(st'.told, k) == Num(st.told, k) && Senders(st'.senders, k) == Senders(st.senders, k);
    } else {
      assert c in st'.full && OnAccount(st, c, st.account[h]);
    }
  }

  lemma WriteTraces(st: State, h: Handler, a: string, st': State, k: Chan)
    requires Next(st, Write(h, a), st') && st.phase.Keys == st.account.Keys
    requires TracesOk(st, k) && NotLost(st, k) && (k in st.owner ==> OwnerOk(st, k, st.owner[k]))
    ensures TracesOk(st', k) && NotLost(st', k)
  {
  }

  lemma SubscribeTraces(st: State, h: Handler, c: Chan, st': State, k: Chan)
    requires Next(st, Subscribe(h, c), st') && st.phase.Keys == st.account.Keys
    requires TracesOk(st, k) && NotLost(st, k) && (k in st.owner ==> OwnerOk(st, k, st.owner[k]))
    ensures TracesOk(st', k) && NotLost(st', k)
  {
  }

  lemma RereadTraces(st: State, h: Handler, st': State, k: Chan)
    requires Next(st, Reread(h), st') && st.phase.Keys == st.account.Keys
    requires TracesOk(st, k) && NotLost(st, k) && PhaseOk(st, h)
    ensures TracesOk(st', k) && NotLost(st', k)
  {
  }

  lemma UnsubscribeTraces(st: State, h: Handler, st': State, k: Chan)
    requires Next(st, Unsubscribe(h), st') && st.phase.Keys == st.account.Keys
    requires TracesOk(st, k) && NotLost(st, k)
    ensures TracesOk(st', k) && NotLost(st', k)
  {
  }

  /** Only a request that has not begun is not yet known. */
  lemma SenderIsKnown(st: State, l: Label, st': State)
    requires Next(st, l, st')
    ensures l.Write? || l.h in st.phase
  {
  }

  lemma QuietTraces(st: State, l: Label, st': State, k: Chan)
    requires Next(st, l, st') && st.phase.Keys == st.account.Keys && TracesOk(st, k) && NotLost(st, k)
    requires l.Snapshot? || l.Finish? || l.Receive? || l.Timeout?
    requires l.h in st.phase ==> PhaseOk(st, l.h)
    ensures TracesOk(st', k) && NotLost(st', k)
  {
    assert l.h in st.phase;
  }

  /** What is recorded of a channel survives any one step. */
  lemma TracesStay(st: State, l: Label, st': State, k: Chan)
    requires Next(st, l, st') && st.phase.Keys == st.account.Keys
    requires TracesOk(st, k) && NotLost(st, k) && (k in st.owner ==> OwnerOk(st, k, st.owner[k]))
    requires l.h in st.phase ==> PhaseOk(st, l.h)
    ensures TracesOk(st', k) && NotLost(st', k)
  {
    SenderIsKnown(st, l, st');
    hide Next, TracesOk, NotLost, OwnerOk, PhaseOk;
    match l
    case Send(h, c) => SendTraces(st, h, c, st', k);
    case Write(h, a) => WriteTraces(st, h, a, st', k);
    case Subscribe(h, c) => SubscribeTraces(st, h, c, st', k);
    case Reread(h) => RereadTraces(st, h, st', k);
    case Unsubscribe(h) => UnsubscribeTraces(st, h, st', k);
    case _ => QuietTraces(st, l, st', k);
  }

  lemma WriteKeeps(st: State, h: Handler, a: string, st': State)
    requires InvBut(st) && Next(st, Write(h, a), st')
    ensures InvBut(st')
  {
    forall k | k in st'.owner ensures OwnerOk(st', k, st'.owner[k]) {
      assert OwnerOk(st, k, st.owner[k]);
    }
    forall k | k in st'.phase && k != h ensures PhaseOk(st', k) {
      assert PhaseOk(st, k);
    }
  }

  /** A request moves on without subscribing or unsubscribing. */
  lemma MoveKeeps(st: State, h: Handler, p: Phase, st': State)
    requires InvBut(st) && h in st.phase && !st.phase[h].Over? && st'.phase == st.phase[h := p]
    requires st'.account == st.account && st'.subs == st.subs && st'.owner == st.owner && st'.version == st.version
    requires forall c :: Num(st'.seen, c) == Num(st.seen, c) || (c in st.owner && st.owner[c] == h)
    requires forall c :: Polls(p, c) <==> Polls(st.phase[h], c)
    requires PhaseOk(st', h)
    ensures InvBut(st')
  {
    forall k | k in st'.owner ensures OwnerOk(st', k, st'.owner[k]) {
      assert OwnerOk(st, k, st.owner[k]);
    }
    forall k | k in st'.phase && k != h ensures PhaseOk(st', k) {
      assert PhaseOk(st, k);
    }
  }

  lemma MovesKeep(st: State, l: Label, st': State)
    requires InvBut(st) && Next(st, l, st')
    requires l.Send? || l.Finish? || l.Receive? || l.Reread? || l.Timeout?
    ensures InvBut(st')
  {
    assert PhaseOk(st, l.h);
    hide InvBut, OnAccount;
    MoveKeeps(st, l.h, st'.phase[l.h], st');
  }

  lemma SnapshotKeeps(st: State, h: Handler, st': State)
    requires InvBut(st) && Next(st, Snapshot(h), st')
    ensures InvBut(st')
  {
    SnapshotOk(st, h, st');
    hide InvBut, PhaseOk, Of;
    MoveKeeps(st, h, st'.phase[h], st');
  }

  /** Every channel of a snapshot is on the publisher's account. */
  lemma SnapshotOk(st: State, h: Handler, st': State)
    requires InvBut(st) && Next(st, Snapshot(h), st')
    ensures PhaseOk(st', h)
  {
  }

  lemma SubscribeOwners(st: State, h: Handler, c: Chan, st': State, k: Chan)
    requires InvBut(st) && Next(st, Subscribe(h, c), st') && k in st'.owner
    ensures OwnerOk(st', k, st'.owner[k])
  {
    OfSubscribed(st.subs, st.account[h], c);
    hide Subscribed, PhaseOk;
    if k in st.owner {
      assert OwnerOk(st, k, st.owner[k]);
    } else {
      assert forall a :: c !in Of(st.subs, a);
    }
  }

  lemma SubscribeKeeps(st: State, h: Handler, c: Chan, st': State)
    requires InvBut(st) && Next(st, Subscribe(h, c), st') && Num(st.seen, c) == 0
    ensures InvBut(st')
  {
    OfSubscribed(st.subs, st.account[h], c);
    hide Subscribed;
    forall k | k in st'.owner ensures OwnerOk(st', k, st'.owner[k]) {
      SubscribeOwners(st, h, c, st', k);
    }
    hide OwnerOk;
    forall k | k in st'.phase && k != h ensures PhaseOk(st', k) {
      assert PhaseOk(st, k);
    }
  }

  lemma UnsubscribeOwners(st: State, h: Handler, st': State, k: Chan)
    requires InvBut(st) && Next(st, Unsubscribe(h), st') && k in st'.owner
    ensures OwnerOk(st', k, st'.owner[k])
  {
    OfUnsubscribed(st.subs, st.account[h], At(st, h).c);
    assert PhaseOk(st, h) && OwnerOk(st, k, st.owner[k]);
    hide Unsubscribed, InvBut;
  }

  lemma UnsubscribeKeeps(st: State, h: Handler, st': State)
    requires InvBut(st) && Next(st, Unsubscribe(h), st')
    ensures InvBut(st')
  {
    OfUnsubscribed(st.subs, st.account[h], At(st, h).c);
    hide Unsubscribed;
    forall k | k in st'.owner ensures OwnerOk(st', k, st'.owner[k]) {
      UnsubscribeOwners(st, h, st', k);
    }
    hide OwnerOk;
    forall k | k in st'.phase && k != h ensures PhaseOk(st', k) {
      assert PhaseOk(st, k);
    }
  }

  lemma StepKeeps(st: State, l: Label, st': State)
    requires Inv(st) && Next(st, l, st')
    ensures Inv(st')
  {
    forall k: Chan ensures TracesOk(st', k) && NotLost(st', k) {
      assert TracesOk(st, k) && NotLost(st, k);
      TracesStay(st, l, st', k);
    }
    assert l.Subscribe? ==> TracesOk(st, l.c);
    hide InvBut, TracesOk, NotLost, Next;
    match l
    case Write(h, a) => WriteKeeps(st, h, a, st');
    case Snapshot(h) => SnapshotKeeps(st, h, st');
    case Subscribe(h, c) => SubscribeKeeps(st, h, c, st');
    case Unsubscribe(h) => UnsubscribeKeeps(st, h, st');
    case _ => MovesKeep(st, l, st');
  }

  // ---- Whole runs ----

  lemma {:induction false} RunKeeps(states: seq<State>, labels: seq<Label>, k: nat)
    requires IsRun(states, labels) && k < |states|
    ensures Inv(states[k])
  {
    if k > 0 {
      RunKeeps(states, labels, k - 1);
      StepKeeps(states[k - 1], labels[k - 1], states[k]);
    }
  }

  lemma ToldGrows(st: State, l: Label, st': State, c: Chan)
    requires Next(st, l, st')
    ensures Num(st.told, c) <= Num(st'.told, c)
    ensures l.Send? && l.c == c ==> At(st, l.h).Sending? && At(st, l.h).news <= Num(st'.told, c)
  {
  }

  /** After a send attempt, the channel has been told that news in every later state. */
  lemma {:induction false} ToldStays(states: seq<State>, labels: seq<Label>, j: nat, k: nat, c: Chan)
    requires IsRun(states, labels) && j < k < |states| && labels[j].Send? && labels[j].c == c
    ensures At(states[j], labels[j].h).Sending? && At(states[j], labels[j].h).news <= Num(states[k].told, c)
  {
    if j < k - 1 {
      ToldStays(states, labels, j, k - 1, c);
    }
    assert Next(states[k - 1], labels[k - 1], states[k]);
    ToldGrows(states[k - 1], labels[k - 1], states[k], c);
  }

  /** A wake-up sent to a request that is still waiting is still there to be received. */
  lemma WakeupsWait(states: seq<State>, labels: seq<Label>, j: nat, k: nat, c: Chan)
    requires IsRun(states, labels) && j < k < |states| && labels[j].Send? && labels[j].c == c
    requires c in states[k].owner && At(states[k], states[k].owner[c]).Waiting?
    ensures c in states[k].full
  {
    var h, st := states[k].owner[c], states[k];
    RunKeeps(states, labels, j);
    RunKeeps(states, labels, k);
    ToldStays(states, labels, j, k, c);
    assert PhaseOk(states[j], labels[j].h);
    assert OwnerOk(st, c, h) && PhaseOk(st, h) && NotLost(st, c);
  }

  /** A request that re-reads after a wake-up sees every write that any wake-up sent to it before
      stood for, whatever ran in between. */
  lemma RereadSeesTheNews(states: seq<State>, labels: seq<Label>, j: nat, k: nat, h: Handler, c: Chan)
    requires IsRun(states, labels) && j < k < |labels| && labels[j].Send? && labels[j].c == c
    requires labels[k] == Reread(h) && At(states[k], h) == Woken(c)
    ensures At(states[j], labels[j].h).Sending? && At(states[j], labels[j].h).news <= Num(states[k + 1].seen, c)
  {
    RunKeeps(states, labels, k);
    ToldStays(states, labels, j, k, c);
    assert PhaseOk(states[k], h) && TracesOk(states[k], c);
    assert Next(states[k], labels[k], states[k + 1]);
  }

  /** No request wakes itself, and none wakes a request of another account. */
  lemma WakersAreSiblings(states: seq<State>, labels: seq<Label>, k: nat, h: Handler, c: Chan)
    requires IsRun(states, labels) && k < |labels| && labels[k] == Send(h, c)
    ensures var st := states[k];
      && h in st.account && c in st.owner && st.owner[c] != h
      && st.owner[c] in st.account && st.account[st.owner[c]] == st.account[h]
  {
    RunKeeps(states, labels, k + 1);
    RunKeeps(states, labels, k);
    assert Next(states[k], labels[k], states[k + 1]);
    assert TracesOk(states[k + 1], c) && PhaseOk(states[k], h);
    assert h in Senders(states[k + 1].senders, c);
  }

  /** The broker's map holds exactly the channels of requests that have subscribed and not yet
      unsubscribed, each under its own account: nothing leaks. */
  lemma SubscriptionsAreExact(states: seq<State>, labels: seq<Label>, k: nat, a: string, c: Chan)
    requires IsRun(states, labels) && k < |states|
    ensures var st := states[k];
      && (a in st.subs ==> st.subs[a] != {})
      && (c in Of(st.subs, a) <==>
            c in st.owner && OnAccount(st, c, a) && Polls(At(st, st.owner[c]), c))
  {
    RunKeeps(states, labels, k);
    var st := states[k];
    if c in st.owner {
      assert OwnerOk(st, c, st.owner[c]);
    }
  }

  /** A publish is for exactly the requests of its account that have subscribed and not unsubscribed by
      the time of its snapshot; one that subscribes later is not told. */
  lemma SnapshotTakesThePollers(states: seq<State>, labels: seq<Label>, k: nat, h: Handler, c: Chan)
    requires IsRun(states, labels) && k < |labels| && labels[k] == Snapshot(h)
    ensures var st := states[k];
      && h in st.account && At(states[k + 1], h).Sending?
      && (c in At(states[k + 1], h).left <==>
            c in st.owner && OnAccount(st, c, st.account[h]) && Polls(At(st, st.owner[c]), c))
  {
    assert Next(states[k], labels[k], states[k + 1]);
    SubscriptionsAreExact(states, labels, k, states[k].account[h], c);
  }

  ghost predicate Due(st: State, h: Handler, c: Chan) {
    At(st, h).Sending? && c in At(st, h).left
  }

  ghost predicate Attempted(labels: seq<Label>, j: nat, k: nat, h: Handler, c: Chan) {
    exists m :: j <= m < k && m < |labels| && labels[m] == Send(h, c)
  }

  lemma LeftStep(st: State, l: Label, st': State, h: Handler, c: Chan)
    requires Inv(st) && Next(st, l, st') && Due(st, h, c) && l != Send(h, c)
    ensures Due(st', h, c)
  {
    hide Inv, Subscribed, Unsubscribed, Of;
  }

  lemma DueStays(states: seq<State>, labels: seq<Label>, k: nat, h: Handler, c: Chan)
    requires IsRun(states, labels) && k + 1 < |states| && Due(states[k], h, c) && labels[k] != Send(h, c)
    ensures Due(states[k + 1], h, c)
  {
    RunKeeps(states, labels, k);
    hide Inv, Due, Next;
    LeftStep(states[k], labels[k], states[k + 1], h, c);
  }

  /** A publish gets round to every channel of its snapshot. */
  lemma {:induction false} PublishReachesAll(states: seq<State>, labels: seq<Label>, j: nat, k: nat, h: Handler,
                                             c: Chan)
    requires IsRun(states, labels) && j <= k < |states| && Due(states[j], h, c)
    ensures Attempted(labels, j, k, h, c) || Due(states[k], h, c)
  {
    assert |states| == |labels| + 1;
    hide IsRun, Due;
    if j < k {
      PublishReachesAll(states, labels, j, k - 1, h, c);
      if Attempted(labels, j, k - 1, h, c) {
        var m :| j <= m < k - 1 && labels[m] == Send(h, c);
        assert Attempted(labels, j, k, h, c);
      } else if labels[k - 1] == Send(h, c) {
        assert Attempted(labels, j, k, h, c);
      } else {
        DueStays(states, labels, k - 1, h, c);
      }
    }
  }

  /** No lost wake-ups: from when a publish has tried a waiting request of its snapshot, whatever the
      publisher and everyone else do next, that request, if it waits still, has a wake-up to receive. */
  lemma PublishWakesPollers(states: seq<State>, labels: seq<Label>, j: nat, k: nat, h: Handler, c: Chan)
    requires IsRun(states, labels) && j < k < |states| && labels[j] == Snapshot(h) && !Due(states[k], h, c)
    requires c in states[j].owner && h in states[j].account && OnAccount(states[j], c, states[j].account[h])
    requires Polls(At(states[j], states[j].owner[c]), c)
    requires c in states[k].owner && At(states[k], states[k].owner[c]).Waiting?
    ensures c in states[k].full
  {
    SnapshotTakesThePollers(states, labels, j, h, c);
    PublishReachesAll(states, labels, j + 1, k, h, c);
    var m :| j + 1 <= m < k && labels[m] == Send(h, c);
    WakeupsWait(states, labels, m, k, c);
  }
}
