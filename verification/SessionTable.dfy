/** The UDP relay's session table (relay-node/relay/session.go): a lookup under the read lock, and on a
    miss a second look under the write lock before creating, bounded by a capacity. */
module SessionTable {
  import opened Common

  /** A session object's identity and when it was last used. */
  datatype Session = Session(obj: nat, lastSeen: int)

  type Entries = map<string, Session>

  /** GetOrCreate's answer: the session, if there is one, and whether this call created it. */
  datatype Answer = Answer(session: Option<nat>, created: bool)

  predicate IsStale(s: Session, cutoff: int) {
    s.lastSeen < cutoff
  }

  function Touched(e: Entries, key: string, now: int): Entries
    requires key in e
  {
    e[key := e[key].(lastSeen := now)]
  }

  function Fresh(e: Entries, cutoff: int): Entries {
    map key | key in e && !IsStale(e[key], cutoff) :: e[key]
  }

  /** The region under the write lock: `obj` is the identity a new session would have. A caller is given a
      session if the key has one or there is room, the one the key has if it has one, and it is told it
      created it exactly if it did; either way the table then holds that session, fresh, and the others as
      they were. */
  ghost predicate Creates(e: Entries, capacity: int, key: string, obj: nat, now: int, e': Entries, a: Answer) {
    && (a.session.Some? <==> key in e || |e| < capacity) && (a.created <==> key !in e && |e| < capacity)
    && (a.session.Some? ==> key in e' && e'[key] == Session(a.session.value, now))
    && (a.session.Some? ==> a.session.value == if key in e then e[key].obj else obj)
    && (forall k :: k != key ==> (k in e' <==> k in e) && (k in e ==> e'[k] == e[k]))
    && (a.session.None? ==> key !in e')
  }

  class SessionTable {
    const capacity: int
    var sessions: Entries

    constructor (capacity: int)
      ensures this.capacity == capacity && sessions == map[]
    {
      this.capacity, sessions := capacity, map[];
    }

    /** The region under the read lock. */
    method Lookup(key: string, now: int) returns (found: Option<nat>)
      modifies this
      ensures found.Some? <==> key in old(sessions)
      ensures found.Some? ==> found.value == old(sessions)[key].obj
      ensures sessions == if found.Some? then Touched(old(sessions), key, now) else old(sessions)
    {
      found := None;
      if key in sessions {
        found := Some(sessions[key].obj);
        sessions := Touched(sessions, key, now);
      }
    }

    method LookupOrCreate(key: string, obj: nat, now: int) returns (a: Answer)
      modifies this
      ensures Creates(old(sessions), capacity, key, obj, now, sessions, a)
    {
      if key in sessions {
        a := Answer(Some(sessions[key].obj), false);
        sessions := Touched(sessions, key, now);
        return;
      }
      if |sessions| >= capacity {
        return Answer(None, false);
      }
      sessions := sessions[key := Session(obj, now)];
      a := Answer(Some(obj), true);
    }

    /** Both regions with nothing in between. */
    method GetOrCreate(key: string, obj: nat, now: int) returns (a: Answer)
      modifies this
      ensures Creates(old(sessions), capacity, key, obj, now, sessions, a)
    {
      var found := Lookup(key, now);
      if found.Some? {
        return Answer(found, false);
      }
      a := LookupOrCreate(key, obj, now);
    }

    method Remove(key: string)
      modifies this
      ensures sessions == old(sessions) - {key}
    {
      sessions := sessions - {key};
    }

    /** Removes, and counts, exactly the sessions last seen before the cutoff. */
    method CleanStale(cutoff: int) returns (removed: nat)
      modifies this
      ensures sessions == Fresh(old(sessions), cutoff)
      ensures forall key :: key in sessions <==> key in old(sessions) && old(sessions)[key].lastSeen >= cutoff
      ensures forall key :: key in sessions ==> sessions[key] == old(sessions)[key]
      ensures removed == |old(sessions)| - |sessions|
      ensures removed == |StaleKeys(old(sessions), cutoff)|
    {
      sessions, removed := DropStale(sessions, cutoff);
      assert old(sessions).Keys == sessions.Keys + StaleKeys(old(sessions), cutoff);
    }
  }

  function StaleKeys(e: Entries, cutoff: int): set<string> {
    set key | key in e && IsStale(e[key], cutoff)
  }

  /** The loop of CleanStale, deleting from the map it ranges over. */
  method DropStale(e: Entries, cutoff: int) returns (kept: Entries, removed: nat)
    ensures kept == Fresh(e, cutoff) && removed == |StaleKeys(e, cutoff)|
  {
    kept, removed := e, 0;
    ghost var gone: set<string> := {};
    var keys := e.Keys;
    while keys != {}
      invariant keys <= e.Keys && gone <= e.Keys - keys && kept == e - gone
      invariant forall key :: key in e.Keys - keys ==> (key in gone <==> IsStale(e[key], cutoff))
      invariant removed == |gone|
      decreases keys
    {
      var key :| key in keys;
      if IsStale(kept[key], cutoff) {
        kept := kept - {key};
        removed := removed + 1;
        gone := gone + {key};
      }
      keys := keys - {key};
    }
    assert gone == StaleKeys(e, cutoff);
  }

  // ---- All interleavings ----

  datatype State = State(
    entries: Entries,
    missed: map<nat, string>,   // callers between the two locks, and the key each is after
    next: nat,                  // identity of the next session object
    created: map<string, nat>,  // how often each key has been answered with "created"
    removed: map<string, nat>)  // and how often its session has been removed

  datatype Label =
    | Look(caller: nat, key: string, now: int, found: Option<nat>)
    | Create(caller: nat, now: int, a: Answer)
    | Take(key: string)
    | Clean(cutoff: int)

  function Num(m: map<string, nat>, key: string): nat {
    if key in m then m[key] else 0
  }

  ghost predicate Next(capacity: int, st: State, l: Label, st': State) {
    match l
    case Look(c, key, now, found) =>
      && c !in st.missed
      && if key in st.entries then
           found == Some(st.entries[key].obj) && st' == st.(entries := Touched(st.entries, key, now))
         else
           found == None && st' == st.(missed := st.missed[c := key])
    case Create(c, now, a) =>
      && c in st.missed
      && Creates(st.entries, capacity, st.missed[c], st.next, now, st'.entries, a)
      && st' == st.(entries := st'.entries, missed := st.missed - {c},
                    next := if a.created then st.next + 1 else st.next,
                    created := if a.created then st.created[st.missed[c] := Num(st.created, st.missed[c]) + 1]
                               else st.created)
    case Take(key) =>
      st' == if key in st.entries then
               st.(entries := st.entries - {key}, removed := st.removed[key := Num(st.removed, key) + 1])
             else st
    case Clean(cutoff) =>
      st' == st.(entries := Fresh(st.entries, cutoff),
                 removed := map key | key in st.removed.Keys + st.entries.Keys ::
                   Num(st.removed, key) + if key in st.entries && IsStale(st.entries[key], cutoff) then 1 else 0)
  }

  ghost predicate IsRun(capacity: int, states: seq<State>, labels: seq<Label>) {
    && |states| == |labels| + 1 && states[0] == State(map[], map[], 0, map[], map[])
    && forall k :: 0 <= k < |labels| ==> Next(capacity, states[k], labels[k], states[k + 1])
  }

  ghost predicate Balanced(st: State, key: string) {
    Num(st.created, key) == Num(st.removed, key) + if key in st.entries then 1 else 0
  }

  ghost predicate Inv(capacity: int, st: State) {
    && (capacity < |st.entries| ==> |st.entries| == 0)
    && (forall key :: Balanced(st, key))
    && (forall key :: key in st.entries ==> st.entries[key].obj < st.next)
    && (forall j, k :: j in st.entries && k in st.entries && st.entries[j].obj == st.entries[k].obj ==> j == k)
  }

  lemma Smaller(e: Entries, e': Entries)
    requires e'.Keys <= e.Keys
    ensures |e'| <= |e|
  {
    assert e.Keys == e'.Keys + (e.Keys - e'.Keys);
  }

  lemma TouchKeeps(capacity: int, st: State, key: string, now: int, st': State)
    requires Inv(capacity, st) && key in st.entries
    requires st'.entries == Touched(st.entries, key, now)
    requires st'.next == st.next && st'.created == st.created && st'.removed == st.removed
    ensures Inv(capacity, st')
  {
    forall k ensures Balanced(st', k) {
      assert Balanced(st, k);
    }
    assert st'.entries.Keys == st.entries.Keys;
    Smaller(st.entries, st'.entries);
  }

  lemma SameKeeps(capacity: int, st: State, st': State)
    requires Inv(capacity, st) && st'.entries == st.entries
    requires st'.next == st.next && st'.created == st.created && st'.removed == st.removed
    ensures Inv(capacity, st')
  {
    forall k ensures Balanced(st', k) {
      assert Balanced(st, k);
    }
  }

  lemma NewKeeps(capacity: int, st: State, key: string, now: int, st': State)
    requires Inv(capacity, st) && key !in st.entries && |st.entries| < capacity
    requires st'.entries == st.entries[key := Session(st.next, now)]
    requires st'.next == st.next + 1 && st'.removed == st.removed
    requires st'.created == st.created[key := Num(st.created, key) + 1]
    ensures Inv(capacity, st')
  {
    forall k ensures Balanced(st', k) {
      assert Balanced(st, k);
    }
  }

  lemma DropKeeps(capacity: int, st: State, gone: set<string>, st': State)
    requires Inv(capacity, st) && st'.entries == st.entries - gone
    requires st'.next == st.next && st'.created == st.created
    requires forall k :: Num(st'.removed, k) == Num(st.removed, k) + if k in gone && k in st.entries then 1 else 0
    ensures Inv(capacity, st')
  {
    forall k ensures Balanced(st', k) {
      assert Balanced(st, k);
    }
    Smaller(st.entries, st'.entries);
  }

  lemma StepKeeps(capacity: int, st: State, l: Label, st': State)
    requires Inv(capacity, st) && Next(capacity, st, l, st')
    ensures Inv(capacity, st')
  {
    hide Inv, Next;
    match l
    case Look(c, key, now, found) => LookKeeps(capacity, st, c, key, now, found, st');
    case Create(c, now, a) => CreateKeeps(capacity, st, c, now, a, st');
    case Take(key) => TakeKeeps(capacity, st, key, st');
    case Clean(cutoff) => CleanKeeps(capacity, st, cutoff, st');
  }

  lemma LookKeeps(capacity: int, st: State, c: nat, key: string, now: int, found: Option<nat>, st': State)
    requires Inv(capacity, st) && Next(capacity, st, Look(c, key, now, found), st')
    ensures Inv(capacity, st')
  {
    hide Inv, Touched;
    if key in st.entries {
      TouchKeeps(capacity, st, key, now, st');
    } else {
      SameKeeps(capacity, st, st');
    }
  }

  lemma TakeKeeps(capacity: int, st: State, key: string, st': State)
    requires Inv(capacity, st) && Next(capacity, st, Take(key), st')
    ensures Inv(capacity, st')
  {
    hide Inv;
    if key in st.entries {
      DropKeeps(capacity, st, {key}, st');
    }
  }

  lemma CreateKeeps(capacity: int, st: State, c: nat, now: int, a: Answer, st': State)
    requires Inv(capacity, st) && Next(capacity, st, Create(c, now, a), st')
    ensures Inv(capacity, st')
  {
    hide Inv;
    var key := st.missed[c];
    if key in st.entries {
      TouchKeeps(capacity, st, key, now, st');
    } else if a.created {
      NewKeeps(capacity, st, key, now, st');
    } else {
      SameKeeps(capacity, st, st');
    }
  }

  lemma FreshDrops(e: Entries, cutoff: int)
    ensures Fresh(e, cutoff) == e - StaleKeys(e, cutoff)
    ensures forall k :: k in StaleKeys(e, cutoff) <==> k in e && IsStale(e[k], cutoff)
  {
  }

  lemma CleanKeeps(capacity: int, st: State, cutoff: int, st': State)
    requires Inv(capacity, st) && Next(capacity, st, Clean(cutoff), st')
    ensures Inv(capacity, st')
  {
    hide Inv;
    FreshDrops(st.entries, cutoff);
    hide Fresh, StaleKeys;
    DropKeeps(capacity, st, StaleKeys(st.entries, cutoff), st');
  }

  /** Under every interleaving the table stays within its capacity, and each key's sessions have been
      created exactly as often as removed, plus the one in the table. */
  lemma {:induction false} TableIsBounded(capacity: int, states: seq<State>, labels: seq<Label>, k: nat)
    requires IsRun(capacity, states, labels) && k < |states|
    ensures Inv(capacity, states[k])
  {
    if k > 0 {
      TableIsBounded(capacity, states, labels, k - 1);
      StepKeeps(capacity, states[k - 1], labels[k - 1], states[k]);
    }
  }

  /** While a key's session is not removed, every caller after that key is given the same session and
      none is told it created it. */
  lemma {:induction false} CallersShare(capacity: int, states: seq<State>, labels: seq<Label>, j: nat, k: nat,
                                        key: string)
    requires IsRun(capacity, states, labels) && j <= k < |states| && key in states[j].entries
    requires Num(states[j].removed, key) == Num(states[k].removed, key)
    ensures key in states[k].entries && states[k].entries[key].obj == states[j].entries[key].obj
    ensures Num(states[k].created, key) == Num(states[j].created, key)
    ensures forall i :: j <= i < k && Asks(states[i], labels[i], key) ==>
              AnswerOf(labels[i]) == Answer(Some(states[j].entries[key].obj), false)
  {
    hide IsRun, Num, Asks;
    if j < k {
      RemovedGrows(capacity, states, labels, j, k - 1, key);
      RunStep(capacity, states, labels, k - 1, key);
      CallersShare(capacity, states, labels, j, k - 1, key);
    }
  }

  /** The step is a look-up of the key, or ends a call for it: an answer is given unless a look-up misses. */
  ghost predicate Asks(st: State, l: Label, key: string) {
    (l.Look? && l.key == key) || (l.Create? && l.caller in st.missed && st.missed[l.caller] == key)
  }

  function AnswerOf(l: Label): Answer
    requires l.Look? || l.Create?
  {
    if l.Look? then Answer(l.found, false) else l.a
  }

  /** How many callers after the key were told, in these steps, that they created its session. */
  ghost function Told(states: seq<State>, labels: seq<Label>, j: nat, k: nat, key: string): nat
    requires j <= k <= |labels| && |states| == |labels| + 1
  {
    if j == k then 0
    else Told(states, labels, j, k - 1, key) + OneTold(states[k - 1], labels[k - 1], key)
  }

  ghost function OneTold(st: State, l: Label, key: string): nat {
    if Asks(st, l, key) && AnswerOf(l).created then 1 else 0
  }

  lemma {:induction false} ToldIsCreated(capacity: int, states: seq<State>, labels: seq<Label>, j: nat, k: nat,
                                         key: string)
    requires IsRun(capacity, states, labels) && j <= k < |states|
    ensures Told(states, labels, j, k, key) == Num(states[k].created, key) - Num(states[j].created, key)
  {
    assert |states| == |labels| + 1;
    hide IsRun, Next, Num, OneTold;
    if j < k {
      ToldIsCreated(capacity, states, labels, j, k - 1, key);
      RunNext(capacity, states, labels, k - 1);
      ToldStep(capacity, states[k - 1], labels[k - 1], states[k], key);
    }
  }

  lemma RunNext(capacity: int, states: seq<State>, labels: seq<Label>, k: nat)
    requires IsRun(capacity, states, labels) && k < |labels|
    ensures Next(capacity, states[k], labels[k], states[k + 1])
  {
  }

  lemma ToldStep(capacity: int, st: State, l: Label, st': State, key: string)
    requires Next(capacity, st, l, st')
    ensures Num(st'.created, key) == Num(st.created, key) + OneTold(st, l, key)
  {
  }

  /** Between two removals of a key's session at most one caller is told it created one, and exactly one
      is if the key had no session before and has one after, whatever else runs in between. */
  lemma OneCreator(capacity: int, states: seq<State>, labels: seq<Label>, j: nat, k: nat, key: string)
    requires IsRun(capacity, states, labels) && j <= k < |states|
    requires Num(states[j].removed, key) == Num(states[k].removed, key)
    ensures Told(states, labels, j, k, key) ==
            if key !in states[j].entries && key in states[k].entries then 1 else 0
  {
    ToldIsCreated(capacity, states, labels, j, k, key);
    TableIsBounded(capacity, states, labels, j);
    TableIsBounded(capacity, states, labels, k);
    assert Balanced(states[j], key) && Balanced(states[k], key);
    if key in states[j].entries {
      CallersShare(capacity, states, labels, j, k, key);
    }
  }

  lemma RunStep(capacity: int, states: seq<State>, labels: seq<Label>, k: nat, key: string)
    requires IsRun(capacity, states, labels) && k + 1 < |states|
    ensures Num(states[k].removed, key) <= Num(states[k + 1].removed, key)
    ensures key in states[k].entries && Num(states[k].removed, key) == Num(states[k + 1].removed, key) ==>
              && key in states[k + 1].entries && states[k + 1].entries[key].obj == states[k].entries[key].obj
              && Num(states[k + 1].created, key) == Num(states[k].created, key)
              && (Asks(states[k], labels[k], key) ==>
                    AnswerOf(labels[k]) == Answer(Some(states[k].entries[key].obj), false))
  {
    assert Next(capacity, states[k], labels[k], states[k + 1]);
    RemovedStep(capacity, states[k], labels[k], states[k + 1], key);
  }

  lemma RemovedStep(capacity: int, st: State, l: Label, st': State, key: string)
    requires Next(capacity, st, l, st')
    ensures Num(st.removed, key) <= Num(st'.removed, key)
    ensures key in st.entries && Num(st.removed, key) == Num(st'.removed, key) ==>
              && key in st'.entries && st'.entries[key].obj == st.entries[key].obj
              && Num(st'.created, key) == Num(st.created, key)
              && (Asks(st, l, key) ==> AnswerOf(l) == Answer(Some(st.entries[key].obj), false))
  {
  }

  lemma {:induction false} RemovedGrows(capacity: int, states: seq<State>, labels: seq<Label>, j: nat, k: nat,
                                        key: string)
    requires IsRun(capacity, states, labels) && j <= k < |states|
    ensures Num(states[j].removed, key) <= Num(states[k].removed, key)
  {
    hide IsRun, Num;
    if j < k {
      RemovedGrows(capacity, states, labels, j, k - 1, key);
      RunStep(capacity, states, labels, k - 1, key);
    }
  }
}
