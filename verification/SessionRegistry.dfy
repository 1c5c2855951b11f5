/** The dispatcher's table of live sessions: per public key, the streams its client has open, oldest
    first (relay-node/mesh/dispatcher.go). First what the table means, then the table as the program
    keeps it: windows onto backing arrays that are edited in place. */
module SessionRegistry {
  import opened Framing

  /** A session's identity; the program compares session pointers. */
  type Sid = nat

  type Registry = map<Pubkey, seq<Sid>>

  const MAX_SESSIONS_PER_PUBKEY := 16

  function ListOf(reg: Registry, pk: Pubkey): seq<Sid> {
    if pk in reg then reg[pk] else []
  }

  function Admit(list: seq<Sid>, s: Sid): seq<Sid> {
    (if |list| >= MAX_SESSIONS_PER_PUBKEY then list[1..] else list) + [s]
  }

  /** The session that makes room, if the list is full. */
  function Evicted(list: seq<Sid>): set<Sid> {
    if |list| >= MAX_SESSIONS_PER_PUBKEY then {list[0]} else {}
  }

  function Without(list: seq<Sid>, s: Sid): seq<Sid> {
    if list == [] then []
    else if list[0] == s then list[1..]
    else [list[0]] + Without(list[1..], s)
  }

  function Register(reg: Registry, pk: Pubkey, s: Sid): Registry {
    reg[pk := Admit(ListOf(reg, pk), s)]
  }

  function Unregister(reg: Registry, pk: Pubkey, s: Sid): Registry {
    var list := Without(ListOf(reg, pk), s);
    if list == [] then reg - {pk} else reg[pk := list]
  }

  // ---- What every reachable table satisfies ----

  /** A list as it should be: of this key's sessions, 1 to 16 of them, in the order they joined. */
  ghost predicate ListOk(list: seq<Sid>, pk: Pubkey, key: map<Sid, Pubkey>, joined: map<Sid, nat>) {
    && 1 <= |list| <= MAX_SESSIONS_PER_PUBKEY
    && (forall s :: s in list ==> s in key && key[s] == pk)
    && Increasing(list, joined)
  }

  ghost predicate RegistryOk(reg: Registry, key: map<Sid, Pubkey>, joined: map<Sid, nat>) {
    forall pk :: pk in reg ==> ListOk(reg[pk], pk, key, joined)
  }

  ghost predicate Live(reg: Registry, s: Sid) {
    exists pk :: pk in reg && s in reg[pk]
  }

  /** Where `s` first stands, or the length of the list. */
  function IndexOf(list: seq<Sid>, s: Sid): (i: nat)
    ensures i <= |list| && s !in list[..i] && (i < |list| ==> list[i] == s)
  {
    if list == [] || list[0] == s then 0
    else
      assert list[..1 + IndexOf(list[1..], s)] == [list[0]] + list[1..][..IndexOf(list[1..], s)];
      1 + IndexOf(list[1..], s)
  }

  lemma {:induction false} WithoutIs(list: seq<Sid>, s: Sid)
    ensures var i := IndexOf(list, s);
            Without(list, s) == if i < |list| then list[..i] + list[i + 1..] else list
  {
    if list != [] && list[0] != s {
      WithoutIs(list[1..], s);
      var i := IndexOf(list[1..], s);
      if i < |list| - 1 {
        assert list[..i + 1] == [list[0]] + list[1..][..i];
      }
    }
  }

  ghost predicate Increasing(list: seq<Sid>, joined: map<Sid, nat>) {
    && (forall s :: s in list ==> s in joined)
    && (forall i, j :: 0 <= i < j < |list| ==> joined[list[i]] < joined[list[j]])
  }

  lemma CutOut(list: seq<Sid>, i: nat, joined: map<Sid, nat>)
    requires Increasing(list, joined) && i < |list|
    ensures Increasing(list[..i] + list[i + 1..], joined)
    ensures forall t :: t in list[..i] + list[i + 1..] <==> t in list && t != list[i]
  {
  }

  lemma WithoutMembers(list: seq<Sid>, s: Sid, joined: map<Sid, nat>)
    requires Increasing(list, joined)
    ensures Increasing(Without(list, s), joined) && |Without(list, s)| <= |list|
    ensures forall t :: t in Without(list, s) <==> t in list && t != s
    ensures s !in list ==> Without(list, s) == list
  {
    WithoutIs(list, s);
    var i := IndexOf(list, s);
    if i < |list| {
      hide Increasing, IndexOf, Without;
      CutOut(list, i, joined);
    }
  }

  lemma RegisterMembers(reg: Registry, key: map<Sid, Pubkey>, joined: map<Sid, nat>, pk: Pubkey, s: Sid)
    requires RegistryOk(reg, key, joined) && s !in key && s !in joined
    requires forall t :: t in joined ==> joined[t] < |joined|
    ensures RegistryOk(Register(reg, pk, s), key[s := pk], joined[s := |joined|])
    ensures forall t :: Live(Register(reg, pk, s), t) <==> t == s || (Live(reg, t) && t !in Evicted(ListOf(reg, pk)))
  {
    var old', new' := ListOf(reg, pk), Admit(ListOf(reg, pk), s);
    var reg', key', joined' := Register(reg, pk, s), key[s := pk], joined[s := |joined|];
    forall k | k in reg' ensures ListOk(reg'[k], k, key', joined') {
      if k in reg {
        assert ListOk(reg[k], k, key, joined);
      }
    }
    forall t ensures Live(reg', t) <==> t == s || (Live(reg, t) && t !in Evicted(old')) {
      AdmitMembers(old', s, t);
      OneList(reg, key, joined, pk, t);
      if t in new' {
        assert t in reg'[pk];
      }
      if Live(reg, t) && t !in old' {
        var k :| k in reg && t in reg[k];
        assert k in reg' && t in reg'[k];
      }
      if Live(reg', t) && t !in new' {
        var k :| k in reg' && t in reg'[k];
        assert k in reg && t in reg[k];
      }
    }
  }

  /** Registering keeps the table in order. While the key has fewer than 16 sessions, the newcomer joins them and
      none leaves; when it has 16, the one that joined before all the others leaves, and no other. */
  lemma RegisterKeeps(reg: Registry, key: map<Sid, Pubkey>, joined: map<Sid, nat>, pk: Pubkey, s: Sid)
    requires RegistryOk(reg, key, joined) && s !in key && s !in joined
    requires forall t :: t in joined ==> joined[t] < |joined|
    ensures RegistryOk(Register(reg, pk, s), key[s := pk], joined[s := |joined|])
    ensures forall t :: Live(Register(reg, pk, s), t) <==> t == s || (Live(reg, t) && t !in Evicted(ListOf(reg, pk)))
    ensures |ListOf(reg, pk)| <= 16
    ensures |ListOf(reg, pk)| < 16 ==> forall t :: Live(Register(reg, pk, s), t) <==> t == s || Live(reg, t)
    ensures |ListOf(reg, pk)| == 16 ==> exists v ::
              && IsOldest(ListOf(reg, pk), joined, v)
              && (forall t :: Live(Register(reg, pk, s), t) <==> t == s || (Live(reg, t) && t != v))
  {
    RegisterMembers(reg, key, joined, pk, s);
    var list := ListOf(reg, pk);
    if pk in reg {
      assert ListOk(reg[pk], pk, key, joined);
    }
    if |list| == 16 {
      assert IsOldest(list, joined, list[0]);
      assert Evicted(list) == {list[0]};
    }
    hide Register, Live, RegistryOk;
  }

  /** What a newcomer does to a list, and to the closed connections: it joins at the end, and of 16 the one that
      joined first leaves and is closed. */
  ghost predicate NewestJoins(list: seq<Sid>, list': seq<Sid>, closed: set<Sid>, closed': set<Sid>, s: Sid) {
    if |list| < 16 then list' == list + [s] && closed' == closed
    else
      && list' == list[1..] + [s] && closed' == closed + {list[0]}
      && forall joined :: Increasing(list, joined) ==> IsOldest(list, joined, list[0])
  }

  lemma AdmitIs(list: seq<Sid>, closed: set<Sid>, s: Sid)
    ensures NewestJoins(list, Admit(list, s), closed, closed + Evicted(list), s)
  {
  }

  /** `v` joined before every other session on the list. */
  ghost predicate IsOldest(list: seq<Sid>, joined: map<Sid, nat>, v: Sid) {
    && v in list && v in joined
    && forall t :: t in list && t != v ==> t in joined && joined[v] < joined[t]
  }

  /** A live session is on the list of its own key and no other. */
  lemma OneList(reg: Registry, key: map<Sid, Pubkey>, joined: map<Sid, nat>, pk: Pubkey, s: Sid)
    requires RegistryOk(reg, key, joined)
    ensures s in ListOf(reg, pk) ==> Live(reg, s) && s in key && key[s] == pk
    ensures Live(reg, s) ==> s in key && s in ListOf(reg, key[s])
    ensures pk in reg ==> ListOk(reg[pk], pk, key, joined)
  {
  }

  lemma AdmitMembers(list: seq<Sid>, s: Sid, t: Sid)
    requires forall i, j :: 0 <= i < j < |list| ==> list[i] != list[j]
    ensures t in Admit(list, s) <==> t == s || (t in list && t !in Evicted(list))
  {
  }

  lemma UnregisterLists(reg: Registry, key: map<Sid, Pubkey>, joined: map<Sid, nat>, s: Sid)
    requires RegistryOk(reg, key, joined) && s in key
    ensures RegistryOk(Unregister(reg, key[s], s), key, joined)
    ensures !Live(reg, s) ==> Unregister(reg, key[s], s) == reg
    ensures forall t :: t in ListOf(Unregister(reg, key[s], s), key[s]) <==> t in ListOf(reg, key[s]) && t != s
    ensures forall k :: k != key[s] ==> ListOf(Unregister(reg, key[s], s), k) == ListOf(reg, k)
  {
    var pk := key[s];
    var reg' := Unregister(reg, pk, s);
    OneList(reg, key, joined, pk, s);
    WithoutMembers(ListOf(reg, pk), s, joined);
    hide Without;
    forall k | k in reg' ensures ListOk(reg'[k], k, key, joined) {
      assert ListOk(reg[k], k, key, joined);
    }
  }

  /** Unregistering keeps the table in order and takes out that session only; an evicted session's
      late call changes nothing at all. */
  lemma UnregisterKeeps(reg: Registry, key: map<Sid, Pubkey>, joined: map<Sid, nat>, s: Sid)
    requires RegistryOk(reg, key, joined) && s in key
    ensures RegistryOk(Unregister(reg, key[s], s), key, joined)
    ensures forall t :: Live(Unregister(reg, key[s], s), t) <==> Live(reg, t) && t != s
    ensures !Live(reg, s) ==> Unregister(reg, key[s], s) == reg
    ensures forall k :: k != key[s] ==> ListOf(Unregister(reg, key[s], s), k) == ListOf(reg, k)
  {
    var pk := key[s];
    var reg' := Unregister(reg, pk, s);
    UnregisterLists(reg, key, joined, s);
    hide Unregister, RegistryOk;
    forall t ensures Live(reg', t) <==> Live(reg, t) && t != s {
      OneList(reg, key, joined, pk, t);
      OneList(reg, key, joined, pk, s);
      OneList(reg', key, joined, pk, t);
      SameElsewhere(reg, reg', pk, t);
    }
  }

  lemma SameElsewhere(reg: Registry, reg': Registry, pk: Pubkey, t: Sid)
    requires forall k :: k != pk ==> ListOf(reg, k) == ListOf(reg', k)
    ensures Live(reg', t) <==> t in ListOf(reg', pk) || (Live(reg, t) && exists k :: k != pk && t in ListOf(reg, k))
  {
    if Live(reg', t) {
      var k :| k in reg' && t in reg'[k];
      assert t in ListOf(reg', k);
      if k != pk {
        assert t in ListOf(reg, k);
        assert k in reg && t in reg[k];
      }
    }
    if k :| k != pk && t in ListOf(reg, k) {
      assert t in ListOf(reg', k);
      assert k in reg' && t in reg'[k];
    }
    if t in ListOf(reg', pk) {
      assert pk in reg' && t in reg'[pk];
    }
  }

  // ---- Counting ----

  ghost function AllLive(reg: Registry, key: map<Sid, Pubkey>): set<Sid> {
    set s | s in key && Live(reg, s)
  }

  /** The live sessions whose key is in `ks`. */
  ghost function LiveUnder(reg: Registry, key: map<Sid, Pubkey>, ks: set<Pubkey>): set<Sid> {
    set s | s in key && key[s] in ks && s in ListOf(reg, key[s])
  }

  ghost function CountUnder(reg: Registry, key: map<Sid, Pubkey>, ks: set<Pubkey>): nat {
    |LiveUnder(reg, key, ks)|
  }

  ghost function Members(list: seq<Sid>): set<Sid> {
    set s | s in list
  }

  lemma {:induction false} SizeOfList(list: seq<Sid>)
    requires forall i, j :: 0 <= i < j < |list| ==> list[i] != list[j]
    ensures |Members(list)| == |list|
  {
    if list != [] {
      var front, last := list[..|list| - 1], list[|list| - 1];
      SizeOfList(front);
      assert last !in Members(front);
      assert Members(list) == Members(front) + {last};
    }
  }

  lemma SizeOfUnion(a: set<Sid>, b: set<Sid>, c: set<Sid>)
    requires c == a + b && a !! b
    ensures |c| == |a| + |b|
  {
  }

  /** One more key adds the length of its list. */
  lemma OneMoreKey(reg: Registry, key: map<Sid, Pubkey>, joined: map<Sid, nat>, ks: set<Pubkey>, k: Pubkey)
    requires RegistryOk(reg, key, joined) && k !in ks && k in reg
    ensures CountUnder(reg, key, ks + {k}) == CountUnder(reg, key, ks) + |reg[k]|
  {
    assert ListOk(reg[k], k, key, joined);
    SizeOfList(reg[k]);
    var before, after, added := LiveUnder(reg, key, ks), LiveUnder(reg, key, ks + {k}), Members(reg[k]);
    forall s ensures s in after <==> s in before || s in added {
    }
    SizeOfUnion(before, added, after);
  }

  lemma NoKeys(reg: Registry, key: map<Sid, Pubkey>)
    ensures CountUnder(reg, key, {}) == 0
  {
  }

  lemma AllKeys(reg: Registry, key: map<Sid, Pubkey>, joined: map<Sid, nat>, ks: set<Pubkey>)
    requires RegistryOk(reg, key, joined) && ks == reg.Keys
    ensures CountUnder(reg, key, ks) == |AllLive(reg, key)|
  {
    forall s | s in key ensures Live(reg, s) <==> s in ListOf(reg, key[s]) {
      OneList(reg, key, joined, key[s], s);
    }
    assert LiveUnder(reg, key, ks) == AllLive(reg, key);
  }
}
