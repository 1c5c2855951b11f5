/** The session table as the program keeps it (relay-node/mesh/dispatcher.go): each list is a slice, a
    window onto a backing array. Eviction slides the window, appending writes just past it or moves to
    a larger array, and removal shifts the tail down in place. Each method runs under the table's lock,
    so it is one step; its contract says what it does to the table's meaning. */
module Dispatcher {
  import opened Common
  import opened Framing
  import opened RoundRobin
  import opened SessionRegistry

  /** A Go slice header: `len` elements of `arr` from `off` on, with room up to the end of `arr`. */
  datatype Slice = Slice(arr: array<Sid>, off: nat, len: nat)

  ghost predicate InBounds(w: Slice) {
    w.off + w.len <= w.arr.Length
  }

  ghost function Elements(w: Slice): (list: seq<Sid>)
    reads w.arr
    requires InBounds(w)
    ensures |list| == w.len
  {
    w.arr[w.off..w.off + w.len]
  }

  /** Go's append of one element: in place when there is room, else into a larger array. */
  method Append(w: Slice, s: Sid) returns (w': Slice)
    requires InBounds(w)
    modifies w.arr
    ensures InBounds(w') && Elements(w') == old(Elements(w)) + [s]
    ensures w'.arr == w.arr || fresh(w'.arr)
  {
    var end := w.off + w.len;
    if end < w.arr.Length {
      w.arr[end] := s;
      w' := Slice(w.arr, w.off, w.len + 1);
    } else {
      var bigger := new Sid[2 * w.len + 1];
      for i := 0 to w.len
        invariant bigger[..i] == w.arr[w.off..w.off + i]
        invariant Elements(w) == old(Elements(w))
      {
        bigger[i] := w.arr[w.off + i];
        assert w.arr[w.off..w.off + i + 1] == w.arr[w.off..w.off + i] + [w.arr[w.off + i]];
      }
      bigger[w.len] := s;
      assert bigger[..w.len] == old(Elements(w));
      w' := Slice(bigger, 0, w.len + 1);
      assert Elements(w') == bigger[..w.len] + [bigger[w.len]];
    }
  }

  /** Go's append(w[:i], w[i+1:]...): the elements after position `i` move down by one. */
  method RemoveAt(w: Slice, i: nat) returns (w': Slice)
    requires InBounds(w) && i < w.len
    modifies w.arr
    ensures w'.arr == w.arr && InBounds(w') && w'.len == w.len - 1
    ensures Elements(w') == old(Elements(w))[..i] + old(Elements(w))[i + 1..]
  {
    ghost var before, a := Elements(w), w.arr[..];
    var from, last := w.off + i, w.off + w.len - 1;
    for j := from to last
      invariant forall k :: 0 <= k < from || j <= k < w.arr.Length ==> w.arr[k] == a[k]
      invariant forall k :: from <= k < j ==> w.arr[k] == a[k + 1]
    {
      w.arr[j] := w.arr[j + 1];
    }
    w' := Slice(w.arr, w.off, w.len - 1);
    assert Elements(w') == before[..i] + before[i + 1..];
  }

  /** The list part of register: a full list first lets go of its oldest session. */
  method AdmitTo(w: Slice, s: Sid) returns (w': Slice, evicted: set<Sid>)
    requires InBounds(w)
    modifies w.arr
    ensures InBounds(w') && Elements(w') == Admit(old(Elements(w)), s)
    ensures evicted == Evicted(old(Elements(w)))
    ensures NewestJoins(old(Elements(w)), Elements(w'), {}, evicted, s)
    ensures w'.arr == w.arr || fresh(w'.arr)
  {
    AdmitIs(Elements(w), {}, s);
    hide NewestJoins;
    w', evicted := w, {};
    if w.len >= MAX_SESSIONS_PER_PUBKEY {
      evicted := {w.arr[w.off]};
      w' := Slice(w.arr, w.off + 1, w.len - 1);
      assert Elements(w') == Elements(w)[1..];
    }
    w' := Append(w', s);
  }

  /** The list part of unregister. */
  method RemoveFrom(w: Slice, s: Sid) returns (w': Slice)
    requires InBounds(w)
    modifies w.arr
    ensures InBounds(w') && Elements(w') == Without(old(Elements(w)), s) && w'.arr == w.arr
  {
    ghost var list := Elements(w);
    WithoutIs(list, s);
    for i := 0 to w.len
      invariant s !in list[..i] && Elements(w) == list
    {
      if w.arr[w.off + i] == s {
        assert IndexOf(list, s) == i;
        w' := RemoveAt(w, i);
        return;
      }
    }
    w' := w;
  }

  /** Adds up the lengths of all the lists, in whatever order the keys come. */
  method AddUp(lengths: map<Pubkey, nat>, ghost reg: Registry, ghost key: map<Sid, Pubkey>, ghost joined: map<Sid, nat>)
    returns (n: nat)
    requires RegistryOk(reg, key, joined) && lengths.Keys == reg.Keys
    requires forall k :: k in lengths ==> lengths[k] == |reg[k]|
    ensures n == |AllLive(reg, key)|
  {
    hide RegistryOk, CountUnder, AllLive;
    n := 0;
    NoKeys(reg, key);
    var keys := lengths.Keys;
    ghost var done: set<Pubkey> := {};
    while keys != {}
      invariant keys <= lengths.Keys && done == lengths.Keys - keys
      invariant n == CountUnder(reg, key, done)
      decreases keys
    {
      var k :| k in keys;
      OneMoreKey(reg, key, joined, done, k);
      n := n + lengths[k];
      keys, done := keys - {k}, done + {k};
    }
    assert done == reg.Keys;
    AllKeys(reg, key, joined, done);
  }

  class Dispatcher {
    var sessions: map<Pubkey, Slice>
    var closed: set<Sid>  // sessions whose connection the dispatcher has closed
    var rr: nat           // the round-robin cursor, an unsigned 64-bit counter

    ghost var owner: map<array<Sid>, Pubkey>  // whose list each backing array holds: no array holds two

    ghost predicate Valid()
      reads this`sessions, this`owner, this`rr, owner.Keys
    {
      && rr < WRAP
      && forall k :: k in sessions ==> Owned(k, sessions[k])
    }

    ghost predicate Owned(pk: Pubkey, w: Slice)
      reads this`owner
    {
      w.arr in owner && owner[w.arr] == pk && InBounds(w)
    }

    ghost function ArrayOf(pk: Pubkey): set<array<Sid>>
      reads this`sessions
    {
      if pk in sessions then {sessions[pk].arr} else {}
    }

    /** The table's meaning. */
    ghost function View(): Registry
      reads this`sessions, this`owner, this`rr, owner.Keys
      requires Valid()
    {
      map k | k in sessions :: Elements(sessions[k])
    }

    lemma ViewShape()
      requires Valid()
      ensures View().Keys == sessions.Keys
      ensures forall k :: k in sessions ==> sessions[k].len == |View()[k]|
    {
    }

    constructor ()
      ensures Valid() && View() == map[] && closed == {} && rr == 0 && owner == map[]
    {
      sessions, closed, rr, owner := map[], {}, 0, map[];
    }

    /** The stored slice, or an empty one. */
    method Lookup(pk: Pubkey) returns (list: Slice)
      requires Valid()
      ensures InBounds(list) && Elements(list) == ListOf(View(), pk)
      ensures if pk in sessions then list == sessions[pk] else fresh(list.arr)
    {
      if pk in sessions {
        list := sessions[pk];
      } else {
        var none := new Sid[0];
        list := Slice(none, 0, 0);
      }
    }

    /** Files a slice under its key. */
    method Store(pk: Pubkey, list: Slice)
      requires Valid() && InBounds(list)
      requires list.arr in owner ==> owner[list.arr] == pk
      modifies this`sessions, this`owner
      ensures Valid() && View() == old(View())[pk := old(Elements(list))]
      ensures owner == old(owner)[list.arr := pk]
    {
      sessions := sessions[pk := list];
      owner := owner[list.arr := pk];
      hide Elements;
    }

    /** The key's list with the newcomer, not yet filed; the lists of other keys are untouched. */
    method AdmitAt(pk: Pubkey, s: Sid) returns (list: Slice, evicted: set<Sid>)
      requires Valid()
      modifies ArrayOf(pk)
      ensures Valid() && InBounds(list) && Elements(list) == Admit(ListOf(old(View()), pk), s)
      ensures evicted == Evicted(ListOf(old(View()), pk))
      ensures if list.arr in owner then owner[list.arr] == pk else fresh(list.arr)
      ensures forall k :: k != pk ==> ListOf(View(), k) == ListOf(old(View()), k)
      ensures View().Keys == old(View()).Keys
    {
      hide Admit, Evicted;
      list := Lookup(pk);
      list, evicted := AdmitTo(list, s);
    }

    method Register(pk: Pubkey, s: Sid)
      requires Valid()
      modifies this`sessions, this`closed, this`owner, ArrayOf(pk)
      ensures Valid() && fresh(owner.Keys - old(owner.Keys))
      ensures View() == SessionRegistry.Register(old(View()), pk, s)
      ensures closed == old(closed) + Evicted(ListOf(old(View()), pk))
      ensures NewestJoins(ListOf(old(View()), pk), ListOf(View(), pk), old(closed), closed, s)
    {
      hide View, Admit, Evicted, NewestJoins;
      AdmitIs(ListOf(View(), pk), closed, s);
      ghost var before := View();
      var list, evicted := AdmitAt(pk, s);
      ghost var after := View();
      assert forall k :: k in before && k != pk ==> ListOf(after, k) == ListOf(before, k);
      closed := closed + evicted;
      Store(pk, list);
      assert after[pk := Admit(ListOf(before, pk), s)] == before[pk := Admit(ListOf(before, pk), s)];
    }

    /** The key's list without the session, not yet filed; the lists of other keys are untouched. */
    method RemoveFromKey(pk: Pubkey, s: Sid) returns (list: Slice)
      requires Valid() && pk in sessions
      modifies ArrayOf(pk)
      ensures Valid() && InBounds(list) && Elements(list) == Without(ListOf(old(View()), pk), s)
      ensures list.arr in owner && owner[list.arr] == pk
      ensures forall k :: k != pk ==> ListOf(View(), k) == ListOf(old(View()), k)
      ensures View().Keys == old(View()).Keys
    {
      hide Without;
      list := RemoveFrom(sessions[pk], s);
    }

    method Drop(pk: Pubkey)
      requires Valid()
      modifies this`sessions
      ensures Valid() && View() == old(View()) - {pk}
    {
      sessions := sessions - {pk};
    }

    method Unregister(pk: Pubkey, s: Sid)
      requires Valid()
      modifies this`sessions, this`owner, ArrayOf(pk)
      ensures Valid() && View() == SessionRegistry.Unregister(old(View()), pk, s)
      ensures owner.Keys == old(owner.Keys)
    {
      hide View;
      ghost var before := View();
      if pk !in sessions {
        ViewShape();
        return;
      }
      var list := RemoveFromKey(pk, s);
      ghost var after := View();
      assert forall k :: k in before && k != pk ==> ListOf(after, k) == ListOf(before, k);
      if list.len == 0 {
        Drop(pk);
        assert after - {pk} == before - {pk};
      } else {
        Store(pk, list);
        assert after[pk := Without(ListOf(before, pk), s)] == before[pk := Without(ListOf(before, pk), s)];
      }
    }

    /** The number of live sessions. */
    method ActiveSessions(ghost key: map<Sid, Pubkey>, ghost joined: map<Sid, nat>) returns (n: nat)
      requires Valid() && RegistryOk(View(), key, joined)
      ensures n == |AllLive(View(), key)|
    {
      n := AddUp(map k | k in sessions :: sessions[k].len, View(), key, joined);
    }

    /** forward's choice of a stream: the cursor moves on only when there is a stream to choose. */
    method PickTarget(dst: Pubkey) returns (target: Option<Sid>)
      requires Valid()
      modifies this`rr
      ensures Valid() && sessions == old(sessions) && View() == old(View())
      ensures ListOf(View(), dst) == [] ==> target.None? && rr == old(rr)
      ensures ListOf(View(), dst) != [] ==>
                rr == Cursor(old(rr), 1) && target == Some(ListOf(View(), dst)[rr % |ListOf(View(), dst)|])
    {
      target := None;
      if dst in sessions {
        var list := sessions[dst];
        if list.len > 0 {
          rr := (rr + 1) % WRAP;
          target := Some(list.arr[list.off + rr % list.len]);
        }
      }
    }
  }
}
