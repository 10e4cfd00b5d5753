/**
 The reasoning cache as the program keeps it: per index a recency list of entries and a map from key to entry, changed
 in place. Every operation is proved to do to the two what LruSpec says it does to a list. (reasoning/cache.go)
 */
module Lru {
  import opened Common
  import opened LruSpec

  class Entry<K> {
    const key: K
    var val: string
    var exp: int

    constructor (key: K, val: string, exp: int)
      ensures this.key == key && this.val == val && this.exp == exp
    {
      this.key, this.val, this.exp := key, val, exp;
    }
  }

  /** The list without one of its elements. */
  function Unlinked<K>(es: seq<Entry<K>>, e: Entry<K>): (r: seq<Entry<K>>)
    ensures forall x :: x in r ==> x in es
  {
    if es == [] then [] else if es[0] == e then es[1..] else [es[0]] + Unlinked(es[1..], e)
  }

  ghost function Cells<K>(es: seq<Entry<K>>): (r: seq<Cell<K>>)
    reads es
    ensures |r| == |es|
  {
    if es == [] then [] else [Cell(es[0].key, es[0].val, es[0].exp)] + Cells(es[1..])
  }

  /** Map and list in step: the map leads to exactly the entries of the list, each under its own key. */
  ghost predicate InStep<K(!new)>(es: seq<Entry<K>>, m: map<K, Entry<K>>) {
    && (forall k :: k in m ==> m[k] in es && m[k].key == k)
    && (forall e :: e in es ==> e.key in m && m[e.key] == e)
    && (forall i, j :: 0 <= i < j < |es| ==> es[i] != es[j])
  }

  lemma {:induction false} CellsKeys<K(!new)>(es: seq<Entry<K>>, key: K)
    ensures key in Keys(Cells(es)) <==> exists i :: 0 <= i < |es| && es[i].key == key
  {
    if es != [] {
      CellsKeys(es[1..], key);
      Front(Cell(es[0].key, es[0].val, es[0].exp), Cells(es[1..]));
      if i :| 0 <= i < |es| && es[i].key == key { if i > 0 { assert es[1..][i - 1].key == key; } }
    }
  }

  /** Unlinking the entry of a key takes that key's cell away. */
  lemma {:induction false} UnlinkedCells<K(!new)>(es: seq<Entry<K>>, e: Entry<K>)
    requires forall i :: 0 <= i < |es| && es[i].key == e.key ==> es[i] == e
    ensures Cells(Unlinked(es, e)) == Without(Cells(es), e.key)
    ensures e in es ==> Find(Cells(es), e.key) == Some(Cell(e.key, e.val, e.exp))
  {
    if es != [] {
      var first, rest := Cell(es[0].key, es[0].val, es[0].exp), Unlinked(es[1..], e);
      UnlinkedCells(es[1..], e);
      assert ([first] + Cells(es[1..]))[1..] == Cells(es[1..]);
      assert ([es[0]] + rest)[1..] == rest;
    }
  }

  lemma {:induction false} UnlinkedList<K(!new)>(es: seq<Entry<K>>, e: Entry<K>)
    requires forall i, j :: 0 <= i < j < |es| ==> es[i] != es[j]
    ensures var r := Unlinked(es, e);
            && (forall x :: x in r <==> x in es && x != e)
            && (forall i, j :: 0 <= i < j < |r| ==> r[i] != r[j])
            && |r| == |es| - (if e in es then 1 else 0)
  {
    if es != [] && es[0] != e {
      UnlinkedList(es[1..], e);
      var rest := Unlinked(es[1..], e);
      var r := [es[0]] + rest;
      forall i, j | 0 <= i < j < |r| ensures r[i] != r[j] { assert r[j] in rest; }
    }
  }

  lemma {:induction false} LastUnlinked<K(!new)>(es: seq<Entry<K>>)
    requires es != [] && forall i, j :: 0 <= i < j < |es| ==> es[i] != es[j]
    ensures Cells(Unlinked(es, es[|es| - 1])) == ButLast(Cells(es))
  {
    var e := es[|es| - 1];
    if |es| > 1 {
      LastUnlinked(es[1..]);
      var first, rest := Cell(es[0].key, es[0].val, es[0].exp), Unlinked(es[1..], e);
      assert ([first] + Cells(es[1..]))[1..] == Cells(es[1..]);
      assert ([es[0]] + rest)[1..] == rest;
    }
  }

  lemma CellsFront<K(!new)>(e: Entry<K>, es: seq<Entry<K>>)
    ensures Cells([e] + es) == [Cell(e.key, e.val, e.exp)] + Cells(es)
  {
    assert ([e] + es)[1..] == es;
  }

  lemma {:induction false} CellsDistinct<K(!new)>(es: seq<Entry<K>>)
    requires forall i, j :: 0 <= i < j < |es| ==> es[i].key != es[j].key
    ensures Distinct(Cells(es))
  {
    if es != [] {
      CellsDistinct(es[1..]);
      CellsKeys(es[1..], es[0].key);
      Front(Cell(es[0].key, es[0].val, es[0].exp), Cells(es[1..]));
    }
  }

  /** In step, the map finds exactly what a search of the list would. */
  lemma InStepFinds<K(!new)>(es: seq<Entry<K>>, m: map<K, Entry<K>>, key: K)
    requires InStep(es, m)
    ensures Distinct(Cells(es))
    ensures Find(Cells(es), key) == if key in m then Some(Cell(key, m[key].val, m[key].exp)) else None
    ensures key in m ==> Cells(Unlinked(es, m[key])) == Without(Cells(es), key)
  {
    forall i, j | 0 <= i < j < |es| ensures es[i].key != es[j].key {
      assert es[i] in es && es[j] in es;
    }
    CellsDistinct(es);
    if key in m {
      forall i | 0 <= i < |es| && es[i].key == key ensures es[i] == m[key] { assert es[i] in es; }
      UnlinkedCells(es, m[key]);
    } else {
      FindIsKeys(Cells(es), key);
      CellsKeys(es, key);
      forall i | 0 <= i < |es| ensures es[i].key != key { assert es[i] in es; }
    }
  }

  class Lru<K(!new, ==)> {
    var ll: seq<Entry<K>>
    var m: map<K, Entry<K>>
    const cap: nat
    const ttl: int

    ghost predicate Valid()
      reads this
    {
      cap >= 1 && |ll| <= cap && InStep(ll, m)
    }

    ghost function Repr(): set<object>
      reads this
    {
      {this} + set e <- ll :: e as object
    }

    ghost function View(): seq<Cell<K>>
      reads this, ll
    {
      Cells(ll)
    }

    constructor (capacity: int, ttl: int)
      ensures Valid() && View() == [] && fresh(Repr())
      ensures cap == (if capacity < 1 then 1 else capacity) && this.ttl == ttl
    {
      this.cap := if capacity < 1 then 1 else capacity;
      this.ttl := ttl;
      ll, m := [], map[];
    }

    lemma ViewWellFormed()
      requires Valid()
      ensures WellFormed(View(), cap)
    {
      forall i, j | 0 <= i < j < |ll| ensures ll[i].key != ll[j].key {
        assert ll[i] in ll && ll[j] in ll;
      }
      CellsDistinct(ll);
    }

    method Remove(e: Entry<K>)
      requires InStep(ll, m) && e in ll
      modifies this
      ensures InStep(ll, m) && ll == Unlinked(old(ll), e) && m == old(m) - {e.key}
    {
      UnlinkedList(ll, e);
      ll := Unlinked(ll, e);
      m := m - {e.key};
    }

    method MoveToFront(e: Entry<K>)
      requires InStep(ll, m) && e in ll
      modifies this
      ensures InStep(ll, m) && ll == [e] + Unlinked(old(ll), e) && m == old(m) && |ll| == |old(ll)|
    {
      UnlinkedList(ll, e);
      ll := [e] + Unlinked(ll, e);
    }

    method Read(key: K, now: int) returns (val: string)
      requires Valid()
      modifies this
      ensures Valid() && Repr() <= old(Repr())
      ensures val == Peek(old(View()), key, now)
      ensures View() == Get(old(View()), key, now)
    {
      hide Find, Without, Unlinked, Cells, Distinct;
      InStepFinds(ll, m, key);
      if key !in m {
        return "";
      }
      var e := m[key];
      UnlinkedList(ll, e);
      ghost var rest := Unlinked(ll, e);
      if now > e.exp {
        Remove(e);
        assert Cells(rest) == old(Cells(rest));
        return "";
      }
      MoveToFront(e);
      assert Cells(rest) == old(Cells(rest));
      CellsFront(e, rest);
      return e.val;
    }

    method Write(key: K, val: string, now: int)
      requires Valid()
      modifies Repr()
      ensures Valid() && fresh(Repr() - old(Repr()))
      ensures View() == Set(old(View()), Cell(key, val, now + ttl), cap)
    {
      hide Find, Without, ButLast, Unlinked, Cells, Distinct;
      InStepFinds(ll, m, key);
      if key in m {
        Overwrite(m[key], val, now + ttl);
      } else {
        Insert(key, val, now + ttl);
      }
    }

    method Overwrite(e: Entry<K>, val: string, exp: int)
      requires Valid() && e in ll
      modifies this, e
      ensures Valid() && Repr() == old(Repr())
      ensures View() == [Cell(e.key, val, exp)] + Without(old(View()), e.key)
    {
      hide Find, Without, Unlinked, Cells, Distinct;
      InStepFinds(ll, m, e.key);
      UnlinkedList(ll, e);
      ghost var rest := Unlinked(ll, e);
      e.val := val;
      e.exp := exp;
      assert Cells(rest) == old(Cells(rest));
      MoveToFront(e);
      CellsFront(e, rest);
    }

    method Insert(key: K, val: string, exp: int)
      requires Valid() && key !in m
      modifies this
      ensures Valid() && fresh(Repr() - old(Repr()))
      ensures var l := [Cell(key, val, exp)] + old(View());
              View() == if |l| > cap then ButLast(l) else l
    {
      hide Find, Without, ButLast, Unlinked, Cells, Distinct;
      var e := new Entry(key, val, exp);
      assert Cells(ll) == old(Cells(ll));
      PushFront(e);
      if |ll| > cap {
        DropBack();
      }
    }

    method DropBack()
      requires InStep(ll, m) && ll != []
      modifies this
      ensures InStep(ll, m) && |ll| == |old(ll)| - 1 && forall x :: x in ll ==> x in old(ll)
      ensures Cells(ll) == ButLast(old(Cells(ll)))
    {
      hide ButLast, Unlinked, Cells;
      var back := ll[|ll| - 1];
      LastUnlinked(ll);
      UnlinkedList(ll, back);
      ghost var rest := Unlinked(ll, back);
      Remove(back);
      assert Cells(rest) == old(Cells(rest));
    }

    method PushFront(e: Entry<K>)
      requires InStep(ll, m) && e.key !in m
      modifies this
      ensures InStep(ll, m) && ll == [e] + old(ll)
      ensures Cells(ll) == [Cell(e.key, e.val, e.exp)] + old(Cells(ll))
    {
      hide Cells;
      CellsFront(e, ll);
      forall x | x in ll ensures x != e && x.key != e.key {}
      ll := [e] + ll;
      m := m[e.key := e];
    }
  }

  /** The two indexes: by tool call id, and by a hash of the assistant's text. */
  class Cache {
    const byCall: Lru<string>
    const byHash: Lru<int>
    const hash: string -> int

    ghost predicate Valid()
      reads this, byCall, byHash
    {
      byCall.Valid() && byHash.Valid() && byCall.Repr() !! byHash.Repr()
    }

    ghost function Repr(): set<object>
      reads this, byCall, byHash
    {
      byCall.Repr() + byHash.Repr()
    }

    constructor (capacity: int, ttl: int, hash: string -> int)
      ensures Valid() && fresh(Repr()) && this.hash == hash
      ensures byCall.View() == [] && byHash.View() == []
      ensures byCall.cap == byHash.cap == (if capacity < 1 then 1 else capacity) && byCall.ttl == byHash.ttl == ttl
    {
      var calls := new Lru<string>(capacity, ttl);
      var hashes := new Lru<int>(capacity, ttl);
      this.byCall, this.byHash, this.hash := calls, hashes, hash;
    }

    method SaveCall(callID: string, reasoning: string, now: int)
      requires Valid()
      modifies byCall.Repr()
      ensures Valid() && fresh(Repr() - old(Repr()))
      ensures byHash.View() == old(byHash.View())
      ensures byCall.View() == if callID == "" || reasoning == "" then old(byCall.View())
                               else Set(old(byCall.View()), Cell(callID, reasoning, now + byCall.ttl), byCall.cap)
    {
      hide Set, Cells, InStep;
      if callID == "" || reasoning == "" {
        return;
      }
      byCall.Write(callID, reasoning, now);
    }

    method SaveContent(content: string, reasoning: string, now: int)
      requires Valid()
      modifies byHash.Repr()
      ensures Valid() && fresh(Repr() - old(Repr()))
      ensures byCall.View() == old(byCall.View())
      ensures byHash.View() == if content == "" || reasoning == "" then old(byHash.View())
                               else Set(old(byHash.View()), Cell(hash(content), reasoning, now + byHash.ttl),
                                        byHash.cap)
    {
      hide Set, Cells, InStep;
      if content == "" || reasoning == "" {
        return;
      }
      byHash.Write(hash(content), reasoning, now);
    }

    method ByCallID(callID: string, now: int) returns (reasoning: string)
      requires Valid()
      modifies byCall
      ensures Valid() && Repr() <= old(Repr())
      ensures byHash.View() == old(byHash.View())
      ensures reasoning == if callID == "" then "" else Peek(old(byCall.View()), callID, now)
      ensures byCall.View() == if callID == "" then old(byCall.View()) else Get(old(byCall.View()), callID, now)
    {
      if callID == "" {
        return "";
      }
      reasoning := byCall.Read(callID, now);
    }

    method ByContent(content: string, now: int) returns (reasoning: string)
      requires Valid()
      modifies byHash
      ensures Valid() && Repr() <= old(Repr())
      ensures byCall.View() == old(byCall.View())
      ensures reasoning == if content == "" then "" else Peek(old(byHash.View()), hash(content), now)
      ensures byHash.View() == if content == "" then old(byHash.View()) else Get(old(byHash.View()), hash(content), now)
    {
      if content == "" {
        return "";
      }
      reasoning := byHash.Read(hash(content), now);
    }
  }
}
