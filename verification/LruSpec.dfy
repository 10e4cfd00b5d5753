/**
 The reasoning cache's recency list as a value: what reading and writing a key does to it, and for how long a key
 survives. The object in Lru.dfy is proved to behave like this list. (reasoning/cache.go)
 */
module LruSpec {
  import opened Common

  /** A cached value; the front of a list is the most recently used cell. */
  datatype Cell<K> = Cell(key: K, val: string, exp: int)

  function Find<K(==)>(l: seq<Cell<K>>, key: K): (r: Option<Cell<K>>)
    ensures r.Some? ==> r.value in l && r.value.key == key
  {
    if l == [] then None else if l[0].key == key then Some(l[0]) else Find(l[1..], key)
  }

  function Without<K(==)>(l: seq<Cell<K>>, key: K): seq<Cell<K>> {
    if l == [] then [] else if l[0].key == key then l[1..] else [l[0]] + Without(l[1..], key)
  }

  function ButLast<K>(l: seq<Cell<K>>): seq<Cell<K>> {
    if |l| <= 1 then [] else [l[0]] + ButLast(l[1..])
  }

  /** The value of a key that has not expired, or "". */
  function Peek<K(==)>(l: seq<Cell<K>>, key: K, now: int): string {
    match Find(l, key)
    case Some(c) => if now > c.exp then "" else c.val
    case None => ""
  }

  /** Reading a key: a hit moves to the front, an expired cell is dropped. */
  function Get<K(==)>(l: seq<Cell<K>>, key: K, now: int): seq<Cell<K>> {
    match Find(l, key)
    case Some(c) => if now > c.exp then Without(l, key) else [c] + Without(l, key)
    case None => l
  }

  /** Writing a key: it goes to the front with a new deadline; one cell too many drops the last. */
  function Set<K(==)>(l: seq<Cell<K>>, cell: Cell<K>, cap: nat): seq<Cell<K>> {
    if Find(l, cell.key).Some? then [cell] + Without(l, cell.key)
    else if |l| + 1 > cap then ButLast([cell] + l)
    else [cell] + l
  }

  datatype Op<K> = GetOp(key: K, now: int) | SetOp(key: K, val: string, now: int)

  function Apply<K(==)>(l: seq<Cell<K>>, op: Op<K>, cap: nat, ttl: int): seq<Cell<K>> {
    match op
    case GetOp(key, now) => Get(l, key, now)
    case SetOp(key, val, now) => Set(l, Cell(key, val, now + ttl), cap)
  }

  function Run<K(==)>(l: seq<Cell<K>>, ops: seq<Op<K>>, cap: nat, ttl: int): seq<Cell<K>> {
    if ops == [] then l else Apply(Run(l, ops[..|ops| - 1], cap, ttl), ops[|ops| - 1], cap, ttl)
  }

  // ---------- the list ----------

  ghost function Keys<K>(l: seq<Cell<K>>): set<K> {
    if l == [] then {} else {l[0].key} + Keys(l[1..])
  }

  ghost predicate Distinct<K(!new)>(l: seq<Cell<K>>) {
    l == [] || (l[0].key !in Keys(l[1..]) && Distinct(l[1..]))
  }

  /** What the cache keeps between operations: no key twice, at most `cap` cells. */
  ghost predicate WellFormed<K(!new)>(l: seq<Cell<K>>, cap: nat) {
    |l| <= cap && Distinct(l)
  }

  /** The keys in front of `key`. */
  ghost function Before<K>(l: seq<Cell<K>>, key: K): set<K> {
    if l == [] || l[0].key == key then {} else {l[0].key} + Before(l[1..], key)
  }

  lemma {:induction false} FindIsKeys<K(!new)>(l: seq<Cell<K>>, key: K)
    ensures Find(l, key).Some? <==> key in Keys(l)
  {
    if l != [] { FindIsKeys(l[1..], key); }
  }

  lemma {:induction false} WithoutList<K(!new)>(l: seq<Cell<K>>, key: K)
    requires Distinct(l)
    ensures Distinct(Without(l, key)) && Keys(Without(l, key)) == Keys(l) - {key}
    ensures |Without(l, key)| == |l| - (if key in Keys(l) then 1 else 0)
  {
    if l != [] && l[0].key != key {
      WithoutList(l[1..], key);
      var rest := Without(l[1..], key);
      assert ([l[0]] + rest)[1..] == rest;
    }
  }

  lemma {:induction false} WithoutOther<K(!new)>(l: seq<Cell<K>>, key: K, other: K)
    requires Distinct(l) && other != key
    ensures Find(Without(l, key), other) == Find(l, other)
    ensures other in Keys(l) ==> Before(Without(l, key), other) == Before(l, other) - {key}
  {
    if l != [] && l[0].key != key {
      WithoutOther(l[1..], key, other);
      var rest := Without(l[1..], key);
      assert ([l[0]] + rest)[1..] == rest;
    } else if l != [] {
      BeforeIsKeys(l[1..], other);
    }
  }

  lemma {:induction false} BeforeIsKeys<K(!new)>(l: seq<Cell<K>>, key: K)
    ensures Before(l, key) <= Keys(l) - {key}
  {
    if l != [] && l[0].key != key { BeforeIsKeys(l[1..], key); }
  }

  lemma {:induction false} KeysCounted<K(!new)>(l: seq<Cell<K>>)
    requires Distinct(l)
    ensures |Keys(l)| == |l|
  {
    if l != [] { KeysCounted(l[1..]); }
  }

  /** Fewer than |l| keys stand in front of a key in the list. */
  lemma BeforeCounted<K(!new)>(l: seq<Cell<K>>, key: K)
    requires Distinct(l) && key in Keys(l)
    ensures |Before(l, key)| < |l|
  {
    BeforeIsKeys(l, key);
    KeysCounted(l);
    SmallerSet(Before(l, key) + {key}, Keys(l));
  }

  lemma {:induction false} ButLastList<K(!new)>(l: seq<Cell<K>>)
    requires Distinct(l) && l != []
    ensures Distinct(ButLast(l)) && |ButLast(l)| == |l| - 1
    ensures Keys(ButLast(l)) == Keys(l) - {l[|l| - 1].key} && l[|l| - 1].key in Keys(l)
  {
    if |l| > 1 {
      ButLastList(l[1..]);
      var rest := ButLast(l[1..]);
      assert ([l[0]] + rest)[1..] == rest;
    }
  }

  lemma {:induction false} ButLastOther<K(!new)>(l: seq<Cell<K>>, key: K)
    requires Distinct(l) && key in Keys(l)
    ensures if l[|l| - 1].key == key then |Before(l, key)| == |l| - 1 && Find(ButLast(l), key).None?
            else
              && |Before(l, key)| < |l| - 1
              && Find(ButLast(l), key) == Find(l, key) && Before(ButLast(l), key) == Before(l, key)
  {
    if |l| > 1 {
      var rest := ButLast(l[1..]);
      assert ([l[0]] + rest)[1..] == rest;
      BeforeIsKeys(l[1..], key);
      ButLastList(l[1..]);
      if l[0].key != key { ButLastOther(l[1..], key); }
    }
  }

  /** Putting a cell in front. */
  lemma Front<K(!new)>(cell: Cell<K>, l: seq<Cell<K>>)
    ensures Keys([cell] + l) == {cell.key} + Keys(l) && (Distinct([cell] + l) <==> cell.key !in Keys(l) && Distinct(l))
    ensures Find([cell] + l, cell.key) == Some(cell) && Before([cell] + l, cell.key) == {}
    ensures forall k :: k != cell.key ==>
      Find([cell] + l, k) == Find(l, k) && Before([cell] + l, k) == {cell.key} + Before(l, k)
  {
    assert ([cell] + l)[1..] == l;
  }

  lemma SmallerSet<K>(a: set<K>, b: set<K>)
    requires a <= b
    ensures |a| <= |b|
  {
    assert b == a + (b - a);
  }

  lemma GetWellFormed<K(!new)>(l: seq<Cell<K>>, key: K, now: int, cap: nat)
    requires WellFormed(l, cap)
    ensures WellFormed(Get(l, key, now), cap)
  {
    FindIsKeys(l, key);
    WithoutList(l, key);
    match Find(l, key)
    case Some(c) => Front(c, Without(l, key));
    case None =>
  }

  lemma SetWellFormed<K(!new)>(l: seq<Cell<K>>, cell: Cell<K>, cap: nat)
    requires WellFormed(l, cap) && cap >= 1
    ensures WellFormed(Set(l, cell, cap), cap)
  {
    FindIsKeys(l, cell.key);
    if Find(l, cell.key).Some? {
      WithoutList(l, cell.key);
      Front(cell, Without(l, cell.key));
    } else {
      Front(cell, l);
      ButLastList([cell] + l);
    }
  }

  lemma ApplyWellFormed<K(!new)>(l: seq<Cell<K>>, op: Op<K>, cap: nat, ttl: int)
    requires WellFormed(l, cap) && cap >= 1
    ensures WellFormed(Apply(l, op, cap, ttl), cap)
  {
    match op
    case GetOp(key, now) => GetWellFormed(l, key, now, cap);
    case SetOp(key, val, now) => SetWellFormed(l, Cell(key, val, now + ttl), cap);
  }

  /** In every run: no key twice, never more cells than the capacity. */
  lemma {:induction false} RunWellFormed<K(!new)>(l: seq<Cell<K>>, ops: seq<Op<K>>, cap: nat, ttl: int)
    requires WellFormed(l, cap) && cap >= 1
    ensures WellFormed(Run(l, ops, cap, ttl), cap)
  {
    if ops != [] {
      RunWellFormed(l, ops[..|ops| - 1], cap, ttl);
      ApplyWellFormed(Run(l, ops[..|ops| - 1], cap, ttl), ops[|ops| - 1], cap, ttl);
    }
  }

  /** What an operation does to the keys it does not name: nothing, or it drops the last of them. */
  lemma ApplyOther<K(!new)>(l: seq<Cell<K>>, op: Op<K>, cap: nat, ttl: int, other: K)
    requires WellFormed(l, cap) && cap >= 1 && other != op.key
    ensures var after := Find(Apply(l, op, cap, ttl), other);
            after == Find(l, other) || (after == None && op.SetOp? && Find(l, op.key).None?)
  {
    hide Without, ButLast, Distinct, Before, Keys, Find;
    WithoutOther(l, op.key, other);
    match op
    case GetOp(key, now) =>
      if Find(l, key).Some? { Front(Find(l, key).value, Without(l, key)); }
    case SetOp(key, val, now) =>
      var cell := Cell(key, val, now + ttl);
      if Find(l, key).Some? {
        Front(cell, Without(l, key));
      } else {
        Front(cell, l);
        FindIsKeys(l, key);
        FindIsKeys([cell] + l, other);
        FindIsKeys(ButLast([cell] + l), other);
        ButLastList([cell] + l);
        if other in Keys([cell] + l) { ButLastOther([cell] + l, other); }
      }
  }

  /** The cell of the key an operation names, afterwards. */
  lemma ApplySame<K(!new)>(l: seq<Cell<K>>, op: Op<K>, cap: nat, ttl: int)
    requires WellFormed(l, cap) && cap >= 1
    ensures var l1 := Apply(l, op, cap, ttl);
            if op.SetOp? then Find(l1, op.key) == Some(Cell(op.key, op.val, op.now + ttl)) && Before(l1, op.key) == {}
            else if Touches(l, op) then Find(l1, op.key) == Find(l, op.key) && Before(l1, op.key) == {}
            else Find(l1, op.key) == None
  {
    hide Without, ButLast, Distinct, Before, Keys, Find;
    FindIsKeys(l, op.key);
    WithoutList(l, op.key);
    FindIsKeys(Without(l, op.key), op.key);
    match op
    case GetOp(key, now) =>
      if Find(l, key).Some? { Front(Find(l, key).value, Without(l, key)); }
    case SetOp(key, val, now) =>
      var cell := Cell(key, val, now + ttl);
      if Find(l, key).Some? {
        Front(cell, Without(l, key));
      } else {
        Front(cell, l);
        ButLastOther([cell] + l, key);
      }
  }

  // ---------- only the last value ----------

  /** The value and time of the last write of `key`. */
  function LastSet<K(==)>(ops: seq<Op<K>>, key: K): Option<(string, int)> {
    if ops == [] then None
    else
      var op := ops[|ops| - 1];
      if op.SetOp? && op.key == key then Some((op.val, op.now)) else LastSet(ops[..|ops| - 1], key)
  }

  /** A read changes no value another read at the same time could see, its own included. */
  lemma GetKeepsPeeks<K(!new)>(l: seq<Cell<K>>, cap: nat, key: K, other: K, now: int)
    requires WellFormed(l, cap) && cap >= 1
    ensures Peek(Get(l, key, now), other, now) == Peek(l, other, now)
  {
    if other == key { ApplySame(l, GetOp(key, now), cap, 0); } else { ApplyOther(l, GetOp(key, now), cap, 0, other); }
  }

  // ---------- how long a key survives ----------

  /** Does this operation set its key, or hit it? */
  predicate Touches<K(==)>(l: seq<Cell<K>>, op: Op<K>) {
    op.SetOp? || (var f := Find(l, op.key); f.Some? && op.now <= f.value.exp)
  }

  /** What one operation does to the other keys used more recently than `key`: a touched key joins them, a key found
      expired leaves them, and touching `key` itself starts afresh. */
  function AheadStep<K(==)>(ahead: set<K>, l: seq<Cell<K>>, op: Op<K>, key: K): set<K> {
    if Touches(l, op) then (if op.key == key then {} else ahead + {op.key}) else ahead - {op.key}
  }

  function Ahead<K(==)>(l: seq<Cell<K>>, ops: seq<Op<K>>, key: K, cap: nat, ttl: int): set<K> {
    if ops == [] then {}
    else
      var before := ops[..|ops| - 1];
      AheadStep(Ahead(l, before, key, cap, ttl), Run(l, before, cap, ttl), ops[|ops| - 1], key)
  }

  /** `cell` is in the list, right behind cells with exactly the keys `ahead`. */
  ghost predicate Behind<K(!new)>(l: seq<Cell<K>>, cell: Cell<K>, ahead: set<K>) {
    Find(l, cell.key) == Some(cell) && Before(l, cell.key) == ahead
  }

  lemma MovedToFront<K(!new)>(l: seq<Cell<K>>, cap: nat, cell: Cell<K>, ahead: set<K>, top: Cell<K>)
    requires WellFormed(l, cap) && Behind(l, cell, ahead) && Find(l, top.key).Some? && top.key != cell.key
    ensures Behind([top] + Without(l, top.key), cell, ahead + {top.key}) && |ahead + {top.key}| < cap
  {
    hide Without, ButLast, Distinct, Before, Keys, Find;
    var l1 := [top] + Without(l, top.key);
    FindIsKeys(l, top.key);
    FindIsKeys(l, cell.key);
    WithoutList(l, top.key);
    WithoutOther(l, top.key, cell.key);
    Front(top, Without(l, top.key));
    assert {top.key} + (ahead - {top.key}) == ahead + {top.key};
    BeforeCounted(l1, cell.key);
  }

  lemma Dropped<K(!new)>(l: seq<Cell<K>>, cap: nat, cell: Cell<K>, ahead: set<K>, key: K)
    requires WellFormed(l, cap) && Behind(l, cell, ahead) && key != cell.key
    ensures Behind(Without(l, key), cell, ahead - {key}) && |ahead - {key}| < cap
  {
    hide ButLast, Distinct, Before, Keys, Find;
    FindIsKeys(l, cell.key);
    WithoutOther(l, key, cell.key);
    BeforeCounted(l, cell.key);
    SmallerSet(ahead - {key}, ahead);
  }

  lemma PushedDown<K(!new)>(l: seq<Cell<K>>, cap: nat, cell: Cell<K>, ahead: set<K>, top: Cell<K>)
    requires WellFormed(l, cap) && Behind(l, cell, ahead) && cap >= 1
    requires Find(l, top.key).None?
    ensures if |ahead + {top.key}| < cap then Behind(Set(l, top, cap), cell, ahead + {top.key})
            else Find(Set(l, top, cap), cell.key).None?
  {
    hide Without, ButLast, Distinct, Before, Keys, Find;
    var l0 := [top] + l;
    FindIsKeys(l, top.key);
    FindIsKeys(l, cell.key);
    Front(top, l);
    assert {top.key} + ahead == ahead + {top.key};
    BeforeCounted(l0, cell.key);
    ButLastOther(l0, cell.key);
  }

  /** One operation: the key keeps its place behind the keys touched since, unless they fill the cache. */
  lemma StepKeeps<K(!new)>(l: seq<Cell<K>>, cap: nat, ttl: int, cell: Cell<K>, ahead: set<K>, op: Op<K>)
    requires WellFormed(l, cap) && Behind(l, cell, ahead) && cap >= 1
    requires op.key == cell.key ==> op.GetOp? && op.now <= cell.exp
    ensures var ahead1 := AheadStep(ahead, l, op, cell.key);
            if |ahead1| < cap then Behind(Apply(l, op, cap, ttl), cell, ahead1)
            else Find(Apply(l, op, cap, ttl), cell.key).None?
  {
    hide Without, ButLast, Distinct, Before, Keys, Find;
    if op.key == cell.key {
      ApplySame(l, op, cap, ttl);
    } else if op.SetOp? {
      var top := Cell(op.key, op.val, op.now + ttl);
      if Find(l, op.key).Some? { MovedToFront(l, cap, cell, ahead, top); }
          else { PushedDown(l, cap, cell, ahead, top); }
    } else if Find(l, op.key).None? {
      FindIsKeys(l, op.key);
      FindIsKeys(l, cell.key);
      BeforeIsKeys(l, cell.key);
      BeforeCounted(l, cell.key);
      assert ahead - {op.key} == ahead;
    } else if Touches(l, op) {
      MovedToFront(l, cap, cell, ahead, Find(l, op.key).value);
    } else {
      Dropped(l, cap, cell, ahead, op.key);
    }
  }

  /** Where a key stands after a whole run: written, never pushed out, never found expired since. At every moment since
      its last write fewer than `cap` other keys were used more recently. */
  predicate Kept<K(==)>(ops: seq<Op<K>>, key: K, cap: nat, ttl: int) {
    if ops == [] then false
    else
      var before, op := ops[..|ops| - 1], ops[|ops| - 1];
      if op.SetOp? && op.key == key then true
      else
        && Kept(before, key, cap, ttl)
        && |Ahead([], ops, key, cap, ttl)| < cap
        && (op.key == key ==> LastSet(before, key).Some? && op.now <= LastSet(before, key).value.1 + ttl)
  }

  ghost predicate Exact<K(!new)>(l: seq<Cell<K>>, last: Option<(string, int)>, kept: bool, ahead: set<K>, key: K,
                                 ttl: int) {
    if kept then last.Some? && Behind(l, Cell(key, last.value.0, last.value.1 + ttl), ahead) else Find(l, key).None?
  }

  lemma {:induction false} RunExact<K(!new)>(ops: seq<Op<K>>, key: K, cap: nat, ttl: int)
    requires cap >= 1
    ensures Exact(Run([], ops, cap, ttl), LastSet(ops, key), Kept(ops, key, cap, ttl), Ahead([], ops, key, cap, ttl),
                  key, ttl)
  {
    hide Without, ButLast, Distinct, Before, Keys, Find, Apply, Touches;
    if ops != [] {
      var before, op := ops[..|ops| - 1], ops[|ops| - 1];
      RunExact(before, key, cap, ttl);
      RunWellFormed<K>([], before, cap, ttl);
      StepExact(Run([], before, cap, ttl), LastSet(before, key), Kept(before, key, cap, ttl),
                Ahead([], before, key, cap, ttl), key, cap, ttl, op);
    } else {
      EmptyFinds(key);
    }
  }

  lemma EmptyFinds<K(!new)>(key: K)
    ensures Find([], key).None? && Distinct<K>([])
  {
  }

  lemma StepExact<K(!new)>(l: seq<Cell<K>>, last: Option<(string, int)>, kept: bool, ahead: set<K>, key: K, cap: nat,
                           ttl: int, op: Op<K>)
    requires WellFormed(l, cap) && cap >= 1 && Exact(l, last, kept, ahead, key, ttl)
    ensures var ahead1 := AheadStep(ahead, l, op, key);
            if op.SetOp? && op.key == key then Exact(Apply(l, op, cap, ttl), Some((op.val, op.now)), true, ahead1, key,
                ttl)
            else
              var kept1 := kept && |ahead1| < cap && (op.key == key ==> last.Some? && op.now <= last.value.1 + ttl);
              Exact(Apply(l, op, cap, ttl), last, kept1, ahead1, key, ttl)
  {
    hide Without, ButLast, Distinct, Before, Keys, Find, Apply;
    if op.key == key {
      ApplySame(l, op, cap, ttl);
    } else if kept {
      StepKeeps(l, cap, ttl, Cell(key, last.value.0, last.value.1 + ttl), ahead, op);
    } else {
      ApplyOther(l, op, cap, ttl, key);
    }
  }

  /** What a read returns after any run: the last value written if the key is kept and not expired, else nothing. */
  lemma ReadsExactly<K(!new)>(ops: seq<Op<K>>, key: K, now: int, cap: nat, ttl: int)
    requires cap >= 1
    ensures var last := LastSet(ops, key);
            Peek(Run([], ops, cap, ttl), key, now)
            == if Kept(ops, key, cap, ttl) && last.Some? && now <= last.value.1 + ttl then last.value.0 else ""
  {
    hide Find, Before, Kept, Run, LastSet, Ahead;
    RunExact(ops, key, cap, ttl);
  }

  /** Reading any keys at one moment shows every one of them as it was before the first of those reads. */
  lemma {:induction false} ReadsAreOneSnapshot<K(!new)>(l: seq<Cell<K>>, keys: seq<K>, key: K, now: int, cap: nat,
      ttl: int)
    requires WellFormed(l, cap) && cap >= 1
    ensures Peek(Run(l, seq(|keys|, i requires 0 <= i < |keys| => GetOp(keys[i], now)), cap, ttl), key, now)
        == Peek(l, key, now)
  {
    hide Peek, Get, WellFormed;
    var gets := seq(|keys|, i requires 0 <= i < |keys| => GetOp(keys[i], now));
    if keys != [] {
      var n := |keys| - 1;
      var before := seq(n, i requires 0 <= i < n => GetOp(keys[..n][i], now));
      assert gets[..n] == before;
      ReadsAreOneSnapshot(l, keys[..n], key, now, cap, ttl);
      RunWellFormed(l, before, cap, ttl);
      GetKeepsPeeks(Run(l, before, cap, ttl), cap, keys[n], key, now);
    }
  }

  /** The operations after the last write of `key`. */
  function SinceSet<K(==)>(ops: seq<Op<K>>, key: K): seq<Op<K>> {
    if ops == [] then []
    else
      var before, op := ops[..|ops| - 1], ops[|ops| - 1];
      if op.SetOp? && op.key == key then [] else SinceSet(before, key) + [op]
  }

  /** The other keys some operations set or read. */
  ghost function OtherKeys<K>(ops: seq<Op<K>>, key: K): set<K> {
    (set op <- ops :: op.key) - {key}
  }

  /** Reads of `key` come no later than its deadline. */
  ghost predicate ReadInTime<K(!new)>(ops: seq<Op<K>>, key: K, deadline: int) {
    forall op <- ops :: op.key == key ==> op.now <= deadline
  }

  lemma {:induction false} AheadAreOthers<K(!new)>(ops: seq<Op<K>>, key: K, cap: nat, ttl: int)
    requires LastSet(ops, key).Some?
    ensures Ahead([], ops, key, cap, ttl) <= OtherKeys(SinceSet(ops, key), key)
  {
    hide Run, Touches;
    var before, op := ops[..|ops| - 1], ops[|ops| - 1];
    if !(op.SetOp? && op.key == key) {
      AheadAreOthers(before, key, cap, ttl);
      var since := SinceSet(ops, key);
      assert since[|since| - 1] == op;
      assert op in since;
      assert OtherKeys(SinceSet(before, key), key) <= OtherKeys(since, key);
    } else {
      WriteStartsAfresh(before, op, key, cap, ttl);
    }
  }

  lemma WriteStartsAfresh<K(!new)>(before: seq<Op<K>>, op: Op<K>, key: K, cap: nat, ttl: int)
    requires op.SetOp? && op.key == key
    ensures AheadStep(Ahead([], before, key, cap, ttl), Run([], before, cap, ttl), op, key) == {}
  {
  }

  /** The promise of the cache: a key is kept as long as fewer than `cap` other keys were set or read since it was
      written, whatever the order, and no read found it expired. */
  lemma {:induction false} FewKeysKeep<K(!new)>(ops: seq<Op<K>>, key: K, cap: nat, ttl: int)
    requires cap >= 1 && LastSet(ops, key).Some?
    requires |OtherKeys(SinceSet(ops, key), key)| < cap
    requires ReadInTime(SinceSet(ops, key), key, LastSet(ops, key).value.1 + ttl)
    ensures Kept(ops, key, cap, ttl)
  {
    hide Ahead;
    var before, op := ops[..|ops| - 1], ops[|ops| - 1];
    if !(op.SetOp? && op.key == key) {
      var since := SinceSet(ops, key);
      assert since[|since| - 1] == op;
      assert op in since;
      AheadAreOthers(ops, key, cap, ttl);
      assert OtherKeys(SinceSet(before, key), key) <= OtherKeys(since, key);
      SmallerSet(Ahead([], ops, key, cap, ttl), OtherKeys(since, key));
      SmallerSet(OtherKeys(SinceSet(before, key), key), OtherKeys(since, key));
      assert ReadInTime(SinceSet(before, key), key, LastSet(before, key).value.1 + ttl);
      FewKeysKeep(before, key, cap, ttl);
    }
  }

  /** Pushed out for good: `cap` other keys used since the last use of a key, and it is gone. */
  lemma FullCacheForgets<K(!new)>(ops: seq<Op<K>>, key: K, now: int, cap: nat, ttl: int)
    requires cap >= 1 && |Ahead([], ops, key, cap, ttl)| >= cap
    ensures Peek(Run([], ops, cap, ttl), key, now) == ""
  {
    ReadsExactly(ops, key, now, cap, ttl);
    if ops != [] {
      var before, op := ops[..|ops| - 1], ops[|ops| - 1];
      if op.SetOp? && op.key == key { WriteStartsAfresh(before, op, key, cap, ttl); }
    }
  }
}
