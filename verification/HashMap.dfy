/** data_structures/safe_hash_node.h and safe_hash_map.h: a table of singly linked
    buckets that behaves as a mathematical map, for any hash function. */
module HashMap {
  import opened Options

  class HashNode<K, V> {
    const key: K
    var value: V
    var next: HashNode?<K, V>

    constructor (key: K, value: V)
      ensures this.key == key && this.value == value && next == null
    {
      this.key, this.value, next := key, value, null;
    }
  }

  /** One bucket: the nodes of `list`, linked in order from `head`. */
  class HashBucket<K(==), V> {
    var head: HashNode?<K, V>
    ghost var list: seq<HashNode<K, V>>
    /** The bucket as a map. */
    ghost var content: map<K, V>

    ghost predicate Valid()
      reads this, list
    {
      && head == (if list == [] then null else list[0])
      && (forall i {:trigger list[i].next} :: 0 <= i < |list| ==>
            list[i].next == if i + 1 < |list| then list[i + 1] else null)
      && (forall i, j {:trigger list[i].key, list[j].key} :: 0 <= i < j < |list| ==> list[i].key != list[j].key)
      && content == MapOf(Pairs())
    }

    /** The entries in list order. */
    ghost function Pairs(): (ps: seq<(K, V)>)
      reads this, list
      ensures |ps| == |list| && forall i :: 0 <= i < |ps| ==> ps[i] == (list[i].key, list[i].value)
    {
      seq(|list|, i requires 0 <= i < |list| reads this, list => (list[i].key, list[i].value))
    }

    constructor ()
      ensures Valid() && list == [] && content == map[]
    {
      head, list, content := null, [], map[];
    }

    /** A bucket whose nodes nobody touched is as it was. */
    twostate lemma Untouched()
      requires old(Valid()) && unchanged(this)
      requires forall i :: 0 <= i < |list| ==> old(allocated(list[i])) && unchanged(list[i])
      ensures Valid()
    {
      forall i | 0 <= i < |list|
        ensures list[i].next == old(list[i].next) && list[i].value == old(list[i].value)
      {
        assert unchanged(list[i]);
      }
      assert Pairs() == old(Pairs());
    }

    method Find(key: K) returns (r: Option<V>)
      requires Valid()
      ensures r == if key in content then Some(content[key]) else None
    {
      var prev, node, i := Seek(key);
      MapLookup(Pairs(), key, i);
      r := if node == null then None else Some(node.value);
    }

    /** Walk to the node with the key, or past the end, remembering the one before. */
    method Seek(key: K) returns (prev: HashNode?<K, V>, node: HashNode?<K, V>, ghost i: nat)
      requires Valid()
      ensures i <= |list| && node == (if i < |list| then list[i] else null)
              && prev == (if i > 0 then list[i - 1] else null)
      ensures i < |list| ==> list[i].key == key
      ensures forall j :: 0 <= j < i ==> list[j].key != key
    {
      prev, node, i := null, head, 0;
      while node != null && node.key != key
        invariant i <= |list| && node == (if i < |list| then list[i] else null)
                  && prev == (if i > 0 then list[i - 1] else null)
        invariant forall j :: 0 <= j < i ==> list[j].key != key
        decreases |list| - i
      {
        prev, node, i := node, node.next, i + 1;
      }
    }

    /** Link a new node after `prev`, the last one. */
    method Append(prev: HashNode?<K, V>, key: K, value: V)
      requires Valid() && prev == (if list == [] then null else list[|list| - 1])
      requires forall j :: 0 <= j < |list| ==> list[j].key != key
      modifies this, list
      ensures Valid() && forall n :: n in list ==> n in old(list) || (fresh(n) && n.key == key)
      ensures content == MapOf(old(Pairs()) + [(key, value)])
    {
      var added := new HashNode(key, value);
      if head == null {
        head := added;
      } else {
        prev.next := added;
      }
      list := list + [added];
      content := MapOf(old(Pairs()) + [(key, value)]);
      assert Pairs() == old(Pairs()) + [(key, value)];
    }

    /** Store a value in the node at position `i`. */
    method Overwrite(node: HashNode<K, V>, value: V, ghost i: nat)
      requires Valid() && i < |list| && node == list[i]
      modifies node, this`content
      ensures Valid() && list == old(list) && content == MapOf(old(Pairs())[i := (node.key, value)])
    {
      node.value := value;
      content := MapOf(old(Pairs())[i := (node.key, value)]);
      assert Pairs() == old(Pairs())[i := (node.key, value)];
    }

    /** Lead the links past the node at position `i`. */
    method Bypass(prev: HashNode?<K, V>, node: HashNode<K, V>, ghost i: nat)
      requires Valid() && i < |list| && node == list[i] && prev == (if i > 0 then list[i - 1] else null)
      modifies this`head, list
      ensures Pairs() == old(Pairs())
      ensures forall j {:trigger list[j].next} :: 0 <= j < |list| && j != i - 1 ==> list[j].next == old(list[j].next)
      ensures var after := old(node.next);
              if i == 0 then head == after else head == old(head) && list[i - 1].next == after
    {
      assert forall j :: 0 <= j < |list| && j != i ==> list[j].key != node.key;
      assert forall j :: 0 <= j < |list| && i > 0 && j != i - 1 ==> list[j].key != prev.key;
      if head == node {
        head := node.next;
      } else {
        prev.next := node.next;
      }
    }

    /** Take the node at position `i` out of the list. */
    method Unlink(prev: HashNode?<K, V>, node: HashNode<K, V>, ghost i: nat)
      requires Valid() && i < |list| && node == list[i] && prev == (if i > 0 then list[i - 1] else null)
      modifies this, list
      ensures Valid() && list == old(list)[..i] + old(list)[i + 1..]
      ensures content == MapOf(old(Pairs())[..i] + old(Pairs())[i + 1..])
    {
      Bypass(prev, node, i);
      Drop(i);
    }

    /** The node at position `i`, past which the links lead, is no longer in the list. */
    ghost method Drop(i: nat)
      requires i < |list| && content == MapOf(Pairs())
      requires head == if i > 0 then list[0] else if |list| > 1 then list[1] else null
      requires forall j {:trigger list[j].next} :: 0 <= j < |list| && j != i ==>
                 var k := if j + 1 == i then j + 2 else j + 1; list[j].next == if k < |list| then list[k] else null
      requires forall j, k {:trigger list[j].key, list[k].key} :: 0 <= j < k < |list| ==> list[j].key != list[k].key
      modifies this`list, this`content
      ensures Valid() && list == old(list)[..i] + old(list)[i + 1..]
      ensures content == MapOf(old(Pairs())[..i] + old(Pairs())[i + 1..])
    {
      ghost var was := list;
      list := list[..i] + list[i + 1..];
      content := MapOf(old(Pairs())[..i] + old(Pairs())[i + 1..]);
      assert Pairs() == old(Pairs())[..i] + old(Pairs())[i + 1..];
      assert forall j {:trigger list[j]} :: 0 <= j < |list| ==> list[j] == was[if j < i then j else j + 1];
    }

    method Insert(key: K, value: V)
      requires Valid()
      modifies this, list
      ensures Valid() && content == old(content)[key := value]
      ensures forall n :: n in list ==> n in old(list) || (fresh(n) && n.key == key)
    {
      var prev, node, i := Seek(key);
      MapUpdate(Pairs(), key, value, i);
      if node == null {
        Append(prev, key, value);
      } else {
        Overwrite(node, value, i);
      }
    }

    method Erase(key: K)
      requires Valid()
      modifies this, list
      ensures Valid() && content == old(content) - {key}
      ensures forall n :: n in list ==> n in old(list)
    {
      var prev, node, i := Seek(key);
      MapRemove(Pairs(), key, i);
      if node != null {
        Unlink(prev, node, i);
      }
    }

    method Clear()
      requires Valid()
      modifies this
      ensures Valid() && list == [] && content == map[]
    {
      head, list, content := null, [], map[];
    }
  }

  // ----- Association lists

  /** The map of a list of entries; the first entry of a key counts. */
  function MapOf<K, V>(ps: seq<(K, V)>): map<K, V> {
    if ps == [] then map[] else MapOf(ps[1..])[ps[0].0 := ps[0].1]
  }

  ghost predicate AbsentBefore<K, V>(ps: seq<(K, V)>, key: K, i: nat) {
    i <= |ps| && (i < |ps| ==> ps[i].0 == key) && forall j :: 0 <= j < i ==> ps[j].0 != key
  }

  ghost predicate DistinctKeys<K, V>(ps: seq<(K, V)>) { forall i, j :: 0 <= i < j < |ps| ==> ps[i].0 != ps[j].0 }

  lemma {:induction false} MapLookup<K, V>(ps: seq<(K, V)>, key: K, i: nat)
    requires AbsentBefore(ps, key, i)
    ensures key in MapOf(ps) <==> i < |ps|
    ensures i < |ps| ==> MapOf(ps)[key] == ps[i].1
  {
    if i > 0 { MapLookup(ps[1..], key, i - 1); }
  }

  /** Overwriting the first entry of a key, or appending one, updates the map. */
  lemma {:induction false} MapUpdate<K, V>(ps: seq<(K, V)>, key: K, value: V, i: nat)
    requires AbsentBefore(ps, key, i)
    ensures MapOf(if i < |ps| then ps[i := (key, value)] else ps + [(key, value)]) == MapOf(ps)[key := value]
  {
    var ps' := if i < |ps| then ps[i := (key, value)] else ps + [(key, value)];
    if i > 0 {
      MapUpdate(ps[1..], key, value, i - 1);
      assert ps'[1..] == if i < |ps| then ps[1..][i - 1 := (key, value)] else ps[1..] + [(key, value)];
    }
  }

  /** Removing the only entry of a key removes it from the map. */
  lemma {:induction false} MapRemove<K, V>(ps: seq<(K, V)>, key: K, i: nat)
    requires AbsentBefore(ps, key, i) && DistinctKeys(ps)
    ensures MapOf(if i < |ps| then ps[..i] + ps[i + 1..] else ps) == MapOf(ps) - {key}
  {
    if i == |ps| {
      MapLookup(ps, key, i);
    } else if i == 0 {
      MapRemoveFirst(ps, key);
      assert ps[..0] + ps[1..] == ps[1..];
    } else {
      TailKeys(ps, key, i);
      MapRemove(ps[1..], key, i - 1);
      MapRemoveLater(ps, key, i);
    }
  }

  lemma TailKeys<K, V>(ps: seq<(K, V)>, key: K, i: nat)
    requires AbsentBefore(ps, key, i) && DistinctKeys(ps) && 0 < i
    ensures AbsentBefore(ps[1..], key, i - 1) && DistinctKeys(ps[1..])
  {
  }

  lemma MapRemoveLater<K, V>(ps: seq<(K, V)>, key: K, i: nat)
    requires 0 < i < |ps| && ps[0].0 != key
    requires MapOf(ps[1..][..i - 1] + ps[1..][i..]) == MapOf(ps[1..]) - {key}
    ensures MapOf(ps[..i] + ps[i + 1..]) == MapOf(ps) - {key}
  {
    var qs := ps[..i] + ps[i + 1..];
    assert qs[1..] == ps[1..][..i - 1] + ps[1..][i..];
    MapConsRemove(ps, qs, key);
  }

  lemma MapRemoveFirst<K, V>(ps: seq<(K, V)>, key: K)
    requires ps != [] && ps[0].0 == key && DistinctKeys(ps)
    ensures MapOf(ps[1..]) == MapOf(ps) - {key}
  {
    MapLookup(ps[1..], key, |ps| - 1);
  }

  lemma MapConsRemove<K, V>(ps: seq<(K, V)>, qs: seq<(K, V)>, key: K)
    requires ps != [] && qs != [] && ps[0] == qs[0] && ps[0].0 != key && MapOf(qs[1..]) == MapOf(ps[1..]) - {key}
    ensures MapOf(qs) == MapOf(ps) - {key}
  {
  }

  // ----- The table

  /** The union of the buckets' maps. */
  function Merge<K, V>(vs: seq<map<K, V>>): map<K, V> {
    if vs == [] then map[] else Merge(vs[..|vs| - 1]) + vs[|vs| - 1]
  }

  /** Each key is in the map its hash selects. */
  ghost predicate InSlots<K(!new), V>(vs: seq<map<K, V>>, slot: K -> nat, from: nat) {
    forall i, k {:trigger k in vs[i]} :: 0 <= i < |vs| && k in vs[i] ==> slot(k) == from + i
  }

  lemma {:induction false} MergeLookup<K(!new), V>(vs: seq<map<K, V>>, slot: K -> nat, k: K)
    requires InSlots(vs, slot, 0)
    ensures k in Merge(vs) <==> slot(k) < |vs| && k in vs[slot(k)]
    ensures slot(k) < |vs| && k in vs[slot(k)] ==> Merge(vs)[k] == vs[slot(k)][k]
  {
    if vs != [] {
      var before := vs[..|vs| - 1];
      assert forall i, x :: 0 <= i < |before| && x in before[i] ==> x in vs[i];
      MergeLookup(before, slot, k);
    }
  }

  /** Changing the map a key's hash selects changes the union in the same way. */
  lemma MergeUpdate<K(!new), V>(vs: seq<map<K, V>>, slot: K -> nat, key: K, value: V)
    requires InSlots(vs, slot, 0) && slot(key) < |vs|
    ensures var vs' := vs[slot(key) := vs[slot(key)][key := value]];
            InSlots(vs', slot, 0) && Merge(vs') == Merge(vs)[key := value]
  {
    var vs' := vs[slot(key) := vs[slot(key)][key := value]];
    forall k
      ensures k in Merge(vs') <==> k in Merge(vs)[key := value]
      ensures k in Merge(vs') ==> Merge(vs')[k] == Merge(vs)[key := value][k]
    {
      MergeLookup(vs, slot, k);
      MergeLookup(vs', slot, k);
    }
  }

  lemma MergeRemove<K(!new), V>(vs: seq<map<K, V>>, slot: K -> nat, key: K)
    requires InSlots(vs, slot, 0) && slot(key) < |vs|
    ensures var vs' := vs[slot(key) := vs[slot(key)] - {key}];
            InSlots(vs', slot, 0) && Merge(vs') == Merge(vs) - {key}
  {
    var vs' := vs[slot(key) := vs[slot(key)] - {key}];
    forall k
      ensures k in Merge(vs') <==> k in Merge(vs) - {key}
      ensures k in Merge(vs') ==> Merge(vs')[k] == (Merge(vs) - {key})[k]
    {
      MergeLookup(vs, slot, k);
      MergeLookup(vs', slot, k);
    }
  }

  lemma {:induction false} MergeEmpty<K, V>(vs: seq<map<K, V>>)
    requires forall i :: 0 <= i < |vs| ==> vs[i] == map[]
    ensures Merge(vs) == map[]
  {
    if vs != [] {
      MergeEmpty(vs[..|vs| - 1]);
      assert vs[|vs| - 1] == map[];
    }
  }

  class SafeHashMap<K(==,!new), V> {
    const hashTable: seq<HashBucket<K, V>>
    const hashFn: K -> nat
    /** Every node of every bucket. */
    ghost var nodes: set<HashNode<K, V>>

    /** Buckets are distinct and hold only keys that hash to them, so they share no node. */
    ghost predicate Valid()
      reads this, hashTable, nodes
    {
      && 0 < |hashTable|
      && (forall i, n :: 0 <= i < |hashTable| && n in hashTable[i].list ==> n in nodes)
      && (forall i, n :: 0 <= i < |hashTable| && n in hashTable[i].list ==> Slot()(n.key) == i)
      && (forall i :: 0 <= i < |hashTable| ==> hashTable[i].Valid())
      && (forall i, j :: 0 <= i < j < |hashTable| ==> hashTable[i] != hashTable[j])
      && InSlots(Views(), Slot(), 0)
    }

    ghost function Slot(): K -> nat
      reads this
    {
      var size := if |hashTable| == 0 then 1 else |hashTable|;
      k => hashFn(k) % size
    }

    ghost function Views(): (vs: seq<map<K, V>>)
      reads this, hashTable
      ensures |vs| == |hashTable| && forall i :: 0 <= i < |vs| ==> vs[i] == hashTable[i].content
    {
      seq(|hashTable|, i requires 0 <= i < |hashTable| reads this, hashTable => hashTable[i].content)
    }

    ghost function View(): map<K, V>
      reads this, hashTable
    {
      Merge(Views())
    }

    constructor (hashSize: nat, hashFn: K -> nat)
      requires 0 < hashSize
      ensures Valid() && View() == map[] && |hashTable| == hashSize && this.hashFn == hashFn
      ensures fresh(hashTable) && nodes == {}
    {
      this.hashFn := hashFn;
      var table: seq<HashBucket<K, V>> := [];
      while |table| < hashSize
        invariant |table| <= hashSize
        invariant forall i :: 0 <= i < |table| ==>
                    fresh(table[i]) && table[i].Valid() && table[i].list == [] && table[i].content == map[]
        invariant forall i, j :: 0 <= i < j < |table| ==> table[i] != table[j]
      {
        var b := new HashBucket();
        table := table + [b];
      }
      hashTable, nodes := table, {};
      new;
      MergeEmpty(Views());
    }

    method Find(key: K) returns (r: Option<V>)
      requires Valid()
      ensures r == if key in View() then Some(View()[key]) else None
    {
      var h := hashFn(key) % |hashTable|;
      MergeLookup(Views(), Slot(), key);
      r := hashTable[h].Find(key);
    }

    /** When one bucket changed, and the table still knows its nodes and they still hash
        to it, the table is in order and only that bucket's map is new. */
    twostate lemma OnlyBucketChanged(h: nat)
      requires old(Valid()) && h < |hashTable| && old(nodes) <= nodes && hashTable[h].Valid()
      requires forall n :: n in hashTable[h].list ==> n in nodes && Slot()(n.key) == h
      requires forall j :: 0 <= j < |hashTable| && j != h ==> unchanged(hashTable[j])
      requires forall n :: n in old(nodes) && Slot()(n.key) != h ==> unchanged(n)
      requires InSlots(old(Views())[h := hashTable[h].content], Slot(), 0)
      ensures Valid() && Views() == old(Views())[h := hashTable[h].content]
    {
      forall j | 0 <= j < |hashTable| && j != h
        ensures hashTable[j].Valid() && hashTable[j].list == old(hashTable[j].list)
                && hashTable[j].content == old(Views())[j]
      {
        forall i | 0 <= i < |hashTable[j].list|
          ensures old(allocated(hashTable[j].list[i])) && unchanged(hashTable[j].list[i])
        {
          assert hashTable[j].list[i] in old(hashTable[j].list);
        }
        hashTable[j].Untouched();
      }
      assert Views() == old(Views())[h := hashTable[h].content];
    }

    method Insert(key: K, value: V)
      requires Valid()
      modifies this`nodes, hashTable, nodes
      ensures Valid() && View() == old(View())[key := value] && fresh(nodes - old(nodes))
    {
      var h := hashFn(key) % |hashTable|;
      MergeUpdate(Views(), Slot(), key, value);
      InsertInto(h, key, value);
      OnlyBucketChanged(h);
    }

    method InsertInto(h: nat, key: K, value: V)
      requires Valid() && h == Slot()(key)
      modifies this`nodes, hashTable[h], hashTable[h].list
      ensures old(nodes) <= nodes && fresh(nodes - old(nodes))
      ensures hashTable[h].Valid() && hashTable[h].content == old(hashTable[h].content)[key := value]
      ensures forall n :: n in hashTable[h].list ==> n in nodes && Slot()(n.key) == h
    {
      hashTable[h].Insert(key, value);
      nodes := nodes + set n | n in hashTable[h].list;
    }

    method Erase(key: K)
      requires Valid()
      modifies hashTable, nodes
      ensures Valid() && View() == old(View()) - {key}
    {
      var h := hashFn(key) % |hashTable|;
      MergeRemove(Views(), Slot(), key);
      hashTable[h].Erase(key);
      OnlyBucketChanged(h);
    }

    method Clear()
      requires Valid()
      modifies hashTable
      ensures Valid() && View() == map[]
    {
      for i := 0 to |hashTable|
        invariant forall j :: i <= j < |hashTable| ==> unchanged(hashTable[j])
        invariant forall j :: 0 <= j < i ==>
                    hashTable[j].Valid() && hashTable[j].list == [] && hashTable[j].content == map[]
      {
        hashTable[i].Untouched();
        hashTable[i].Clear();
      }
      MergeEmpty(Views());
    }
  }

  // ----- Whole runs

  datatype Op<K, V> = InsertOp(key: K, value: V) | EraseOp(key: K) | FindOp(key: K) | ClearOp

  /** What an operation answers, and what it makes of a mathematical map. */
  function AnswerOf<K, V>(m: map<K, V>, op: Op<K, V>): seq<Option<V>> {
    if op.FindOp? then [if op.key in m then Some(m[op.key]) else None] else []
  }

  function EffectOf<K, V>(m: map<K, V>, op: Op<K, V>): map<K, V> {
    match op
    case InsertOp(k, v) => m[k := v]
    case EraseOp(k) => m - {k}
    case FindOp(_) => m
    case ClearOp => map[]
  }

  function Answers<K, V>(m: map<K, V>, ops: seq<Op<K, V>>): seq<Option<V>>
    decreases |ops|
  {
    if ops == [] then [] else AnswerOf(m, ops[0]) + Answers(EffectOf(m, ops[0]), ops[1..])
  }

  lemma AnswersStep<K, V>(answers: seq<Option<V>>, m: map<K, V>, ops: seq<Op<K, V>>, i: nat)
    requires i < |ops|
    ensures answers + Answers(m, ops[i..])
         == (answers + AnswerOf(m, ops[i])) + Answers(EffectOf(m, ops[i]), ops[i + 1..])
  {
    assert ops[i..][1..] == ops[i + 1..];
  }

  method Do<K(==,!new), V>(table: SafeHashMap<K, V>, op: Op<K, V>) returns (answer: seq<Option<V>>)
    requires table.Valid()
    modifies table`nodes, table.hashTable, table.nodes
    ensures table.Valid() && fresh(table.nodes - old(table.nodes))
    ensures answer == AnswerOf(old(table.View()), op) && table.View() == EffectOf(old(table.View()), op)
  {
    answer := [];
    match op
    case InsertOp(k, v) => table.Insert(k, v);
    case EraseOp(k) => table.Erase(k);
    case FindOp(k) => var r := table.Find(k); answer := [r];
    case ClearOp => table.Clear();
  }

  /** Any sequence of operations, on a table of any size with any hash function, answers
      as the mathematical map does. */
  method Replay<K(==,!new), V>(hashSize: nat, hashFn: K -> nat, ops: seq<Op<K, V>>) returns (answers: seq<Option<V>>)
    requires 0 < hashSize
    ensures answers == Answers(map[], ops)
  {
    var table := new SafeHashMap(hashSize, hashFn);
    answers := [];
    for i := 0 to |ops|
      invariant table.Valid() && fresh(table) && fresh(table.hashTable) && fresh(table.nodes)
      invariant Answers(map[], ops) == answers + Answers(table.View(), ops[i..])
    {
      ghost var view := table.View();
      AnswersStep(answers, view, ops, i);
      var answer := Do(table, ops[i]);
      assert table.View() == EffectOf(view, ops[i]);
      answers := answers + answer;
    }
  }
}
