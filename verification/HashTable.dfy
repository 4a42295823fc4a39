/** The chained hash table behind the index by path: an array of buckets, each the head of a chain
    of entries. It is proved to be a finite map, whatever the hash function is. */
module HashTable {
  import opened Sequences
  import opened StoreTypes

  // ---------- the hash function ----------

  const HIGH_BITS: bv32 := 0xF000_0000

  /** A character as C widens it, with its sign. */
  function Widen(b: bv8): bv32 {
    if b >= 128 then 0xFFFF_FF00 | (b as bv32) else b as bv32
  }

  /** The four high bits come down again. */
  function Fold(next: bv32): (r: bv32)
    ensures r & HIGH_BITS == 0
  {
    var i := next & HIGH_BITS;
    if i != 0 then (next ^ (i >> 24)) & !HIGH_BITS else next
  }

  /** One turn of hash_pjw, on 32-bit integers. */
  function PjwStep(h: bv32, b: bv8): (r: bv32)
    ensures r & HIGH_BITS == 0
  {
    Fold((h << 4) + Widen(b))
  }

  function PjwFrom(h: bv32, key: seq<bv8>): bv32
    decreases |key|
  {
    if key == [] then h else PjwFrom(PjwStep(h, key[0]), key[1..])
  }

  /** The loop of hash_pjw. Whatever the string, the four high bits of the hash are clear, so it is
      below 2 to the 28. */
  method HashPjw(key: seq<bv8>) returns (hash: bv32)
    ensures hash == PjwFrom(0, key)
    ensures hash & HIGH_BITS == 0 && hash < 0x1000_0000
  {
    hash := 0;
    var n := 0;
    while n < |key|
      invariant 0 <= n <= |key| && hash & HIGH_BITS == 0
      invariant PjwFrom(hash, key[n..]) == PjwFrom(0, key)
    {
      assert key[n..][0] == key[n] && key[n..][1..] == key[n + 1..];
      hash := PjwStep(hash, key[n]);
      n := n + 1;
    }
    assert key[n..] == [];
    BelowTwoTo28(hash);
  }

  lemma {:induction false} ShiftIsTimes16(h: bv32)
    ensures h << 4 == h * 16
  {
  }

  const LOW_BITS: bv32 := 0x0FFF_FFFF

  lemma {:induction false} TopMoves(next: bv32)
    ensures (next & HIGH_BITS) >> 24 == (next >> 28) << 4
  {
  }

  lemma {:induction false} Unmasked(next: bv32, folded: bv32)
    requires folded == (next ^ ((next >> 28) << 4)) & !HIGH_BITS
    ensures folded == (next & LOW_BITS) ^ ((next >> 28) << 4)
  {
  }

  lemma {:induction false} NoTop(x: bv32)
    requires x & HIGH_BITS == 0
    ensures x == (x & LOW_BITS) ^ ((x >> 28) << 4)
  {
  }

  lemma {:induction false} TopFolds(next: bv32)
    requires next & HIGH_BITS != 0
    ensures Fold(next) == (next ^ ((next >> 28) << 4)) & !HIGH_BITS
  {
    TopMoves(next);
  }

  lemma {:induction false} FoldIs(next: bv32)
    ensures Fold(next) == (next & LOW_BITS) ^ ((next >> 28) << 4)
  {
    if next & HIGH_BITS == 0 {
      NoTop(next);
    } else {
      TopFolds(next);
      Unmasked(next, Fold(next));
    }
  }

  /** What a turn does: the hash is moved up by four bits and the character is added; the four bits
      that went over the top are folded into bits 4 to 7. */
  lemma {:induction false} PjwFolds(h: bv32, b: bv8)
    ensures var next := h * 16 + Widen(b);
      PjwStep(h, b) == (next & LOW_BITS) ^ ((next >> 28) << 4)
  {
    ShiftIsTimes16(h);
    FoldIs((h << 4) + Widen(b));
  }

  lemma {:induction false} StepFits(h: bv32, b: bv8)
    requires h < 0x0010_0000 && b < 128
    ensures PjwStep(h, b) == h * 16 + b as bv32
  {
    ShiftIsTimes16(h);
    SmallSum(h, b as bv32);
  }

  lemma {:induction false} SmallSum(h: bv32, c: bv32)
    requires h < 0x0010_0000 && c < 128
    ensures ((h << 4) + c) & HIGH_BITS == 0
  {
  }

  /** The hashes of short keys. */
  lemma {:induction false} ShortKeys(a: bv8, b: bv8)
    requires a < 128 && b < 128
    ensures PjwFrom(0, []) == 0
    ensures PjwFrom(0, [a]) == a as bv32
    ensures PjwFrom(0, [a, b]) == (a as bv32) * 16 + b as bv32
  {
    assert [a][1..] == [] && [a, b][1..] == [b] && [b][1..] == [];
    StepFits(0, a);
    assert PjwStep(0, a) == a as bv32;
    StepFits(a as bv32, b);
    assert PjwFrom(a as bv32, [b]) == PjwStep(a as bv32, b);
  }

  lemma {:induction false} BelowTwoTo28(h: bv32)
    requires h & HIGH_BITS == 0
    ensures h < 0x1000_0000
  {
  }

  // ---------- chains ----------

  class Entry<K, V> {
    const key: K
    const data: V
    var next: Entry?<K, V>

    constructor (key: K, data: V, next: Entry?<K, V>)
      ensures this.key == key && this.data == data && this.next == next
    {
      this.key, this.data, this.next := key, data, next;
    }
  }

  function Keys<K, V>(chain: seq<Entry<K, V>>): (ks: seq<K>)
    ensures |ks| == |chain|
  {
    seq(|chain|, i requires 0 <= i < |chain| => chain[i].key)
  }

  ghost predicate NextAt<K, V>(chain: seq<Entry<K, V>>, i: nat)
    requires i < |chain|
    reads chain[i]
  {
    chain[i].next == if i + 1 < |chain| then chain[i + 1] else null
  }

  ghost predicate Chained<K, V>(head: Entry?<K, V>, chain: seq<Entry<K, V>>)
    reads chain
  {
    && head == (if chain == [] then null else chain[0])
    && forall i :: 0 <= i < |chain| ==> NextAt(chain, i)
  }

  // ---------- which entries are where ----------

  function Bucket<K(!new)>(hash: K -> nat, n: nat, key: K): (b: nat)
    requires n > 0
    ensures b < n
  {
    hash(key) % n
  }

  /** Every entry of a chain belongs there, is the only one with its key, and holds its data. */
  ghost predicate ChainFiled<K(!new), V>(chain: seq<Entry<K, V>>, b: nat, contents: map<K, V>, hash: K -> nat, n: nat)
    requires n > 0
  {
    && NoDup(Keys(chain))
    && forall i :: 0 <= i < |chain| ==>
         Bucket(hash, n, chain[i].key) == b && chain[i].key in contents && contents[chain[i].key] == chain[i].data
  }

  /** The chains hold the map, each key in the chain of its bucket. */
  ghost predicate Filed<K(!new), V>(chains: seq<seq<Entry<K, V>>>, contents: map<K, V>, hash: K -> nat)
    requires chains != []
  {
    (&& (forall b :: 0 <= b < |chains| ==> ChainFiled(chains[b], b, contents, hash, |chains|))
     && forall k :: k in contents ==> k in Keys(chains[Bucket(hash, |chains|, k)])) == true
  }

  lemma {:induction false} InKeys<K, V>(chain: seq<Entry<K, V>>, i: nat)
    requires i < |chain|
    ensures chain[i].key in Keys(chain)
  {
    assert Keys(chain)[i] == chain[i].key;
  }

  lemma {:induction false} NotInKeys<K, V>(chain: seq<Entry<K, V>>, key: K)
    requires forall j :: 0 <= j < |chain| ==> chain[j].key != key
    ensures key !in Keys(chain)
  {
  }

  lemma {:induction false} FiledAdd<K(!new), V>(chains: seq<seq<Entry<K, V>>>, contents: map<K, V>, hash: K -> nat,
      e: Entry<K, V>)
    requires chains != [] && Filed(chains, contents, hash) && e.key !in contents
    ensures var b := Bucket(hash, |chains|, e.key);
      Filed(chains[b := [e] + chains[b]], contents[e.key := e.data], hash)
  {
    var b := Bucket(hash, |chains|, e.key);
    var chain := [e] + chains[b];
    var chains2, contents2 := chains[b := chain], contents[e.key := e.data];
    assert Keys(chain) == [e.key] + Keys(chains[b]);
    forall c | 0 <= c < |chains| ensures ChainFiled(chains2[c], c, contents2, hash, |chains|) {
      assert ChainFiled(chains[c], c, contents, hash, |chains|);
      if c == b {
        NotInKeys(chains[b], e.key);
        NoDupCons(e.key, Keys(chains[b]));
      }
    }
    forall k | k in contents2 ensures k in Keys(chains2[Bucket(hash, |chains|, k)]) {
      if k != e.key { assert k in Keys(chains[Bucket(hash, |chains|, k)]); }
    }
  }

  lemma {:induction false} FiledRemove<K(!new), V>(chains: seq<seq<Entry<K, V>>>, contents: map<K, V>, hash: K -> nat,
      b: nat, i: nat)
    requires chains != [] && Filed(chains, contents, hash) && b < |chains| && i < |chains[b]|
    ensures var chain := chains[b];
      Filed(chains[b := chain[..i] + chain[i + 1..]], contents - {chain[i].key}, hash)
    ensures chains[b][i].key in contents
  {
    var chain := chains[b];
    var key := chain[i].key;
    var rest := chain[..i] + chain[i + 1..];
    var chains2, contents2 := chains[b := rest], contents - {key};
    assert ChainFiled(chain, b, contents, hash, |chains|);
    TakeOutKeys(chain, i);
    forall c | 0 <= c < |chains| ensures ChainFiled(chains2[c], c, contents2, hash, |chains|) {
      assert ChainFiled(chains[c], c, contents, hash, |chains|);
      if c == b { FiledRest(chain, b, contents, hash, |chains|, i); }
    }
    forall k | k in contents2 ensures k in Keys(chains2[Bucket(hash, |chains|, k)]) {
      assert k in Keys(chains[Bucket(hash, |chains|, k)]);
    }
  }

  lemma {:induction false} FiledRest<K(!new), V>(chain: seq<Entry<K, V>>, b: nat, contents: map<K, V>, hash: K -> nat,
      n: nat, i: nat)
    requires n > 0 && ChainFiled(chain, b, contents, hash, n) && i < |chain|
    ensures ChainFiled(chain[..i] + chain[i + 1..], b, contents - {chain[i].key}, hash, n)
  {
    var rest := chain[..i] + chain[i + 1..];
    TakeOutKeys(chain, i);
    forall j | 0 <= j < |rest| ensures Bucket(hash, n, rest[j].key) == b && rest[j].key != chain[i].key
      && rest[j].key in contents && contents[rest[j].key] == rest[j].data {
      assert rest[j] == chain[if j < i then j else j + 1];
      InKeys(rest, j);
    }
  }

  lemma {:induction false} TakeOutKeys<K(!new), V>(chain: seq<Entry<K, V>>, i: nat)
    requires NoDup(Keys(chain)) && i < |chain|
    ensures var rest := chain[..i] + chain[i + 1..];
      NoDup(Keys(rest)) && forall k :: k in Keys(rest) <==> k in Keys(chain) && k != chain[i].key
  {
    var ks := Keys(chain);
    NoDupTakeOut(ks, i);
    assert Keys(chain[..i] + chain[i + 1..]) == ks[..i] + ks[i + 1..];
  }

  lemma {:induction false} OneMore<K, V>(m: map<K, V>, k: K, v: V)
    requires k !in m
    ensures |m[k := v]| == |m| + 1
  {
    assert m[k := v].Keys == m.Keys + {k};
  }

  lemma {:induction false} OneLess<K, V>(m: map<K, V>, k: K)
    requires k in m
    ensures |m - {k}| == |m| - 1
  {
    assert m.Keys == (m - {k}).Keys + {k};
  }

  /** No entry of chain b is in two places. */
  ghost predicate Apart<K(!new), V>(chains: seq<seq<Entry<K, V>>>, b: nat)
    requires b < |chains|
  {
    (&& (forall i, j :: 0 <= i < j < |chains[b]| ==> chains[b][i] != chains[b][j])
     && forall c, i, j :: 0 <= c < |chains| && c != b && 0 <= i < |chains[b]| && 0 <= j < |chains[c]| ==>
          chains[b][i] != chains[c][j]) == true
  }

  ghost predicate LacksOne<K, V>(chain: seq<Entry<K, V>>, i: nat, rest: seq<Entry<K, V>>)
    requires i < |chain|
  {
    rest == chain[..i] + chain[i + 1..]
  }

  // ---------- the table ----------

  class Table<K(==, !new), V> {
    const buckets: array<Entry?<K, V>>
    const hash: K -> nat
    var nentries: nat
    ghost var chains: seq<seq<Entry<K, V>>>
    ghost var entries: set<Entry<K, V>>
    ghost var contents: map<K, V>

    /** All chains are linked from their buckets. */
    ghost predicate AllChained()
      reads this`chains, this`entries, buckets, entries
    {
      (&& |chains| == buckets.Length
       && (forall b, i :: 0 <= b < |chains| && 0 <= i < |chains[b]| ==> chains[b][i] in entries)
       && (forall b :: 0 <= b < |chains| ==> Chained(buckets[b], chains[b]))) == true
    }

    /** The buckets lead to the chains, the chains hold the map, and the counter is its size. */
    ghost predicate Valid()
      reads this, buckets, entries
    {
      && chains != [] && AllChained()
      && Filed(chains, contents, hash)
      && nentries == |contents|
    }

    constructor (nbuckets: nat, hash: K -> nat)
      requires nbuckets > 0
      ensures Valid() && contents == map[] && this.hash == hash && buckets.Length == nbuckets && fresh(buckets)
    {
      this.hash := hash;
      nentries := 0;
      buckets := new Entry?<K, V>[nbuckets](_ => null);
      chains := seq(nbuckets, _ => []);
      entries, contents := {}, map[];
    }

    /** The search along a chain that all three operations begin with: the entry with the key, the one
        before it, and its place. */
    method Search(key: K) returns (b: nat, prev: Entry?<K, V>, curr: Entry?<K, V>, ghost i: nat)
      requires Valid()
      ensures b == Bucket(hash, |chains|, key)
      ensures curr == null <==> key !in contents
      ensures curr != null ==> curr.key == key && i < |chains[b]| && curr == chains[b][i] && contents[key] == curr.data
      ensures curr != null ==> prev == if i > 0 then chains[b][i - 1] else null
    {
      b := hash(key) % buckets.Length;
      prev, curr, i := null, buckets[b], 0;
      ghost var chain := chains[b];
      assert Chained(buckets[b], chain) && ChainFiled(chain, b, contents, hash, |chains|);
      while curr != null && curr.key != key
        invariant 0 <= i <= |chain| && curr == (if i < |chain| then chain[i] else null)
        invariant prev == (if i > 0 then chain[i - 1] else null)
        invariant forall j :: 0 <= j < i ==> chain[j].key != key
        decreases |chain| - i
      {
        assert NextAt(chain, i);
        prev, curr, i := curr, curr.next, i + 1;
      }
      if curr == null { NotInKeys(chain, key); }
    }

    /** A key that is there lives once, in the chain of its hash modulo the number of buckets. */
    lemma {:induction false} LivesOnce(key: K) returns (i: nat)
      requires Valid() && key in contents
      ensures var b := hash(key) % |chains|;
        && i < |chains[b]| && chains[b][i].key == key
        && forall c, j :: 0 <= c < |chains| && 0 <= j < |chains[c]| && chains[c][j].key == key ==> c == b && j == i
    {
      var b := Bucket(hash, |chains|, key);
      assert ChainFiled(chains[b], b, contents, hash, |chains|);
      i :| 0 <= i < |chains[b]| && chains[b][i].key == key;
      forall c, j | 0 <= c < |chains| && 0 <= j < |chains[c]| && chains[c][j].key == key ensures c == b && j == i {
        assert ChainFiled(chains[c], c, contents, hash, |chains|);
        if j < i { NoDupAt(Keys(chains[b]), j, i); }
        if i < j { NoDupAt(Keys(chains[b]), i, j); }
      }
    }

    /** icl_hash_find. */
    method Find(key: K) returns (r: Option<V>)
      requires Valid()
      ensures r == if key in contents then Some(contents[key]) else None
    {
      var _, _, curr, _ := Search(key);
      r := if curr != null then Some(curr.data) else None;
    }

    /** icl_hash_insert: a key that is there already stays as it is. */
    method Insert(key: K, data: V) returns (ok: bool)
      requires Valid()
      modifies this, buckets
      ensures Valid() && ok == (key !in old(contents)) && fresh(entries - old(entries))
      ensures contents == if ok then old(contents)[key := data] else old(contents)
    {
      var b, missing := Misses(key);
      if !missing {
        return false;
      }
      AddFront(b, key, data);
      return true;
    }

    method Misses(key: K) returns (b: nat, missing: bool)
      requires Valid()
      ensures b == Bucket(hash, |chains|, key) && missing == (key !in contents)
    {
      var bucket, _, curr, _ := Search(key);
      b, missing := bucket, curr == null;
    }

    /** The new entry goes to the front of its chain. */
    method AddFront(b: nat, key: K, data: V)
      requires Valid() && b == Bucket(hash, |chains|, key) && key !in contents
      modifies this, buckets
      ensures Valid() && contents == old(contents)[key := data] && fresh(entries - old(entries))
    {
      OneMore(contents, key, data);
      ghost var curr := LinkFront(b, key, data);
      FiledAdd(old(chains), old(contents), hash, curr);
    }

    method LinkFront(b: nat, key: K, data: V) returns (ghost curr: Entry<K, V>)
      requires AllChained() && b < |chains|
      modifies this, buckets
      ensures AllChained() && chains == old(chains)[b := [curr] + old(chains)[b]] && fresh(entries - old(entries))
      ensures curr.key == key && curr.data == data
      ensures nentries == old(nentries) + 1 && contents == old(contents)[key := data]
    {
      ghost var chain := chains[b];
      assert Chained(buckets[b], chain);
      var node := new Entry(key, data, buckets[b]);
      curr := node;
      buckets[b] := node;
      nentries := nentries + 1;
      chains, contents := chains[b := [node] + chain], contents[key := data];
      entries := entries + {node};
      forall c | 0 <= c < |chains| ensures Chained(buckets[c], chains[c]) {
        assert old(Chained(buckets[c], chains[c]));
        if c == b {
          forall j | 0 <= j < |chain| + 1 ensures NextAt([node] + chain, j) {
            if j > 0 { assert ([node] + chain)[j] == chain[j - 1] && old(NextAt(chain, j - 1)); }
          }
        }
      }
    }

    /** icl_hash_delete: the entry is unlinked from its chain. */
    method Delete(key: K) returns (ok: bool)
      requires Valid()
      modifies this, buckets, entries
      ensures Valid() && ok == (key in old(contents)) && contents == old(contents) - {key} && entries == old(entries)
    {
      var b, prev, curr, i := Search(key);
      if curr == null {
        assert contents - {key} == contents;
        return false;
      }
      Unchain(b, prev, curr, i);
      ok := true;
    }

    method Unchain(b: nat, prev: Entry?<K, V>, curr: Entry<K, V>, ghost i: nat)
      requires Valid() && b < |chains| && i < |chains[b]| && curr == chains[b][i]
      requires prev == if i > 0 then chains[b][i - 1] else null
      modifies this, buckets, entries
      ensures Valid() && contents == old(contents) - {curr.key} && entries == old(entries)
    {
      ghost var rest := FiledWithout(b, i);
      Separate(b);
      LinkPast(b, prev, curr, i, rest);
    }

    /** The chain without entry number i, and that it may take the place of the whole one. */
    lemma FiledWithout(b: nat, i: nat) returns (rest: seq<Entry<K, V>>)
      requires Valid() && b < |chains| && i < |chains[b]|
      ensures LacksOne(chains[b], i, rest)
      ensures Filed(chains[b := rest], contents - {chains[b][i].key}, hash)
      ensures |contents - {chains[b][i].key}| == |contents| - 1
    {
      rest := chains[b][..i] + chains[b][i + 1..];
      FiledRemove(chains, contents, hash, b, i);
      OneLess(contents, chains[b][i].key);
    }

    /** The entry before it, or the bucket, is linked to the one behind it. */
    method LinkPast(b: nat, prev: Entry?<K, V>, curr: Entry<K, V>, ghost i: nat, ghost rest: seq<Entry<K, V>>)
      requires AllChained() && b < |chains| && i < |chains[b]| && curr == chains[b][i] && Apart(chains, b)
      requires LacksOne(chains[b], i, rest) && nentries > 0
      requires prev == if i > 0 then chains[b][i - 1] else null
      modifies this, buckets, entries
      ensures AllChained() && chains == old(chains)[b := rest] && entries == old(entries)
      ensures nentries == old(nentries) - 1 && contents == old(contents) - {curr.key}
    {
      ghost var chain := chains[b];
      assert Chained(buckets[b], chain) && NextAt(chain, i);
      if prev == null {
        buckets[b] := curr.next;
      } else {
        prev.next := curr.next;
      }
      nentries := nentries - 1;
      chains, contents := chains[b := rest], contents - {curr.key};
      forall j | 0 <= j < |rest| ensures NextAt(rest, j) {
        var o := if j < i then j else j + 1;
        assert rest[j] == chain[o] && old(NextAt(chain, o));
      }
      forall c | 0 <= c < |chains| ensures Chained(buckets[c], chains[c]) {
        assert old(Chained(buckets[c], chains[c]));
      }
    }

    lemma Separate(b: nat)
      requires Valid() && b < |chains|
      ensures Apart(chains, b)
    {
      assert ChainFiled(chains[b], b, contents, hash, |chains|);
      forall i, j | 0 <= i < j < |chains[b]| ensures chains[b][i] != chains[b][j] {
        NoDupAt(Keys(chains[b]), i, j);
      }
      forall c, i, j | 0 <= c < |chains| && c != b && 0 <= i < |chains[b]|
        && 0 <= j < |chains[c]| ensures chains[b][i] != chains[c][j] {
        assert ChainFiled(chains[c], c, contents, hash, |chains|);
      }
    }
  }
}
