/** Nested configuration records (internal/agentcli/agentcli.go): reading and writing at a path. */
module NestedConfig {

  /** A configuration value; scalars are opaque. */
  datatype Value = Nil | Scalar(text: string) | Dict(entries: map<string, Value>)

  function Child(d: map<string, Value>, key: string): Value {
    if key in d then d[key] else Nil
  }

  /** The entries below a key; anything but a map counts as empty. */
  function Below(d: map<string, Value>, key: string): map<string, Value> {
    if Child(d, key).Dict? then Child(d, key).entries else map[]
  }

  function Get(v: Value, path: seq<string>): Value
    decreases |path|
  {
    if path == [] then v
    else if v.Dict? then Get(Child(v.entries, path[0]), path[1..])
    else Nil
  }

  function Set(d: map<string, Value>, path: seq<string>, v: Value): map<string, Value>
    requires path != []
    decreases |path|
  {
    if |path| == 1 then d[path[0] := v]
    else d[path[0] := Dict(Set(Below(d, path[0]), path[1..], v))]
  }

  /** Reading, without its recursion: the empty path reads the value itself, a longer path goes on from what
      a shorter one reads, and one key reads that entry of a record and nothing of anything else. */
  lemma {:induction false} GetMeans(v: Value, p: seq<string>, q: seq<string>, key: string)
    ensures Get(v, []) == v
    ensures Get(v, [key]) == if v.Dict? && key in v.entries then v.entries[key] else Nil
    ensures Get(v, p + q) == Get(Get(v, p), q)
    decreases |p|
  {
    assert [key][1..] == [];
    if p == [] {
      assert p + q == q;
    } else if v.Dict? {
      assert (p + q)[1..] == p[1..] + q;
      GetMeans(Child(v.entries, p[0]), p[1..], q, key);
    }
  }

  method GetNested(data: map<string, Value>, path: seq<string>) returns (cur: Value)
    ensures cur == Get(Dict(data), path)
  {
    cur := Dict(data);
    assert path[0..] == path;
    for i := 0 to |path|
      invariant Get(cur, path[i..]) == Get(Dict(data), path)
    {
      if !cur.Dict? {
        return Nil;
      }
      assert path[i..][1..] == path[i + 1..];
      cur := Child(cur.entries, path[i]);
    }
  }

  predicate Prefix(p: seq<string>, q: seq<string>) {
    |p| <= |q| && q[..|p|] == p
  }

  /** What every path reads after a write at `path`: along and below it the new value, above it the old
      record with the write done inside, and everywhere else what it read before, even when the write
      replaced a scalar on the way. */
  lemma {:induction false} ReadAfterSet(d: map<string, Value>, path: seq<string>, v: Value, q: seq<string>)
    requires path != []
    ensures q == path ==> Get(Dict(Set(d, path, v)), q) == v
    ensures Prefix(path, q) ==> Get(Dict(Set(d, path, v)), q) == Get(v, q[|path|..])
    ensures Prefix(q, path) && |q| < |path| ==>
      Get(Dict(Set(d, path, v)), q) ==
      Dict(Set(if Get(Dict(d), q).Dict? then Get(Dict(d), q).entries else map[], path[|q|..], v))
    ensures !Prefix(path, q) && !Prefix(q, path) ==> Get(Dict(Set(d, path, v)), q) == Get(Dict(d), q)
    decreases |path|
  {
    if q == [] {
      assert path[0..] == path;
    } else if q[0] == path[0] {
      assert Prefix(path, q) <==> Prefix(path[1..], q[1..]) by {
        PrefixTail(path, q);
      }
      assert Prefix(q, path) <==> Prefix(q[1..], path[1..]) by {
        PrefixTail(q, path);
      }
      if |path| > 1 {
        ReadAfterSet(Below(d, path[0]), path[1..], v, q[1..]);
        BelowReads(d, path[0], q[1..]);
        assert Prefix(path, q) ==> q[1..][|path| - 1..] == q[|path|..];
        assert Prefix(q, path) ==> path[1..][|q| - 1..] == path[|q|..];
      }
    }
  }

  lemma PrefixTail(p: seq<string>, q: seq<string>)
    requires p != [] && q != [] && p[0] == q[0]
    ensures Prefix(p, q) <==> Prefix(p[1..], q[1..])
  {
    if |p| <= |q| {
      assert q[..|p|] == [q[0]] + q[1..][..|p| - 1];
      assert p == [p[0]] + p[1..];
    }
  }

  /** Reading below a key sees no difference between a missing map and an empty one. */
  lemma BelowReads(d: map<string, Value>, key: string, q: seq<string>)
    ensures q != [] ==> Get(Dict(Below(d, key)), q) == Get(Child(d, key), q)
    ensures q == [] ==> Below(d, key) == if Child(d, key).Dict? then Child(d, key).entries else map[]
  {
    if q != [] && !Child(d, key).Dict? {
      assert Child(map[], q[0]) == Nil;
    }
  }

  /** A second write at the same path overwrites the first. */
  lemma {:induction false} SetTwice(d: map<string, Value>, path: seq<string>, v: Value, u: Value)
    requires path != []
    ensures Set(Set(d, path, v), path, u) == Set(d, path, u)
    decreases |path|
  {
    if |path| > 1 {
      SetTwice(Below(d, path[0]), path[1..], v, u);
    }
  }

  /** Writes at paths neither of which extends the other can be done in either order. */
  lemma {:induction false} SetsCommute(d: map<string, Value>, p: seq<string>, q: seq<string>, v: Value, u: Value)
    requires p != [] && q != [] && !Prefix(p, q) && !Prefix(q, p)
    ensures Set(Set(d, p, v), q, u) == Set(Set(d, q, u), p, v)
    decreases |p|
  {
    if p[0] == q[0] {
      PrefixTail(p, q);
      PrefixTail(q, p);
      SetsCommute(Below(d, p[0]), p[1..], q[1..], v, u);
      SetDescends(d, p, v);
      SetDescends(d, q, u);
    } else {
      SetsApart(d, p, q, v, u);
    }
  }

  lemma SetsApart(d: map<string, Value>, p: seq<string>, q: seq<string>, v: Value, u: Value)
    requires p != [] && q != [] && p[0] != q[0]
    ensures Set(Set(d, p, v), q, u) == Set(Set(d, q, u), p, v)
  {
    SetPlaces(d, p, v);
    SetPlaces(d, q, u);
    SetPlaces(Set(d, p, v), q, u);
    SetPlaces(Set(d, q, u), p, v);
    Swap(d, p[0], Placed(Below(d, p[0]), p, v), q[0], Placed(Below(d, q[0]), q, u));
  }

  /** What a write puts at the first key of its path. */
  function Placed(below: map<string, Value>, path: seq<string>, v: Value): Value
    requires path != []
  {
    if |path| == 1 then v else Dict(Set(below, path[1..], v))
  }

  lemma SetPlaces(d: map<string, Value>, path: seq<string>, v: Value)
    requires path != []
    ensures Set(d, path, v) == d[path[0] := Placed(Below(d, path[0]), path, v)]
  {
  }

  lemma Swap(d: map<string, Value>, j: string, v: Value, k: string, u: Value)
    requires j != k
    ensures d[j := v][k := u] == d[k := u][j := v]
    ensures Below(d[j := v], k) == Below(d, k) && Below(d[k := u], j) == Below(d, j)
  {
  }

  lemma SetDescends(d: map<string, Value>, path: seq<string>, v: Value)
    requires |path| > 1
    ensures Below(Set(d, path, v), path[0]) == Set(Below(d, path[0]), path[1..], v)
  {
  }

  // ---------------------------------------------------------------- in place

  /** An entry of a live record: a scalar, or another record. */
  datatype Item = Nothing | Plain(text: string) | Sub(record: Record)

  /** A record in memory; `tree` is the value it stands for, `repr` the records it reaches. No record
      is reached on two ways. */
  class Record {
    var entries: map<string, Item>
    ghost var tree: map<string, Value>
    ghost var repr: set<Record>

    ghost predicate Valid()
      reads this, repr
      decreases repr
    {
      && this in repr
      && tree.Keys == entries.Keys
      && (forall k :: k in entries ==> Holds(entries[k], tree[k]))
      && (forall j, k :: j in entries && k in entries && j != k && entries[j].Sub? && entries[k].Sub? ==>
            entries[j].record.repr !! entries[k].record.repr)
    }

    /** The item lies below this record and stands for `v`. */
    ghost predicate Holds(item: Item, v: Value)
      reads this, repr
      requires this in repr
      decreases repr, 0
    {
      match item
      case Nothing => v == Nil
      case Plain(text) => v == Scalar(text)
      case Sub(r) =>
        r in repr && this !in r.repr && r.repr < repr && r.Valid() && v == Dict(r.tree)
    }

    constructor ()
      ensures Valid() && fresh(repr) && tree == map[]
    {
      entries := map[];
      tree := map[];
      repr := {this};
    }

    /** Valid, but for what stands at `key`. */
    ghost predicate ValidBut(key: string)
      reads this, repr
    {
      && this in repr
      && tree.Keys == entries.Keys
      && (forall k :: k in entries && k != key ==> Holds(entries[k], tree[k]))
      && (forall j, k :: (j in entries && k in entries && j != k && j != key && k != key
            && entries[j].Sub? && entries[k].Sub?) ==> entries[j].record.repr !! entries[k].record.repr)
    }

    /** No other entry reaches what `r` reaches. */
    ghost predicate Apart(key: string, r: set<Record>)
      reads this, repr
    {
      forall k :: k in entries && k != key && entries[k].Sub? && entries[k].record in repr ==> entries[k].record.repr !! r
    }

    /** Puts an item that nothing else reaches at a key. */
    method Put(key: string, item: Item, ghost v: Value)
      requires ValidBut(key) && StandsFor(item, v) && this !in Reach(item) && Apart(key, Reach(item))
      modifies this
      ensures Valid() && repr == old(repr) + old(Reach(item))
      ensures tree == old(tree)[key := v]
    {
      entries := entries[key := item];
      tree := tree[key := v];
      repr := repr + Reach(item);
    }

    /** The record at a key, or a new one. */
    method Descend(key: string) returns (next: Record)
      requires Valid()
      ensures Valid() && next.Valid() && this !in next.repr && Apart(key, next.repr)
      ensures next.tree == Below(tree, key)
      ensures fresh(next.repr) || next.repr < repr
    {
      if key in entries && entries[key].Sub? {
        next := entries[key].record;
        assert Holds(entries[key], tree[key]);
      } else {
        next := new Record();
        assert key in entries ==> Holds(entries[key], tree[key]);
      }
    }

    /** Writing below `next` leaves the other entries alone. */
    method SetBelow(key: string, next: Record, path: seq<string>, item: Item, ghost v: Value)
      requires Valid() && next.Valid() && this !in next.repr && Apart(key, next.repr) && path != []
      requires StandsFor(item, v) && Reach(item) !! repr && Reach(item) !! next.repr
      modifies next.repr
      ensures ValidBut(key) && next.Valid() && this !in next.repr && Apart(key, next.repr) && unchanged(this)
      ensures next.tree == Set(old(next.tree), path, v) && fresh(next.repr - old(next.repr) - old(Reach(item)))
      decreases |path|, 1
    {
      ghost var below := next.repr;
      forall k | k in entries && k != key && entries[k].Sub?
        ensures entries[k].record.Valid() && entries[k].record.repr !! below && entries[k].record.repr <= repr
      {
        assert Holds(entries[k], tree[k]);
      }
      next.SetNested(path, item, v);
      forall k | k in entries && k != key && entries[k].Sub?
        ensures entries[k].record.Valid() && entries[k].record.repr !! next.repr
        ensures entries[k].record.repr == old(entries[k].record.repr)
      {
        assert entries[k].record !in below;
      }
    }

    /** Writes an item at a path, in place; missing records on the way are created. The item's own records
        are new to this one. */
    method SetNested(path: seq<string>, item: Item, ghost v: Value)
      requires Valid() && path != [] && StandsFor(item, v) && Reach(item) !! repr
      modifies repr
      ensures Valid() && fresh(repr - old(repr) - old(Reach(item)))
      ensures tree == Set(old(tree), path, v)
      decreases |path|, 0
    {
      var key := path[0];
      if |path| == 1 {
        OthersApart(key, Reach(item));
        Put(key, item, v);
        return;
      }
      var next := Descend(key);
      SetBelow(key, next, path[1..], item, v);
      Put(key, Sub(next), Dict(next.tree));
    }

    lemma OthersApart(key: string, r: set<Record>)
      requires Valid() && r !! repr
      ensures ValidBut(key) && Apart(key, r)
    {
      forall k | k in entries && entries[k].Sub? ensures entries[k].record.repr <= repr {
        assert Holds(entries[k], tree[k]);
      }
    }
  }

  /** The records an item reaches. */
  ghost function Reach(item: Item): set<Record>
    reads if item.Sub? then {item.record} else {}
  {
    if item.Sub? then item.record.repr else {}
  }

  /** The item stands for the value. */
  ghost predicate StandsFor(item: Item, v: Value)
    reads if item.Sub? then {item.record} + item.record.repr else {}
  {
    match item
    case Nothing => v == Nil
    case Plain(text) => v == Scalar(text)
    case Sub(r) => r.Valid() && v == Dict(r.tree)
  }
}
