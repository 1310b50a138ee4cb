/**
 * An insertion-ordered dictionary from names to values, as a Python `dict`
 * with string keys behaves: keys are listed in the order they were first
 * inserted, `d.get(k)` finds the value stored under `k`, and `d[k] = v`
 * overwrites in place or appends a new key at the end.
 */
module Catalog {
  import opened Wrappers

  /** One key/value pair of a catalog. */
  datatype Entry<V> = Entry(name: string, value: V)

  /** The keys in insertion order (`list(d.keys())`). */
  function Names<V>(c: seq<Entry<V>>): (r: seq<string>)
    ensures |r| == |c|
  {
    seq(|c|, i requires 0 <= i < |c| => c[i].name)
  }

  /** The keys of a non-empty catalog: its first key, then the keys of the rest. */
  lemma NamesCons<V>(c: seq<Entry<V>>)
    requires c != []
    ensures Names(c) == [c[0].name] + Names(c[1..])
  {
  }

  /** No string occurs twice in `s`. */
  predicate NoDuplicates(s: seq<string>)
  {
    forall i, j | 0 <= i < j < |s| :: s[i] != s[j]
  }

  /** A well-formed dictionary: every key occurs once. */
  predicate Distinct<V>(c: seq<Entry<V>>)
  {
    NoDuplicates(Names(c))
  }

  /** `d.get(name)`: the value stored under `name`, or None when it is not a key. */
  function Get<V>(c: seq<Entry<V>>, name: string): (r: Option<V>)
    ensures r.Some? <==> name in Names(c)
    ensures r.Some? ==> Entry(name, r.value) in c
  {
    if c == [] then None
    else
      NamesCons(c);
      if c[0].name == name then Some(c[0].value) else Get(c[1..], name)
  }

  /** Every stored pair's name is among the keys. */
  lemma StoredNameListed<V>(c: seq<Entry<V>>, e: Entry<V>)
    requires e in c
    ensures e.name in Names(c)
  {
    var i :| 0 <= i < |c| && c[i] == e;
    assert Names(c)[i] == e.name;
  }

  /** The rest of a well-formed dictionary is well-formed and does not repeat its first key. */
  lemma DistinctTail<V>(c: seq<Entry<V>>)
    requires c != [] && Distinct(c)
    ensures Distinct(c[1..]) && c[0].name !in Names(c[1..])
  {
    var rest := Names(c[1..]);
    forall i | 0 <= i < |rest| ensures rest[i] == Names(c)[i + 1] != c[0].name {
      assert Names(c)[0] == c[0].name;
    }
  }

  /** In a well-formed dictionary every stored pair is what `get` returns for its key. */
  lemma {:induction false} GetStored<V>(c: seq<Entry<V>>, e: Entry<V>)
    requires Distinct(c)
    requires e in c
    ensures Get(c, e.name) == Some(e.value)
  {
    if c[0] != e {
      assert e in c[1..];
      DistinctTail(c);
      StoredNameListed(c[1..], e);
      GetStored(c[1..], e);
    }
  }

  /** `d[name] = v`: overwrite the value in place when `name` is a key, append otherwise. */
  function Put<V>(c: seq<Entry<V>>, name: string, v: V): seq<Entry<V>>
  {
    if c == [] then [Entry(name, v)]
    else if c[0].name == name then [Entry(name, v)] + c[1..]
    else [c[0]] + Put(c[1..], name, v)
  }

  /** Storing under an existing key keeps the key order; a new key is listed last. */
  lemma {:induction false} PutNames<V>(c: seq<Entry<V>>, name: string, v: V)
    ensures Names(Put(c, name, v)) == if name in Names(c) then Names(c) else Names(c) + [name]
  {
    if c == [] {
      assert Names(Put(c, name, v)) == [name];
    } else if c[0].name == name {
      var r := Put(c, name, v);
      assert r[1..] == c[1..];
      NamesCons(c);
      NamesCons(r);
    } else {
      PutNames(c[1..], name, v);
      NamesCons(c);
      var r := [c[0]] + Put(c[1..], name, v);
      assert r[1..] == Put(c[1..], name, v);
      NamesCons(r);
    }
  }

  /** Storing under a new key appends exactly one pair and leaves the existing ones as they were. */
  lemma {:induction false} PutAppends<V>(c: seq<Entry<V>>, name: string, v: V)
    requires name !in Names(c)
    ensures Put(c, name, v) == c + [Entry(name, v)]
  {
    if c != [] {
      NamesCons(c);
      PutAppends(c[1..], name, v);
      assert c == [c[0]] + c[1..];
    }
  }

  /** After `d[name] = v`, `get` finds `v` under `name` and the old value under every other key. */
  lemma {:induction false} PutGet<V>(c: seq<Entry<V>>, name: string, v: V, k: string)
    ensures Get(Put(c, name, v), k) == if k == name then Some(v) else Get(c, k)
  {
    if c != [] && c[0].name != name {
      PutGet(c[1..], name, v, k);
      var r := [c[0]] + Put(c[1..], name, v);
      assert r[1..] == Put(c[1..], name, v);
    }
  }

  /** Storing under a key never creates a second entry for it. */
  lemma PutDistinct<V>(c: seq<Entry<V>>, name: string, v: V)
    requires Distinct(c)
    ensures Distinct(Put(c, name, v))
  {
    PutNames(c, name, v);
    if name !in Names(c) {
      AppendNoDuplicates(Names(c), name);
    }
  }

  lemma AppendNoDuplicates(s: seq<string>, x: string)
    requires NoDuplicates(s)
    requires x !in s
    ensures NoDuplicates(s + [x])
  {
    forall i, j | 0 <= i < j < |s| + 1 ensures (s + [x])[i] != (s + [x])[j] {
      if j == |s| {
        assert s[i] in s;
      }
    }
  }
}
