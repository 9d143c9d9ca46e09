/** Count breakdowns: the `Record<string, number>` objects that the analytics
    builds with `acc[key] = (acc[key] || 0) + 1`, read back with
    `Object.entries` and ordered with `sort(([, a], [, b]) => b - a)`.
    A JavaScript object with non-numeric keys iterates in insertion order, so
    a breakdown is an association list in order of first occurrence. */
module Breakdown {
  import opened Seqs

  datatype Entry = Entry(key: string, count: nat)

  function Keys(es: seq<Entry>): (ks: seq<string>)
    ensures |ks| == |es|
    ensures forall i :: 0 <= i < |es| ==> ks[i] == es[i].key
  {
    seq(|es|, i requires 0 <= i < |es| => es[i].key)
  }

  /** `acc[key] || 0`: the count stored under `key`, or 0 when absent. */
  function Lookup(es: seq<Entry>, key: string): nat {
    if |es| == 0 then 0
    else if es[0].key == key then es[0].count
    else Lookup(es[1..], key)
  }

  /** The sum of all counts. */
  function Total(es: seq<Entry>): nat {
    if |es| == 0 then 0 else es[0].count + Total(es[1..])
  }

  /** `acc[key] = (acc[key] || 0) + 1`: a present key is incremented in place,
      a new key is appended with count 1. */
  function Bump(es: seq<Entry>, key: string): (r: seq<Entry>)
    ensures |es| <= |r| <= |es| + 1
    ensures forall i :: 0 <= i < |es| ==> r[i].key == es[i].key
  {
    if |es| == 0 then [Entry(key, 1)]
    else if es[0].key == key then [Entry(key, es[0].count + 1)] + es[1..]
    else [es[0]] + Bump(es[1..], key)
  }

  /** A bump keeps the keys in order and appends `key` when it is new. */
  lemma {:induction false} BumpKeys(es: seq<Entry>, key: string)
    ensures Keys(Bump(es, key)) == if key in Keys(es) then Keys(es) else Keys(es) + [key]
    ensures Total(Bump(es, key)) == Total(es) + 1
  {
    if |es| > 0 {
      assert es == [es[0]] + es[1..];
      KeysCons(es[0], es[1..]);
      if es[0].key == key {
        KeysCons(Entry(key, es[0].count + 1), es[1..]);
      } else {
        BumpKeys(es[1..], key);
        KeysCons(es[0], Bump(es[1..], key));
      }
    }
  }

  lemma KeysCons(e: Entry, rest: seq<Entry>)
    ensures Keys([e] + rest) == [e.key] + Keys(rest)
    ensures Total([e] + rest) == e.count + Total(rest)
  {
    assert ([e] + rest)[1..] == rest;
    var l, r := Keys([e] + rest), [e.key] + Keys(rest);
    forall i | 0 <= i < |l|
      ensures l[i] == r[i]
    {
      if i > 0 {
        assert ([e] + rest)[i] == rest[i - 1];
      }
    }
  }

  /** A bump adds one to the count of `key` and to no other count, and keeps
      every count positive. */
  lemma {:induction false} BumpCounts(es: seq<Entry>, key: string)
    ensures forall k :: Lookup(Bump(es, key), k) == Lookup(es, k) + (if k == key then 1 else 0)
    ensures (forall i :: 0 <= i < |es| ==> es[i].count > 0) ==>
              forall i :: 0 <= i < |Bump(es, key)| ==> Bump(es, key)[i].count > 0
  {
    if |es| > 0 && es[0].key != key {
      BumpCounts(es[1..], key);
      assert Bump(es, key)[1..] == Bump(es[1..], key);
    }
  }

  /** The breakdown of `keys` built by a left-to-right `reduce`. */
  function Tally(keys: seq<string>): (t: seq<Entry>)
    ensures |t| <= |keys|
    ensures |keys| > 0 ==> |t| > 0
  {
    if |keys| == 0 then []
    else Bump(Tally(keys[..|keys| - 1]), keys[|keys| - 1])
  }

  /** A tally holds each distinct key once, in order of first occurrence,
      with the number of times it occurs; the counts are positive and add up
      to the number of keys. */
  lemma {:induction false} TallyFacts(keys: seq<string>)
    ensures Keys(Tally(keys)) == Dedup(keys)
    ensures forall k :: Lookup(Tally(keys), k) == multiset(keys)[k]
    ensures Total(Tally(keys)) == |keys|
    ensures forall i :: 0 <= i < |Tally(keys)| ==> Tally(keys)[i].count > 0
  {
    if |keys| > 0 {
      var pre := keys[..|keys| - 1];
      var x := keys[|keys| - 1];
      assert keys == pre + [x];
      TallyFacts(pre);
      BumpCounts(Tally(pre), x);
      BumpKeys(Tally(pre), x);
    }
  }

  /** With distinct keys, `Lookup` finds each entry's own count. */
  lemma {:induction false} LookupEntry(es: seq<Entry>, i: nat)
    requires Distinct(Keys(es)) && i < |es|
    ensures Lookup(es, es[i].key) == es[i].count
  {
    if i > 0 {
      assert Keys(es)[0] != Keys(es)[i];
      assert Keys(es[1..]) == Keys(es)[1..];
      LookupEntry(es[1..], i - 1);
    }
  }

  /** The entries of `es` whose count is `c`, in order. */
  function WithCount(es: seq<Entry>, c: nat): seq<Entry> {
    if |es| == 0 then []
    else (if es[0].count == c then [es[0]] else []) + WithCount(es[1..], c)
  }

  predicate SortedDesc(es: seq<Entry>) {
    forall i, j :: 0 <= i < j < |es| ==> es[i].count >= es[j].count
  }

  /** Inserts `e` before the first entry whose count does not exceed its own. */
  function Insert(e: Entry, s: seq<Entry>): (r: seq<Entry>)
    ensures multiset(r) == multiset(s) + multiset{e}
  {
    if |s| == 0 || s[0].count <= e.count then [e] + s
    else
      assert s == [s[0]] + s[1..];
      [s[0]] + Insert(e, s[1..])
  }

  /** Insertion passes over strictly larger counts only, so `e` lands in front
      of every entry that shares its count. */
  lemma {:induction false} InsertKeepsGroups(e: Entry, s: seq<Entry>, c: nat)
    ensures WithCount(Insert(e, s), c) == if e.count == c then [e] + WithCount(s, c) else WithCount(s, c)
  {
    if |s| == 0 || s[0].count <= e.count {
      assert ([e] + s)[1..] == s;
    } else {
      var rest := Insert(e, s[1..]);
      assert ([s[0]] + rest)[1..] == rest;
      InsertKeepsGroups(e, s[1..], c);
    }
  }

  lemma {:induction false} InsertKeepsSorted(e: Entry, s: seq<Entry>)
    requires SortedDesc(s)
    ensures SortedDesc(Insert(e, s))
  {
    if |s| > 0 && s[0].count > e.count {
      var rest := Insert(e, s[1..]);
      InsertKeepsSorted(e, s[1..]);
      assert forall i :: 0 <= i < |s| - 1 ==> s[1..][i] == s[i + 1];
      InsertBelow(e, s[1..], s[0].count);
      var r := [s[0]] + rest;
      forall i, j | 0 <= i < j < |r|
        ensures r[i].count >= r[j].count
      {
        assert r[j] == rest[j - 1];
        if i > 0 {
          assert r[i] == rest[i - 1];
        }
      }
    }
  }

  /** Inserting below a bound stays below it. */
  lemma {:induction false} InsertBelow(e: Entry, s: seq<Entry>, b: nat)
    requires e.count <= b && forall i :: 0 <= i < |s| ==> s[i].count <= b
    ensures forall i :: 0 <= i < |Insert(e, s)| ==> Insert(e, s)[i].count <= b
  {
    if |s| > 0 && s[0].count > e.count {
      InsertBelow(e, s[1..], b);
      var r := Insert(e, s);
      assert r == [s[0]] + Insert(e, s[1..]);
      assert forall i :: 1 <= i < |r| ==> r[i] == Insert(e, s[1..])[i - 1];
    }
  }

  /** Stable sort by descending count (`Array.prototype.sort` is stable). */
  function SortByCount(es: seq<Entry>): (r: seq<Entry>)
    ensures SortedDesc(r)
    ensures multiset(r) == multiset(es)
    ensures forall c :: WithCount(r, c) == WithCount(es, c)
  {
    if |es| == 0 then []
    else
      var sorted := SortByCount(es[1..]);
      assert es == [es[0]] + es[1..];
      InsertKeepsSorted(es[0], sorted);
      assert forall c :: WithCount(Insert(es[0], sorted), c) == WithCount(es, c) by {
        forall c ensures WithCount(Insert(es[0], sorted), c) == WithCount(es, c) {
          InsertKeepsGroups(es[0], sorted, c);
        }
      }
      Insert(es[0], sorted)
  }

  lemma {:induction false} WithCountMembers(es: seq<Entry>, c: nat)
    ensures forall x :: x in WithCount(es, c) <==> x in es && x.count == c
  {
    if |es| > 0 {
      WithCountMembers(es[1..], c);
      assert es == [es[0]] + es[1..];
    }
  }

  /** A descending, group-preserving order is unique: any stable sort by
      descending count of the same entries yields exactly `SortByCount`. */
  lemma {:induction false} StableSortUnique(a: seq<Entry>, b: seq<Entry>)
    requires SortedDesc(a) && SortedDesc(b)
    requires forall c :: WithCount(a, c) == WithCount(b, c)
    ensures a == b
  {
    if |a| > 0 {
      WithCountMembers(a, a[0].count);
      WithCountMembers(b, a[0].count);
      assert a[0] in WithCount(b, a[0].count);
    }
    if |b| > 0 {
      WithCountMembers(a, b[0].count);
      WithCountMembers(b, b[0].count);
      assert b[0] in WithCount(a, b[0].count);
    }
    if |a| > 0 {
      var m := a[0].count;
      assert b[0].count == m;
      assert WithCount(a, m)[0] == a[0];
      assert WithCount(b, m)[0] == b[0];
      forall c ensures WithCount(a[1..], c) == WithCount(b[1..], c) {
        assert WithCount(a, c) == (if m == c then [a[0]] else []) + WithCount(a[1..], c);
        assert WithCount(b, c) == (if m == c then [b[0]] else []) + WithCount(b[1..], c);
        assert WithCount(a, c) == WithCount(b, c);
        if m == c {
          assert ([a[0]] + WithCount(a[1..], c))[1..] == WithCount(a[1..], c);
          assert ([b[0]] + WithCount(b[1..], c))[1..] == WithCount(b[1..], c);
        } else {
          assert [] + WithCount(a[1..], c) == WithCount(a[1..], c);
          assert [] + WithCount(b[1..], c) == WithCount(b[1..], c);
        }
      }
      StableSortUnique(a[1..], b[1..]);
      assert a == [a[0]] + a[1..] && b == [b[0]] + b[1..];
    }
  }
}
