/**
 * The `Record<string, { input: number; output: number }>` dictionaries
 * that `getTokenStats` fills, as insertion-ordered lists of buckets (the
 * order `Object.entries` lists string keys in).
 */
module Buckets {

  datatype Bucket = Bucket(key: string, input: int, output: int)

  predicate HasKey(bs: seq<Bucket>, k: string) {
    exists i :: 0 <= i < |bs| && bs[i].key == k
  }

  /** No key is listed twice. */
  predicate UniqueKeys(bs: seq<Bucket>) {
    forall i, j :: 0 <= i < j < |bs| ==> bs[i].key != bs[j].key
  }

  function SumIn(bs: seq<Bucket>): int {
    if bs == [] then 0 else bs[0].input + SumIn(bs[1..])
  }

  function SumOut(bs: seq<Bucket>): int {
    if bs == [] then 0 else bs[0].output + SumOut(bs[1..])
  }

  /** `if (!d[k]) d[k] = { input: 0, output: 0 }` on a dictionary with no inherited keys. */
  function Ensure(bs: seq<Bucket>, k: string): (r: seq<Bucket>)
    ensures |r| >= |bs| && r[..|bs|] == bs
  {
    if HasKey(bs, k) then bs else bs + [Bucket(k, 0, 0)]
  }

  /** After `Ensure` the key has a bucket, no other key gained one, and the sums are unchanged. */
  lemma EnsureFacts(bs: seq<Bucket>, k: string)
    ensures HasKey(Ensure(bs, k), k)
    ensures forall x :: HasKey(Ensure(bs, k), x) <==> HasKey(bs, x) || x == k
    ensures UniqueKeys(bs) ==> UniqueKeys(Ensure(bs, k))
    ensures SumIn(Ensure(bs, k)) == SumIn(bs) && SumOut(Ensure(bs, k)) == SumOut(bs)
  {
    if !HasKey(bs, k) {
      var r := bs + [Bucket(k, 0, 0)];
      SumsAppend(bs, [Bucket(k, 0, 0)]);
      assert r[|bs|].key == k;
      forall x | HasKey(bs, x) ensures HasKey(r, x) {
        var i :| 0 <= i < |bs| && bs[i].key == x;
        assert r[i].key == x;
      }
    }
  }

  /**
   * `d[k].input += i; d[k].output += o`: adds to the bucket under `k`;
   * the list is unchanged when there is none.
   */
  function Credit(bs: seq<Bucket>, k: string, i: int, o: int): (r: seq<Bucket>)
    ensures |r| == |bs|
    ensures forall n :: 0 <= n < |bs| ==> r[n].key == bs[n].key
    ensures forall n :: 0 <= n < |bs| && bs[n].key != k ==> r[n] == bs[n]
  {
    if bs == [] then []
    else if bs[0].key == k then [Bucket(k, bs[0].input + i, bs[0].output + o)] + Credit(bs[1..], k, i, o)
    else [bs[0]] + Credit(bs[1..], k, i, o)
  }

  /** Crediting keeps the keys; crediting a key listed once adds exactly `i` and `o` to the sums. */
  lemma CreditFacts(bs: seq<Bucket>, k: string, i: int, o: int)
    ensures forall x :: HasKey(Credit(bs, k, i, o), x) <==> HasKey(bs, x)
    ensures UniqueKeys(bs) ==> UniqueKeys(Credit(bs, k, i, o))
    ensures UniqueKeys(bs) && HasKey(bs, k) ==>
      SumIn(Credit(bs, k, i, o)) == SumIn(bs) + i && SumOut(Credit(bs, k, i, o)) == SumOut(bs) + o
  {
    HasKeyKept(bs, Credit(bs, k, i, o));
    if UniqueKeys(bs) && HasKey(bs, k) {
      CreditSums(bs, k, i, o);
    }
  }

  lemma {:induction false} CreditSums(bs: seq<Bucket>, k: string, i: int, o: int)
    requires UniqueKeys(bs) && HasKey(bs, k)
    ensures SumIn(Credit(bs, k, i, o)) == SumIn(bs) + i
    ensures SumOut(Credit(bs, k, i, o)) == SumOut(bs) + o
  {
    if bs[0].key != k {
      assert HasKey(bs[1..], k) by {
        var n :| 0 <= n < |bs| && bs[n].key == k;
        assert bs[1..][n - 1].key == k;
      }
      CreditSums(bs[1..], k, i, o);
    } else {
      assert !HasKey(bs[1..], k);
      CreditAbsent(bs[1..], k, i, o);
    }
  }

  lemma CreditAbsent(bs: seq<Bucket>, k: string, i: int, o: int)
    requires !HasKey(bs, k)
    ensures Credit(bs, k, i, o) == bs
  {
    assert forall n :: 0 <= n < |bs| ==> bs[n].key != k;
  }

  /** `if (!d[k]) d[k] = { input: 0, output: 0 }; d[k].input += i; d[k].output += o;` */
  function Add(bs: seq<Bucket>, k: string, i: int, o: int): seq<Bucket> {
    Credit(Ensure(bs, k), k, i, o)
  }

  /** Adding gives `k` a bucket, keeps keys unique and adds exactly `i` and `o` to the sums. */
  lemma AddFacts(bs: seq<Bucket>, k: string, i: int, o: int)
    ensures HasKey(Add(bs, k, i, o), k)
    ensures forall x :: HasKey(Add(bs, k, i, o), x) <==> HasKey(bs, x) || x == k
    ensures UniqueKeys(bs) ==> UniqueKeys(Add(bs, k, i, o))
    ensures UniqueKeys(bs) ==> SumIn(Add(bs, k, i, o)) == SumIn(bs) + i && SumOut(Add(bs, k, i, o)) == SumOut(bs) + o
  {
    EnsureFacts(bs, k);
    CreditFacts(Ensure(bs, k), k, i, o);
  }

  lemma HasKeyKept(bs: seq<Bucket>, r: seq<Bucket>)
    requires |r| == |bs| && forall n :: 0 <= n < |bs| ==> r[n].key == bs[n].key
    ensures forall x :: HasKey(r, x) <==> HasKey(bs, x)
  {
    forall x ensures HasKey(r, x) <==> HasKey(bs, x) {
      if HasKey(r, x) {
        var n :| 0 <= n < |r| && r[n].key == x;
        assert bs[n].key == x;
      }
      if HasKey(bs, x) {
        var n :| 0 <= n < |bs| && bs[n].key == x;
        assert r[n].key == x;
      }
    }
  }

  lemma {:induction false} SumsAppend(a: seq<Bucket>, b: seq<Bucket>)
    ensures SumIn(a + b) == SumIn(a) + SumIn(b)
    ensures SumOut(a + b) == SumOut(a) + SumOut(b)
  {
    if a != [] {
      assert (a + b)[1..] == a[1..] + b;
      SumsAppend(a[1..], b);
    } else {
      assert a + b == b;
    }
  }

  /** Taking out the bucket at `j`. */
  lemma RemoveAt(b: seq<Bucket>, j: int)
    requires 0 <= j < |b|
    ensures SumIn(b) == b[j].input + SumIn(b[..j] + b[j + 1..])
    ensures SumOut(b) == b[j].output + SumOut(b[..j] + b[j + 1..])
    ensures multiset(b[..j] + b[j + 1..]) == multiset(b) - multiset{b[j]}
  {
    SumsRemoveAt(b, j);
    MultisetRemoveAt(b, j);
  }

  lemma {:induction false} SumsRemoveAt(b: seq<Bucket>, j: int)
    requires 0 <= j < |b|
    ensures SumIn(b) == b[j].input + SumIn(b[..j] + b[j + 1..])
    ensures SumOut(b) == b[j].output + SumOut(b[..j] + b[j + 1..])
  {
    if j == 0 {
      assert b[..j] + b[j + 1..] == b[1..];
    } else {
      SumsRemoveAt(b[1..], j - 1);
      var rest := b[1..][..j - 1] + b[1..][j..];
      assert b[..j] + b[j + 1..] == [b[0]] + rest;
      assert ([b[0]] + rest)[1..] == rest;
    }
  }

  lemma MultisetRemoveAt(b: seq<Bucket>, j: int)
    requires 0 <= j < |b|
    ensures multiset(b[..j] + b[j + 1..]) == multiset(b) - multiset{b[j]}
  {
    assert b == b[..j] + [b[j]] + b[j + 1..];
  }

  /** Reordering buckets does not change their sums. */
  lemma {:induction false} SumsPermutation(a: seq<Bucket>, b: seq<Bucket>)
    requires multiset(a) == multiset(b)
    ensures SumIn(a) == SumIn(b) && SumOut(a) == SumOut(b)
    decreases |a|
  {
    if a != [] {
      var j := IndexOf(b, a[0]);
      RemoveAt(b, j);
      MultisetRemoveAt(a, 0);
      assert a[..0] + a[1..] == a[1..];
      SumsPermutation(a[1..], b[..j] + b[j + 1..]);
    }
  }

  /** A position of `x` in `b`, given that it occurs there. */
  lemma IndexOf(b: seq<Bucket>, x: Bucket) returns (j: int)
    requires x in multiset(b)
    ensures 0 <= j < |b| && b[j] == x
  {
    assert x in b;
    j :| 0 <= j < |b| && b[j] == x;
  }

  /** With unique keys, no bucket occurs twice. */
  lemma {:induction false} UniqueKeysOccurOnce(bs: seq<Bucket>, x: Bucket)
    requires UniqueKeys(bs)
    ensures multiset(bs)[x] <= 1
  {
    if bs != [] {
      var init := bs[..|bs| - 1];
      assert bs == init + [bs[|bs| - 1]];
      UniqueKeysOccurOnce(init, x);
    }
  }

  /** Reordering a list with unique keys keeps its keys unique. */
  lemma PermutationKeepsUniqueKeys(a: seq<Bucket>, b: seq<Bucket>)
    requires multiset(a) == multiset(b) && UniqueKeys(b)
    ensures UniqueKeys(a)
  {
    forall i, j | 0 <= i < j < |a| ensures a[i].key != a[j].key {
      if a[i].key == a[j].key {
        assert a[i] in multiset(b) && a[j] in multiset(b);
        var p :| 0 <= p < |b| && b[p] == a[i];
        var q :| 0 <= q < |b| && b[q] == a[j];
        if p == q {
          assert a == a[..j] + [a[j]] + a[j + 1..];
          assert a[i] in a[..j];
          assert multiset(a)[a[j]] >= 2;
          UniqueKeysOccurOnce(b, a[j]);
        }
      }
    }
  }
}
