// What equal canonical prints mean: exactly equality up to the order in which object keys were inserted,
// provided the key comparison tells distinct keys apart.
module CanonicalJsonOrder {
  import opened CanonicalJson
  import opened CanonicalJsonParser

  // ---- The reference: equality of JSON values that ignores member order, `undefined` counting as null

  ghost predicate UniqueKeys(v: Json)
    decreases v
  {
    match v
    case Arr(items) => forall i :: 0 <= i < |items| ==> UniqueKeys(items[i])
    case Obj(members) =>
      && (forall i, j :: 0 <= i < j < |members| ==> members[i].key != members[j].key)
      && (forall i :: 0 <= i < |members| ==> UniqueKeys(members[i].item))
    case _ => true
  }

  ghost predicate Same(a: Json, b: Json)
    decreases a
  {
    match a
    case Undefined => b.Undefined? || b.Null?
    case Null => b.Undefined? || b.Null?
    case Arr(items) =>
      b.Arr? && |items| == |b.items| && forall i :: 0 <= i < |items| ==> Same(items[i], b.items[i])
    case Obj(members) =>
      && b.Obj? && |members| == |b.members|
      && forall i :: 0 <= i < |members| ==> HasSame(members[i], b.members)
    case _ => b == a
  }

  ghost predicate HasSame(m: Member, ns: seq<Member>)
    decreases m
  {
    exists j :: 0 <= j < |ns| && ns[j].key == m.key && Same(m.item, ns[j].item)
  }

  // ---- The comparison

  ghost predicate Antisymmetric(cmp: Compare) { forall a, b :: cmp(a, b) < 0 <==> cmp(b, a) > 0 }

  ghost predicate Transitive(cmp: Compare) { forall a, b, c :: cmp(a, b) <= 0 && cmp(b, c) <= 0 ==> cmp(a, c) <= 0 }

  ghost predicate Consistent(cmp: Compare) { Antisymmetric(cmp) && Transitive(cmp) }

  // No two distinct keys compare equal.
  ghost predicate NoTies(cmp: Compare) { forall a, b :: a != b ==> cmp(a, b) != 0 }

  // ---- Sorting

  predicate Ordered(cmp: Compare, ms: seq<Member>) {
    forall i, j :: 0 <= i < j < |ms| ==> cmp(ms[i].key, ms[j].key) <= 0
  }

  ghost predicate AllAtMost(cmp: Compare, ms: seq<Member>, k: Text) {
    forall m :: m in ms ==> cmp(m.key, k) <= 0
  }

  lemma AppendKeepsOrder(cmp: Compare, ms: seq<Member>, m: Member)
    requires Ordered(cmp, ms) && AllAtMost(cmp, ms, m.key)
    ensures Ordered(cmp, ms + [m])
  {
  }

  lemma LastIsLargest(cmp: Compare, ms: seq<Member>, k: Text)
    requires Consistent(cmp) && Ordered(cmp, ms) && ms != [] && cmp(ms[|ms| - 1].key, k) <= 0
    ensures AllAtMost(cmp, ms, k)
  {
    forall m | m in ms ensures cmp(m.key, k) <= 0 {
      var i :| 0 <= i < |ms| && ms[i] == m;
      assert i < |ms| - 1 ==> cmp(m.key, ms[|ms| - 1].key) <= 0;
    }
  }

  lemma {:induction false} InsertKeepsOrder(cmp: Compare, sorted: seq<Member>, m: Member)
    requires Consistent(cmp) && Ordered(cmp, sorted)
    ensures Ordered(cmp, Insert(cmp, sorted, m))
  {
    if sorted != [] {
      var front, last := sorted[..|sorted| - 1], sorted[|sorted| - 1];
      if cmp(m.key, last.key) >= 0 {
        LastIsLargest(cmp, sorted, m.key);
        AppendKeepsOrder(cmp, sorted, m);
      } else {
        InsertKeepsOrder(cmp, front, m);
        var f := Insert(cmp, front, m);
        forall x | x in f ensures cmp(x.key, last.key) <= 0 {
          assert x in multiset(f);
          if x != m {
            var k :| 0 <= k < |front| && front[k] == x;
            assert cmp(sorted[k].key, sorted[|sorted| - 1].key) <= 0;
          }
        }
        AppendKeepsOrder(cmp, f, last);
      }
    }
  }

  lemma {:induction false} SortOrders(cmp: Compare, ms: seq<Member>)
    requires Consistent(cmp)
    ensures Ordered(cmp, Sort(cmp, ms))
  {
    if ms != [] {
      SortOrders(cmp, ms[..|ms| - 1]);
      InsertKeepsOrder(cmp, Sort(cmp, ms[..|ms| - 1]), ms[|ms| - 1]);
    }
  }

  predicate DistinctKeys(ms: seq<Member>) {
    forall i, j :: 0 <= i < j < |ms| ==> ms[i].key != ms[j].key
  }

  lemma SortKeepsKeysDistinct(cmp: Compare, ms: seq<Member>)
    requires DistinctKeys(ms)
    ensures DistinctKeys(Sort(cmp, ms))
  {
    PermutationKeepsKeysDistinct(ms, Sort(cmp, ms));
  }

  lemma PermutationKeepsKeysDistinct(a: seq<Member>, b: seq<Member>)
    requires multiset(a) == multiset(b) && DistinctKeys(a)
    ensures DistinctKeys(b)
  {
    forall i, j | 0 <= i < j < |b| ensures b[i].key != b[j].key {
      assert b[i] in multiset(a) && b[j] in multiset(a);
      var k :| 0 <= k < |a| && a[k] == b[i];
      var l :| 0 <= l < |a| && a[l] == b[j];
      if k == l {
        OccursOnce(a, k);
        OccursTwice(b, i, j);
        assert false;
      }
    }
  }

  lemma OccursOnce(a: seq<Member>, k: nat)
    requires DistinctKeys(a) && k < |a|
    ensures multiset(a)[a[k]] == 1
  {
    assert a == a[..k] + [a[k]] + a[k + 1..];
    assert a[k] !in a[..k] && a[k] !in a[k + 1..];
  }

  lemma OccursTwice(b: seq<Member>, i: nat, j: nat)
    requires i < j < |b| && b[i] == b[j]
    ensures multiset(b)[b[i]] >= 2
  {
    assert b == b[..j] + [b[j]] + b[j + 1..];
    assert b[..j][i] == b[i] && b[i] in b[..j];
  }

  // ---- Prints agree exactly on values that are the same up to key order

  function Keys(ms: seq<Member>): (r: seq<Text>)
    ensures |r| == |ms| && forall i :: 0 <= i < |r| ==> r[i] == ms[i].key
  {
    seq(|ms|, i requires 0 <= i < |ms| => ms[i].key)
  }

  predicate StrictlyOrdered(cmp: Compare, ks: seq<Text>) {
    forall i, j :: 0 <= i < j < |ks| ==> cmp(ks[i], ks[j]) < 0
  }

  lemma FirstIsLeast(cmp: Compare, a: seq<Text>, k: Text)
    requires StrictlyOrdered(cmp, a) && k in a
    ensures k == a[0] || cmp(a[0], k) < 0
  {
    var i :| 0 <= i < |a| && a[i] == k;
    assert i > 0 ==> cmp(a[0], a[i]) < 0;
  }

  lemma FirstsAgree(cmp: Compare, a: seq<Text>, b: seq<Text>)
    requires Antisymmetric(cmp) && StrictlyOrdered(cmp, a) && StrictlyOrdered(cmp, b) && a != [] && b != []
    requires a[0] in b && b[0] in a
    ensures a[0] == b[0]
  {
    FirstIsLeast(cmp, a, b[0]);
    FirstIsLeast(cmp, b, a[0]);
  }

  lemma RestWithin(cmp: Compare, a: seq<Text>, b: seq<Text>, k: Text)
    requires Antisymmetric(cmp) && StrictlyOrdered(cmp, a) && a != [] && b != [] && a[0] == b[0]
    requires k in a[1..] && k in b
    ensures k in b[1..]
  {
    var i :| 0 <= i < |a| - 1 && a[1..][i] == k;
    assert cmp(a[0], a[i + 1]) < 0 && a[i + 1] == k;
    assert cmp(k, k) == 0;
    var j :| 0 <= j < |b| && b[j] == k;
    assert j > 0;
    assert b[1..][j - 1] == k;
  }

  // Two strictly ordered sequences with the same elements are the same.
  lemma {:induction false} OrderedKeysAgree(cmp: Compare, a: seq<Text>, b: seq<Text>)
    requires Antisymmetric(cmp) && StrictlyOrdered(cmp, a) && StrictlyOrdered(cmp, b) && |a| == |b|
    requires (forall k :: k in a ==> k in b) && (forall k :: k in b ==> k in a)
    ensures a == b
  {
    if a != [] {
      var x, y := a[1..], b[1..];
      assert a[0] in b && b[0] in a;
      FirstsAgree(cmp, a, b);
      forall k | k in x ensures k in y { RestWithin(cmp, a, b, k); }
      forall k | k in y ensures k in x { RestWithin(cmp, b, a, k); }
      OrderedKeysAgree(cmp, x, y);
      FromFirstAndRest(a, b);
    }
  }

  lemma FromFirstAndRest(a: seq<Text>, b: seq<Text>)
    requires a != [] && b != [] && a[0] == b[0] && a[1..] == b[1..]
    ensures a == b
  {
    assert a == [a[0]] + a[1..] && b == [b[0]] + b[1..];
  }

  lemma SortedKeysStrict(cmp: Compare, ms: seq<Member>)
    requires Consistent(cmp) && NoTies(cmp) && DistinctKeys(ms)
    ensures StrictlyOrdered(cmp, Keys(Sort(cmp, ms)))
  {
    SortOrders(cmp, ms);
    SortKeepsKeysDistinct(cmp, ms);
  }

  predicate HasKey(ms: seq<Member>, k: Text) { exists i :: 0 <= i < |ms| && ms[i].key == k }

  lemma KeysOf(ms: seq<Member>, k: Text)
    ensures k in Keys(ms) <==> HasKey(ms, k)
  {
    if HasKey(ms, k) {
      var i :| 0 <= i < |ms| && ms[i].key == k;
      assert Keys(ms)[i] == k;
    }
  }

  lemma SameElementsSameKeys(a: seq<Member>, b: seq<Member>, k: Text)
    requires (forall m :: m in a ==> m in b) && HasKey(a, k)
    ensures HasKey(b, k)
  {
    var i :| 0 <= i < |a| && a[i].key == k;
    assert a[i] in b;
    var j :| 0 <= j < |b| && b[j] == a[i];
  }

  lemma SortedKeysOf(cmp: Compare, ms: seq<Member>, k: Text)
    ensures k in Keys(Sort(cmp, ms)) <==> HasKey(ms, k)
  {
    var e := Sort(cmp, ms);
    KeysOf(e, k);
    if HasKey(e, k) { SameElementsSameKeys(e, ms, k); }
    if HasKey(ms, k) { SameElementsSameKeys(ms, e, k); }
  }

  // The matching of two objects' members by key goes both ways.
  lemma MatchedBack(ms: seq<Member>, ns: seq<Member>, k: nat)
    requires |ms| == |ns| && DistinctKeys(ms) && DistinctKeys(ns) && k < |ns|
    requires forall i :: 0 <= i < |ms| ==> exists j :: 0 <= j < |ns| && ns[j].key == ms[i].key
    ensures exists i :: 0 <= i < |ms| && ms[i].key == ns[k].key
  {
    var mKeys, nKeys := set i | 0 <= i < |ms| :: ms[i].key, set j | 0 <= j < |ns| :: ns[j].key;
    KeyCount(ms);
    KeyCount(ns);
    assert mKeys <= nKeys;
    SubsetOfEqualSize(mKeys, nKeys);
    assert ns[k].key in mKeys;
  }

  lemma {:induction false} KeyCount(ms: seq<Member>)
    requires DistinctKeys(ms)
    ensures |set i | 0 <= i < |ms| :: ms[i].key| == |ms|
  {
    var all := set i | 0 <= i < |ms| :: ms[i].key;
    if ms == [] {
      assert all == {};
    } else {
      var front := ms[..|ms| - 1];
      KeyCount(front);
      var fewer := set i | 0 <= i < |front| :: front[i].key;
      assert all == fewer + {ms[|ms| - 1].key} by {
        forall k | k in all ensures k in fewer + {ms[|ms| - 1].key} {
          var i :| 0 <= i < |ms| && ms[i].key == k;
          if i < |front| { assert front[i].key == k; }
        }
        forall k | k in fewer ensures k in all {
          var i :| 0 <= i < |front| && front[i].key == k;
          assert ms[i].key == k;
        }
      }
      assert ms[|ms| - 1].key !in fewer;
    }
  }

  lemma SubsetOfEqualSize<T>(a: set<T>, b: set<T>)
    requires a <= b && |a| == |b|
    ensures a == b
  {
    assert |b - a| == 0;
  }

  lemma {:induction false} SameNormal(cmp: Compare, a: Json, b: Json)
    requires Consistent(cmp) && NoTies(cmp) && UniqueKeys(a) && UniqueKeys(b) && Same(a, b)
    ensures Normal(cmp, a) == Normal(cmp, b)
    decreases a
  {
    if a.Arr? {
      forall i | 0 <= i < |a.items| ensures Normal(cmp, a.items[i]) == Normal(cmp, b.items[i]) {
        SameNormal(cmp, a.items[i], b.items[i]);
      }
    } else if a.Obj? {
      var e, f := Sort(cmp, a.members), Sort(cmp, b.members);
      SameKeyOrder(cmp, a.members, b.members);
      forall i | 0 <= i < |e| ensures AgreeAt(cmp, e[i], f[i]) {
        assert Keys(e)[i] == Keys(f)[i];
        assert e[i] in a.members && f[i] in b.members;
        MatchedMember(a.members, b.members, e[i], f[i]);
        SameNormal(cmp, e[i].item, f[i].item);
      }
      NormalFromMembers(cmp, a.members, b.members, e, f);
    }
  }

  lemma NormalMemberAt(cmp: Compare, ms: seq<Member>, e: seq<Member>, i: nat)
    requires e == Sort(cmp, ms) && i < |e|
    ensures var x := Normal(cmp, Obj(ms)).members; |x| == |e| && x[i] == Member(e[i].key, Normal(cmp, e[i].item))
  {
  }

  lemma NormalMembersAgreeAt(cmp: Compare, ms: seq<Member>, ns: seq<Member>, e: seq<Member>, f: seq<Member>, i: nat)
    requires e == Sort(cmp, ms) && f == Sort(cmp, ns) && i < |e| == |f|
    requires e[i].key == f[i].key && Normal(cmp, e[i].item) == Normal(cmp, f[i].item)
    ensures var x, y := Normal(cmp, Obj(ms)).members, Normal(cmp, Obj(ns)).members;
      |x| == |y| == |e| && x[i] == y[i]
  {
    NormalMemberAt(cmp, ms, e, i);
    NormalMemberAt(cmp, ns, f, i);
  }

  predicate AgreeAt(cmp: Compare, m: Member, n: Member) { m.key == n.key && Normal(cmp, m.item) == Normal(cmp, n.item) }

  lemma NormalFromMembers(cmp: Compare, ms: seq<Member>, ns: seq<Member>, e: seq<Member>, f: seq<Member>)
    requires e == Sort(cmp, ms) && f == Sort(cmp, ns) && |e| == |f|
    requires forall i :: 0 <= i < |e| ==> AgreeAt(cmp, e[i], f[i])
    ensures Normal(cmp, Obj(ms)) == Normal(cmp, Obj(ns))
  {
    var x, y := Normal(cmp, Obj(ms)).members, Normal(cmp, Obj(ns)).members;
    assert |x| == |e| && |y| == |f|;
    forall i | 0 <= i < |e| ensures x[i] == y[i] {
      assert AgreeAt(cmp, e[i], f[i]);
      NormalMembersAgreeAt(cmp, ms, ns, e, f, i);
    }
    SequencesAgree(x, y);
  }

  lemma SequencesAgree<T>(x: seq<T>, y: seq<T>)
    requires |x| == |y| && forall i :: 0 <= i < |x| ==> x[i] == y[i]
    ensures x == y
  {
  }

  lemma MatchedMember(ms: seq<Member>, ns: seq<Member>, m: Member, n: Member)
    requires UniqueKeys(Obj(ms)) && UniqueKeys(Obj(ns)) && Same(Obj(ms), Obj(ns))
    requires m in ms && n in ns && m.key == n.key
    ensures Same(m.item, n.item) && UniqueKeys(m.item) && UniqueKeys(n.item)
  {
    var k :| 0 <= k < |ms| && ms[k] == m;
    var l :| 0 <= l < |ns| && ns[l] == n;
    assert HasSame(ms[k], ns);
    var j :| 0 <= j < |ns| && ns[j].key == ms[k].key && Same(ms[k].item, ns[j].item);
    assert j == l;
  }

  lemma SameKeyOrder(cmp: Compare, ms: seq<Member>, ns: seq<Member>)
    requires Consistent(cmp) && NoTies(cmp) && DistinctKeys(ms) && DistinctKeys(ns) && |ms| == |ns|
    requires forall i :: 0 <= i < |ms| ==> HasSame(ms[i], ns)
    ensures Keys(Sort(cmp, ms)) == Keys(Sort(cmp, ns))
  {
    var a, b := Keys(Sort(cmp, ms)), Keys(Sort(cmp, ns));
    SortedKeysStrict(cmp, ms);
    SortedKeysStrict(cmp, ns);
    forall k | k in a ensures k in b {
      SortedKeysOf(cmp, ms, k);
      SortedKeysOf(cmp, ns, k);
      var i :| 0 <= i < |ms| && ms[i].key == k;
      assert HasSame(ms[i], ns);
    }
    forall i | 0 <= i < |ms| ensures exists j :: 0 <= j < |ns| && ns[j].key == ms[i].key {
      assert HasSame(ms[i], ns);
    }
    forall k | k in b ensures k in a {
      SortedKeysOf(cmp, ms, k);
      SortedKeysOf(cmp, ns, k);
      var j :| 0 <= j < |ns| && ns[j].key == k;
      MatchedBack(ms, ns, j);
    }
    OrderedKeysAgree(cmp, a, b);
  }

  // The member that another object's normal form holds at the place of this one.
  lemma CounterpartOf(cmp: Compare, ms: seq<Member>, ns: seq<Member>, m: Member) returns (n: Member)
    requires Normal(cmp, Obj(ms)) == Normal(cmp, Obj(ns)) && m in ms
    ensures n in ns && n.key == m.key && Normal(cmp, m.item) == Normal(cmp, n.item)
  {
    var e, f := Sort(cmp, ms), Sort(cmp, ns);
    assert m in e;
    var i :| 0 <= i < |e| && e[i] == m;
    NormalMemberAt(cmp, ms, e, i);
    assert |Normal(cmp, Obj(ns)).members| == |f|;
    NormalMemberAt(cmp, ns, f, i);
    n := f[i];
    assert n in f;
  }

  lemma {:induction false} NormalSame(cmp: Compare, a: Json, b: Json)
    requires Normal(cmp, a) == Normal(cmp, b)
    ensures Same(a, b)
    decreases a
  {
    if a.Arr? {
      forall i | 0 <= i < |a.items| ensures Same(a.items[i], b.items[i]) {
        assert Normal(cmp, a).items[i] == Normal(cmp, b).items[i];
        NormalSame(cmp, a.items[i], b.items[i]);
      }
    } else if a.Obj? {
      SameSize(cmp, a.members, b.members);
      forall k | 0 <= k < |a.members| ensures HasSame(a.members[k], b.members) {
        var n := CounterpartOf(cmp, a.members, b.members, a.members[k]);
        NormalSame(cmp, a.members[k].item, n.item);
        var j :| 0 <= j < |b.members| && b.members[j] == n;
      }
    }
  }

  lemma SameSize(cmp: Compare, ms: seq<Member>, ns: seq<Member>)
    requires Normal(cmp, Obj(ms)) == Normal(cmp, Obj(ns))
    ensures |ms| == |ns|
  {
    assert |Normal(cmp, Obj(ms)).members| == |Sort(cmp, ms)| && |Normal(cmp, Obj(ns)).members| == |Sort(cmp, ns)|;
  }

  // Equal prints mean equal values up to key order, whatever the comparison: the print is injective.
  lemma EqualPrintsAreSame(cmp: Compare, a: Json, b: Json)
    requires Print(cmp, a) == Print(cmp, b)
    ensures Same(a, b)
  {
    ParseInvertsPrint(cmp, a);
    ParseInvertsPrint(cmp, b);
    NormalSame(cmp, a, b);
  }

  // With a comparison that tells distinct keys apart, both directions hold for all values with unique keys.
  lemma PrintsAgreeIff(cmp: Compare, a: Json, b: Json)
    requires Consistent(cmp) && NoTies(cmp) && UniqueKeys(a) && UniqueKeys(b)
    ensures Print(cmp, a) == Print(cmp, b) <==> Same(a, b)
  {
    if Same(a, b) {
      SameNormal(cmp, a, b);
      PrintIsRawOfNormal(cmp, a);
      PrintIsRawOfNormal(cmp, b);
    }
    if Print(cmp, a) == Print(cmp, b) { EqualPrintsAreSame(cmp, a, b); }
  }

  // ---- The condition on the comparison is exact

  ghost predicate OrderIndependent(cmp: Compare) {
    forall a, b :: UniqueKeys(a) && UniqueKeys(b) && Same(a, b) ==> Print(cmp, a) == Print(cmp, b)
  }

  lemma SortOfTwo(cmp: Compare, m: Member, n: Member)
    requires cmp(n.key, m.key) == 0
    ensures Sort(cmp, [m, n]) == [m, n]
  {
    assert [m, n][..1] == [m] && [m][..0] == [];
    assert Sort(cmp, [m][..0]) == [];
    assert Sort(cmp, [m]) == [m];
  }

  function Pair(x: Text, y: Text): Json { Obj([Member(x, Null), Member(y, Null)]) }

  lemma SwappedPairIsSame(x: Text, y: Text)
    requires x != y
    ensures UniqueKeys(Pair(x, y)) && Same(Pair(x, y), Pair(y, x))
  {
    var a, b := Pair(x, y), Pair(y, x);
    assert HasSame(a.members[0], b.members) by { assert Same(a.members[0].item, b.members[1].item); }
    assert HasSame(a.members[1], b.members) by { assert Same(a.members[1].item, b.members[0].item); }
  }

  lemma TiedPairKeepsOrder(cmp: Compare, x: Text, y: Text)
    requires cmp(y, x) == 0
    ensures Normal(cmp, Pair(x, y)).members[0].key == x
  {
    SortOfTwo(cmp, Member(x, Null), Member(y, Null));
  }

  // Two keys that compare equal print in insertion order.
  lemma TiesFollowInsertion(cmp: Compare, x: Text, y: Text)
    requires x != y && cmp(x, y) == 0 && cmp(y, x) == 0
    ensures UniqueKeys(Pair(x, y)) && UniqueKeys(Pair(y, x)) && Same(Pair(x, y), Pair(y, x))
    ensures Print(cmp, Pair(x, y)) != Print(cmp, Pair(y, x))
  {
    SwappedPairIsSame(x, y);
    SwappedPairIsSame(y, x);
    TiedPairKeepsOrder(cmp, x, y);
    TiedPairKeepsOrder(cmp, y, x);
    ParseInvertsPrint(cmp, Pair(x, y));
    ParseInvertsPrint(cmp, Pair(y, x));
  }

  // The print ignores insertion order for every value exactly when no two distinct keys compare equal.
  lemma OrderIndependentIff(cmp: Compare)
    requires Consistent(cmp)
    ensures OrderIndependent(cmp) <==> NoTies(cmp)
  {
    if NoTies(cmp) {
      forall a, b | UniqueKeys(a) && UniqueKeys(b) && Same(a, b) ensures Print(cmp, a) == Print(cmp, b) {
        PrintsAgreeIff(cmp, a, b);
      }
    } else {
      var x, y :| x != y && cmp(x, y) == 0;
      assert cmp(y, x) == 0;
      TiesFollowInsertion(cmp, x, y);
    }
  }
}
