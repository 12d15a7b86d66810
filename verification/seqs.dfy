/** Small sequence vocabulary shared by the model: an Option type, duplicate-freedom,
    the `pushUnique` helper of the library, and "collect each key once, in order of
    first appearance", which is what a loop of `pushUnique` calls builds. */
module Seqs {

  datatype Option<T> = None | Some(value: T)

  /** No element occurs twice. */
  ghost predicate NoDup<T>(s: seq<T>)
  {
    forall i, j :: 0 <= i < j < |s| ==> s[i] != s[j]
  }

  ghost predicate StrictlyIncreasing(s: seq<nat>)
  {
    forall i, j :: 0 <= i < j < |s| ==> s[i] < s[j]
  }

  /** The library's `pushUnique(array, item)`: append `item` unless it is already there. */
  function PushUnique<T(==)>(s: seq<T>, x: T): (r: seq<T>)
  {
    if x in s then s else s + [x]
  }

  /** The keys that `key` assigns to the elements of `s`, each kept once, in the order
      in which they first appear. This is what a loop calling `pushUnique` over `s`
      leaves behind. */
  function Collect<T, K(==)>(s: seq<T>, key: T -> Option<K>): seq<K>
  {
    if s == [] then []
    else
      var prev := Collect(s[..|s| - 1], key);
      match key(s[|s| - 1])
      case None => prev
      case Some(k) => PushUnique(prev, k)
  }

  /** A collected list never holds a key twice. */
  lemma {:induction false} CollectNoDup<T, K>(s: seq<T>, key: T -> Option<K>)
    ensures NoDup(Collect(s, key))
  {
    if s != [] {
      CollectNoDup(s[..|s| - 1], key);
    }
  }

  /** A key is collected exactly when some element of `s` has it. */
  lemma {:induction false} CollectMembers<T, K>(s: seq<T>, key: T -> Option<K>, k: K)
    ensures k in Collect(s, key) <==> exists i :: 0 <= i < |s| && key(s[i]) == Some(k)
  {
    if s != [] {
      var p := s[..|s| - 1];
      CollectMembers(p, key, k);
      if exists i :: 0 <= i < |p| && key(p[i]) == Some(k) {
        var i :| 0 <= i < |p| && key(p[i]) == Some(k);
        assert s[i] == p[i];
      }
      if exists i :: 0 <= i < |s| && key(s[i]) == Some(k) {
        var i :| 0 <= i < |s| && key(s[i]) == Some(k);
        if i < |p| {
          assert p[i] == s[i];
        }
      }
    }
  }

  /** Collected keys are in order of first appearance: whenever `Collect(s, key)[q]`
      is carried by some element of `s`, every key listed before it is carried by an
      element further to the left. */
  lemma {:induction false} CollectFirstAppearance<T, K>(s: seq<T>, key: T -> Option<K>, p: nat, q: nat, j: nat)
    requires p < q < |Collect(s, key)|
    requires j < |s| && key(s[j]) == Some(Collect(s, key)[q])
    ensures exists i :: 0 <= i < j && key(s[i]) == Some(Collect(s, key)[p])
  {
    var pre := s[..|s| - 1];
    var prev := Collect(pre, key);
    var c := Collect(s, key);
    assert prev <= c by {
      match key(s[|s| - 1])
      case None =>
      case Some(k) =>
    }
    if q < |prev| {
      // both keys were already collected from the prefix
      assert c[q] == prev[q] && c[p] == prev[p];
      if j < |pre| {
        assert pre[j] == s[j];
        CollectFirstAppearance(pre, key, p, q, j);
        var i :| 0 <= i < j && key(pre[i]) == Some(prev[p]);
        assert s[i] == pre[i];
      } else {
        // the occurrence at j is the last element; the prefix already carries c[q]
        CollectMembers(pre, key, prev[q]);
        var j' :| 0 <= j' < |pre| && key(pre[j']) == Some(prev[q]);
        CollectFirstAppearance(pre, key, p, q, j');
        var i :| 0 <= i < j' && key(pre[i]) == Some(prev[p]);
        assert s[i] == pre[i];
      }
    } else {
      // c[q] was appended by the last element; c[p] comes from the prefix
      assert c[p] == prev[p];
      CollectMembers(pre, key, prev[p]);
      var i :| 0 <= i < |pre| && key(pre[i]) == Some(prev[p]);
      assert s[i] == pre[i];
      // c[q] is not in the prefix's list, so no element of the prefix carries it
      CollectMembers(pre, key, c[q]);
      assert forall i' :: 0 <= i' < |pre| ==> pre[i'] == s[i'];
    }
  }

  /** Duplicate-freedom in terms of multiplicities, so that it carries over to any
      permutation. */
  lemma {:induction false} NoDupMultiplicity<T>(s: seq<T>)
    ensures NoDup(s) <==> forall x :: multiset(s)[x] <= 1
  {
    if s != [] {
      var t := s[1..];
      assert s == [s[0]] + t;
      NoDupMultiplicity(t);
      if NoDup(s) {
        assert NoDup(t) by {
          forall i, j | 0 <= i < j < |t| ensures t[i] != t[j] {
            assert t[i] == s[i + 1] && t[j] == s[j + 1];
          }
        }
        assert s[0] !in t by {
          forall j | 0 <= j < |t| ensures t[j] != s[0] {
            assert t[j] == s[j + 1];
          }
        }
        forall x ensures multiset(s)[x] <= 1 {
          assert multiset(s)[x] == multiset([s[0]])[x] + multiset(t)[x];
        }
      }
      if forall x :: multiset(s)[x] <= 1 {
        forall x ensures multiset(t)[x] <= 1 {
          assert multiset(s)[x] == multiset([s[0]])[x] + multiset(t)[x];
        }
        assert s[0] !in multiset(t) by {
          assert multiset(s)[s[0]] == 1 + multiset(t)[s[0]];
        }
        forall i, j | 0 <= i < j < |s| ensures s[i] != s[j] {
          if i == 0 {
            assert s[j] == t[j - 1] && s[j] in multiset(t);
          } else {
            assert s[i] == t[i - 1] && s[j] == t[j - 1];
          }
        }
      }
    }
  }
}
