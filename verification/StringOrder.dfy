/** The order of strings.Compare: lexicographic, a strict total order. */
module StringOrder {

  predicate Less(a: string, b: string) {
    if b == [] then false
    else if a == [] then true
    else a[0] < b[0] || (a[0] == b[0] && Less(a[1..], b[1..]))
  }

  /** The strings agree before `k`, and there `a` has the smaller character. */
  ghost predicate SmallerAt(a: string, b: string, k: nat) {
    k < |a| && k < |b| && a[..k] == b[..k] && a[k] < b[k]
  }

  lemma SameStart(a: string, b: string, k: nat)
    requires SmallerAt(a, b, k) && k > 0
    ensures a[0] == b[0]
  {
    assert a[..k][0] == b[..k][0];
  }

  /** The order of Go's strings: a proper prefix comes first, otherwise the first difference decides. */
  lemma {:induction false} LessIff(a: string, b: string)
    ensures Less(a, b) <==> (|a| < |b| && a == b[..|a|]) || exists k :: SmallerAt(a, b, k)
  {
    if a != [] && b != [] {
      var a', b' := a[1..], b[1..];
      LessIff(a', b');
      if a[0] == b[0] {
        assert a == [a[0]] + a' && b == [a[0]] + b';
        assert |a| < |b| ==> b[..|a|] == [a[0]] + b'[..|a'|];
        forall k: nat | SmallerAt(a', b', k)
          ensures SmallerAt(a, b, k + 1)
        {
          assert a[..k + 1] == [a[0]] + a'[..k] && b[..k + 1] == [a[0]] + b'[..k];
        }
        forall k: nat | SmallerAt(a, b, k)
          ensures k > 0 && SmallerAt(a', b', k - 1)
        {
          assert a'[..k - 1] == a[..k][1..] && b'[..k - 1] == b[..k][1..];
        }
      } else {
        assert SmallerAt(a, b, 0) <==> a[0] < b[0];
        forall k: nat | SmallerAt(a, b, k)
          ensures k == 0
        {
          if k > 0 {
            SameStart(a, b, k);
          }
        }
        assert |a| < |b| ==> b[..|a|][0] == b[0];
      }
    }
  }

  lemma {:induction false} LessTransitive(a: string, b: string, c: string)
    requires Less(a, b) && Less(b, c)
    ensures Less(a, c)
  {
    if a != [] && a[0] == b[0] && b[0] == c[0] {
      LessTransitive(a[1..], b[1..], c[1..]);
    }
  }

  lemma {:induction false} LessIrreflexive(a: string)
    ensures !Less(a, a)
  {
    if a != [] {
      LessIrreflexive(a[1..]);
    }
  }

  lemma {:induction false} LessTotal(a: string, b: string)
    ensures Less(a, b) || a == b || Less(b, a)
  {
    if a != [] && b != [] && a[0] == b[0] {
      LessTotal(a[1..], b[1..]);
      assert a == [a[0]] + a[1..] && b == [b[0]] + b[1..];
    }
  }

  lemma LessAsymmetric(a: string, b: string)
    requires Less(a, b)
    ensures !Less(b, a) && a != b
  {
    LessIrreflexive(a);
    if Less(b, a) {
      LessTransitive(a, b, a);
      assert false;
    }
  }

  /** Keys in strictly ascending order, hence without repetition. */
  ghost predicate Ascending(keys: seq<string>) {
    forall i, j :: 0 <= i < j < |keys| ==> Less(keys[i], keys[j])
  }

  /** No later key is smaller than an earlier one. */
  ghost predicate NonDescending(keys: seq<string>) {
    forall i, j :: 0 <= i < j < |keys| ==> !Less(keys[j], keys[i])
  }

  /** An ascending sequence is determined by its set of elements. */
  lemma {:induction false} AscendingUnique(a: seq<string>, b: seq<string>)
    requires Ascending(a) && Ascending(b)
    requires forall k :: k in a <==> k in b
    ensures a == b
    decreases |a|
  {
    if a == [] {
      assert forall i :: 0 <= i < |b| ==> b[i] in b;
    } else {
      LastOfAscending(a, b);
      var n, m := |a| - 1, |b| - 1;
      var a', b' := a[..n], b[..m];
      assert a == a' + [a[n]] && b == b' + [b[m]];
      forall k
        ensures k in a' <==> k in b'
      {
        InitOfAscending(a, k);
        InitOfAscending(b, k);
      }
      AscendingUnique(a', b');
    }
  }

  lemma InitOfAscending(a: seq<string>, k: string)
    requires Ascending(a) && a != []
    ensures k in a[..|a| - 1] <==> k in a && k != a[|a| - 1]
  {
    var n := |a| - 1;
    assert a == a[..n] + [a[n]];
    forall i | 0 <= i < n
      ensures a[i] != a[n]
    {
      LessAsymmetric(a[i], a[n]);
    }
  }

  lemma LastOfAscending(a: seq<string>, b: seq<string>)
    requires Ascending(a) && Ascending(b) && a != []
    requires forall k :: k in a <==> k in b
    ensures b != [] && a[|a| - 1] == b[|b| - 1]
  {
    var x := a[|a| - 1];
    assert x in b;
    var y := b[|b| - 1];
    assert y in a;
    LessTotal(x, y);
    NotAboveLast(a, y);
    NotAboveLast(b, x);
  }

  lemma NotAboveLast(a: seq<string>, k: string)
    requires Ascending(a) && k in a
    ensures !Less(a[|a| - 1], k)
  {
    var i :| 0 <= i < |a| && a[i] == k;
    if i < |a| - 1 {
      LessAsymmetric(a[i], a[|a| - 1]);
    } else {
      LessIrreflexive(k);
    }
  }
}
