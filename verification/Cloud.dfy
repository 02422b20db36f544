/** The vocabulary shared by the other modules: endpoint types, sync states and a few
    facts about finite sets of indices. */
module Cloud {

  datatype Option<+T> = None | Some(value: T)

  datatype Endpoint = Platform | Patching | Identity | Load | DcCert | Firmware | Kubernetes | KubeRootca | IdentityOs

  datatype SyncStatus = Unknown | InSync | OutOfSync

  function Max(a: int, b: int): int {
    if a < b then b else a
  }

  function Min(a: int, b: int): int {
    if a < b then a else b
  }

  /** The integers lo, ..., hi - 1. */
  function Interval(lo: int, hi: int): (s: set<int>)
    ensures forall x :: x in s <==> lo <= x < hi
    decreases hi - lo
  {
    if lo >= hi then {} else Interval(lo, hi - 1) + {hi - 1}
  }

  lemma {:induction false} IntervalSize(lo: int, hi: int)
    requires lo <= hi
    ensures |Interval(lo, hi)| == hi - lo
    decreases hi - lo
  {
    if lo == hi {
      assert Interval(lo, hi) == {};
    } else {
      IntervalSize(lo, hi - 1);
      assert Interval(lo, hi) == Interval(lo, hi - 1) + {hi - 1};
    }
  }

  lemma SubsetSize<T>(a: set<T>, b: set<T>)
    requires a <= b
    ensures |a| <= |b|
  {
    assert b == a + (b - a);
  }

  /** A set of integers whose members are pairwise less than c apart has at most c members. */
  lemma CloseSetSize(s: set<int>, c: nat)
    requires forall x, y | x in s && y in s :: y - x < c
    ensures |s| <= c
  {
    if s != {} {
      hide Interval;
      var m := Least(s);
      IntervalSize(m, m + c);
      SubsetSize(s, Interval(m, m + c));
    }
  }

  ghost function AnyOf<T>(s: set<T>): (x: T)
    requires s != {}
    ensures x in s
  {
    var x :| x in s;
    x
  }

  lemma {:induction false} Least(s: set<int>) returns (m: int)
    requires s != {}
    ensures m in s && forall x | x in s :: m <= x
    decreases |s|
  {
    m := AnyOf(s);
    if s != {m} {
      var rest := s - {m};
      var n := Least(rest);
      assert s == rest + {m};
      if n < m {
        m := n;
      }
    }
  }
}
