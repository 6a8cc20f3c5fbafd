/** Depth-first processing of a work list: each item has an effect and leads to further items,
    handled before the rest. A recursive walk visits the same items in the same order. */
module Worklist {
  import opened Prelude

  /** Processes the list visiting at most `fuel` items in all; None when that is not enough. */
  function Run<S, N>(enter: (S, N) -> S, next: (S, N) -> seq<N>, s: S, work: seq<N>, fuel: nat): Option<S>
    decreases fuel
  {
    if work == [] then Some(s)
    else if fuel == 0 then None
    else Run(enter, next, enter(s, work[0]), next(s, work[0]) + work[1..], fuel - 1)
  }

  ghost predicate AllGood<N(!new)>(good: N -> bool, work: seq<N>) {
    forall n :: n in work ==> good(n)
  }

  /** Whatever each visit keeps, the whole walk keeps. */
  lemma {:induction false} Keeps<S(!new), N(!new)>(enter: (S, N) -> S, next: (S, N) -> seq<N>, s: S, work: seq<N>,
                                                   fuel: nat, inv: S -> bool, good: N -> bool)
    requires inv(s) && AllGood(good, work) && Run(enter, next, s, work, fuel).Some?
    requires forall x, n {:trigger enter(x, n)} :: inv(x) && good(n) ==> inv(enter(x, n))
    requires forall x, n {:trigger next(x, n)} :: inv(x) && good(n) ==> AllGood(good, next(x, n))
    ensures inv(Run(enter, next, s, work, fuel).value)
    decreases fuel
  {
    if work != [] {
      assert good(work[0]);
      Keeps(enter, next, enter(s, work[0]), next(s, work[0]) + work[1..], fuel - 1, inv, good);
    }
  }

  /** The same with an invariant that also speaks about what is still to do. */
  lemma {:induction false} KeepsWork<S(!new), N(!new)>(enter: (S, N) -> S, next: (S, N) -> seq<N>, s: S, work: seq<N>,
                                                       fuel: nat, inv: (S, seq<N>) -> bool)
    requires inv(s, work) && Run(enter, next, s, work, fuel).Some?
    requires forall x, w: seq<N> {:trigger inv(x, w)} ::
               w != [] && inv(x, w) ==> inv(enter(x, w[0]), next(x, w[0]) + w[1..])
    ensures inv(Run(enter, next, s, work, fuel).value, [])
    decreases fuel
  {
    if work != [] {
      KeepsWork(enter, next, enter(s, work[0]), next(s, work[0]) + work[1..], fuel - 1, inv);
    }
  }

  /** A walk that finishes is not changed by a larger allowance. */
  lemma {:induction false} MoreFuel<S, N>(enter: (S, N) -> S, next: (S, N) -> seq<N>, s: S, work: seq<N>,
                                          fuel: nat, more: nat)
    requires fuel <= more && Run(enter, next, s, work, fuel).Some?
    ensures Run(enter, next, s, work, more) == Run(enter, next, s, work, fuel)
    decreases fuel
  {
    if work != [] {
      MoreFuel(enter, next, enter(s, work[0]), next(s, work[0]) + work[1..], fuel - 1, more - 1);
    }
  }

  /** Processing `a + b` is processing `a`, then `b` from where that ends. */
  lemma {:induction false} Append<S, N>(enter: (S, N) -> S, next: (S, N) -> seq<N>, s: S, a: seq<N>, b: seq<N>,
                                        fuel: nat)
    returns (used: nat)
    requires Run(enter, next, s, a + b, fuel).Some?
    ensures used <= fuel && Run(enter, next, s, a, used).Some?
    ensures a != [] ==> used > 0
    ensures Run(enter, next, Run(enter, next, s, a, used).value, b, fuel - used) == Run(enter, next, s, a + b, fuel)
    decreases fuel
  {
    if a == [] {
      assert a + b == b;
      used := 0;
    } else {
      assert (a + b)[0] == a[0];
      var more := next(s, a[0]) + a[1..];
      assert next(s, a[0]) + (a + b)[1..] == more + b;
      used := Append(enter, next, enter(s, a[0]), more, b, fuel - 1);
      used := used + 1;
    }
  }

  /** The converse: two finished walks in a row are one finished walk. */
  lemma {:induction false} Join<S, N>(enter: (S, N) -> S, next: (S, N) -> seq<N>, s: S, a: seq<N>, b: seq<N>,
                                      f: nat, g: nat)
    requires Run(enter, next, s, a, f).Some?
    requires Run(enter, next, Run(enter, next, s, a, f).value, b, g).Some?
    ensures Run(enter, next, s, a + b, f + g)
            == Run(enter, next, Run(enter, next, s, a, f).value, b, g)
    decreases f
  {
    if a == [] {
      assert a + b == b;
      MoreFuel(enter, next, s, b, g, f + g);
    } else {
      assert (a + b)[0] == a[0];
      var more := next(s, a[0]) + a[1..];
      assert next(s, a[0]) + (a + b)[1..] == more + b;
      Join(enter, next, enter(s, a[0]), more, b, f - 1, g);
    }
  }

  /** A change of state that each visit respects, the whole walk respects. */
  lemma {:induction false} Commutes<S(!new), N(!new)>(enter: (S, N) -> S, next: (S, N) -> seq<N>, f: S -> S, s: S,
                                                      work: seq<N>, fuel: nat)
    requires forall x, n {:trigger enter(f(x), n)} {:trigger enter(x, n)} :: enter(f(x), n) == f(enter(x, n))
    requires forall x, n {:trigger next(f(x), n)} {:trigger next(x, n)} :: next(f(x), n) == next(x, n)
    ensures Run(enter, next, f(s), work, fuel)
            == var r := Run(enter, next, s, work, fuel); if r.None? then None else Some(f(r.value))
    decreases fuel
  {
    if work != [] && fuel > 0 {
      Commutes(enter, next, f, enter(s, work[0]), next(s, work[0]) + work[1..], fuel - 1);
    }
  }

  /** A finished walk of `n` contains a finished, shorter walk of each of its successors. */
  lemma Descend<S(!new), N(!new)>(enter: (S, N) -> S, next: (S, N) -> seq<N>, s: S, n: N, i: nat, fuel: nat,
                                  inv: S -> bool)
    returns (t: S, less: nat)
    requires inv(s) && Run(enter, next, s, [n], fuel).Some? && i < |next(s, n)|
    requires forall x, m {:trigger enter(x, m)} :: inv(x) ==> inv(enter(x, m))
    ensures less < fuel && inv(t) && Run(enter, next, t, [next(s, n)[i]], less).Some?
  {
    var s1, ns := enter(s, n), next(s, n);
    assert ns + [n][1..] == ns;
    var a, b := ns[..i], ns[i + 1..];
    assert ns == a + ([ns[i]] + b);
    var u := Append(enter, next, s1, a, [ns[i]] + b, fuel - 1);
    t := Run(enter, next, s1, a, u).value;
    var any := (m: N) => true;
    Keeps(enter, next, s1, a, u, inv, any);
    less := Append(enter, next, t, [ns[i]], b, fuel - 1 - u);
  }

  /** Finished walks of the successors of `n` and of the rest make a finished walk of the list. */
  lemma Ascend<S, N>(enter: (S, N) -> S, next: (S, N) -> seq<N>, s: S, n: N, rest: seq<N>, f: nat, g: nat)
    requires Run(enter, next, enter(s, n), next(s, n), f).Some?
    requires Run(enter, next, Run(enter, next, enter(s, n), next(s, n), f).value, rest, g).Some?
    ensures Run(enter, next, s, [n] + rest, f + g + 1).Some?
  {
    Join(enter, next, enter(s, n), next(s, n), rest, f, g);
    assert ([n] + rest)[0] == n && ([n] + rest)[1..] == rest;
  }

  ghost predicate AllSized<N(!new)>(size: (N, nat) -> bool, ns: seq<N>, b: nat) {
    forall n :: n in ns ==> size(n, b)
  }

  ghost predicate Drops<S(!new), N(!new)>(next: (S, N) -> seq<N>, inv: S -> bool, size: (N, nat) -> bool) {
    forall x, n, c: nat {:trigger next(x, n), size(n, c)} ::
      inv(x) && size(n, c) ==> c > 0 && AllSized(size, next(x, n), c - 1)
  }

  /** If a size drops from every item to its successors, some allowance is enough. */
  lemma {:induction false} Finishes<S(!new), N(!new)>(enter: (S, N) -> S, next: (S, N) -> seq<N>, s: S, ns: seq<N>,
                                                      b: nat, inv: S -> bool, size: (N, nat) -> bool)
    returns (fuel: nat)
    requires inv(s) && AllSized(size, ns, b)
    requires forall x, n {:trigger enter(x, n)} :: inv(x) ==> inv(enter(x, n))
    requires Drops(next, inv, size)
    ensures Run(enter, next, s, ns, fuel).Some?
    decreases b, |ns|
  {
    if ns == [] {
      fuel := 0;
    } else {
      var n, rest := ns[0], ns[1..];
      assert n in ns && ns == [n] + rest;
      assert size(n, b) && AllSized(size, next(s, n), b - 1);
      var f := Finishes(enter, next, enter(s, n), next(s, n), b - 1, inv, size);
      var t := Run(enter, next, enter(s, n), next(s, n), f).value;
      var any := (m: N) => true;
      Keeps(enter, next, enter(s, n), next(s, n), f, inv, any);
      var g := Finishes(enter, next, t, rest, b, inv, size);
      Ascend(enter, next, s, n, rest, f, g);
      fuel := f + g + 1;
    }
  }
}
