/** Small vocabulary shared by the other modules. */
module Common {
  datatype Option<+T> = None | Some(value: T)

  /** The last `n` elements of `s`, or all of it when it is shorter. */
  function LastN<T>(s: seq<T>, n: nat): (r: seq<T>)
    ensures |r| == if |s| <= n then |s| else n
    ensures r == s[|s| - |r|..]
  {
    if |s| <= n then s else s[|s| - n..]
  }

  /** Python's `s[-n:]`, with its own reading of zero and of negative `n`. */
  function SliceFromEnd<T>(s: seq<T>, n: int): (r: seq<T>)
    ensures |r| == if n > |s| then |s| else if n > 0 then n else if |s| + n > 0 then |s| + n else 0
    ensures r == s[|s| - |r|..]
  {
    if n > 0 then LastN(s, n) else if -n <= |s| then s[-n..] else []
  }

  lemma LastOfLast<T>(s: seq<T>, m: nat, n: nat)
    requires n <= m
    ensures LastN(LastN(s, m), n) == LastN(s, n)
  {
  }

  lemma LastOfAppend<T>(a: seq<T>, b: seq<T>, n: nat)
    requires n <= |b|
    ensures LastN(a + b, n) == LastN(b, n)
  {
  }

  lemma NoDupSnoc<T>(s: seq<T>, x: T)
    ensures NoDup(s + [x]) <==> NoDup(s) && x !in s
  {
    var t := s + [x];
    if NoDup(t) {
      assert forall i :: 0 <= i < |s| ==> s[i] == t[i];
      assert t[|s|] == x;
    }
  }

  lemma SliceSnoc<T>(s: seq<T>, x: T, i: nat)
    requires i <= |s|
    ensures (s + [x])[i..] == s[i..] + [x]
  {
  }

  lemma Reassociate<T>(a: seq<T>, b: seq<T>, c: seq<T>)
    ensures a + (b + c) == (a + b) + c
  {
  }

  ghost predicate Suffix<T>(a: seq<T>, b: seq<T>) {
    |a| <= |b| && a == b[|b| - |a|..]
  }

  predicate NoDup<T(==)>(s: seq<T>) {
    forall i, j :: 0 <= i < j < |s| ==> s[i] != s[j]
  }

  /** The results that `f` has for the elements of `s`, in order. */
  function Collect<A, B>(f: A -> Option<B>, s: seq<A>): seq<B> {
    if s == [] then []
    else
      var one := f(s[|s| - 1]);
      Collect(f, s[..|s| - 1]) + if one.Some? then [one.value] else []
  }

  lemma CollectSnoc<A, B>(f: A -> Option<B>, s: seq<A>, x: A)
    ensures Collect(f, s + [x]) == if f(x).Some? then Collect(f, s) + [f(x).value] else Collect(f, s)
  {
    assert (s + [x])[..|s|] == s;
  }

  lemma {:induction false} CollectGives<A, B>(f: A -> Option<B>, s: seq<A>)
    ensures forall y :: y in Collect(f, s) ==> exists x :: x in s && f(x) == Some(y)
  {
    if s != [] {
      var front, last := s[..|s| - 1], s[|s| - 1];
      assert s == front + [last];
      CollectGives(f, front);
      assert last in s;
    }
  }

  /** `at` lists, in order, the positions of the elements that have a result. */
  ghost predicate Picks<A, B>(f: A -> Option<B>, s: seq<A>, at: seq<nat>) {
    && (forall i :: 0 <= i < |at| ==> at[i] < |s|)
    && (forall i, j :: 0 <= i < j < |at| ==> at[i] < at[j])
    && (forall k :: 0 <= k < |s| ==> (k in at <==> f(s[k]).Some?))
  }

  ghost predicate PickedAs<A, B>(f: A -> Option<B>, s: seq<A>, at: seq<nat>, r: seq<B>) {
    |r| == |at| && forall i :: 0 <= i < |at| ==> at[i] < |s| && f(s[at[i]]) == Some(r[i])
  }

  lemma PicksSnoc<A, B>(f: A -> Option<B>, front: seq<A>, last: A, at: seq<nat>)
    requires Picks(f, front, at)
    ensures f(last).None? ==> Picks(f, front + [last], at)
    ensures f(last).Some? ==> Picks(f, front + [last], at + [|front|])
  {
    var n, longer := |front|, at + [|front|];
    assert forall k :: k in at ==> k < n;
    assert forall k :: k in longer <==> k in at || k == n;
    forall k | 0 <= k < n
      ensures k in at <==> f((front + [last])[k]).Some?
    {
      assert (front + [last])[k] == front[k];
    }
  }

  lemma PickedSnoc<A, B>(f: A -> Option<B>, front: seq<A>, last: A, at: seq<nat>, r: seq<B>)
    requires PickedAs(f, front, at, r)
    ensures PickedAs(f, front + [last], at, r)
    ensures f(last).Some? ==> PickedAs(f, front + [last], at + [|front|], r + [f(last).value])
  {
  }

  lemma PickNext<A, B>(f: A -> Option<B>, front: seq<A>, last: A, before: seq<nat>) returns (at: seq<nat>)
    requires Picks(f, front, before) && PickedAs(f, front, before, Collect(f, front))
    ensures Picks(f, front + [last], at) && PickedAs(f, front + [last], at, Collect(f, front + [last]))
  {
    PicksSnoc(f, front, last, before);
    PickedSnoc(f, front, last, before, Collect(f, front));
    CollectSnoc(f, front, last);
    at := if f(last).None? then before else before + [|front|];
  }

  /** Collecting keeps the results of exactly the elements that have one, in order. */
  lemma {:induction false} CollectPicks<A, B>(f: A -> Option<B>, s: seq<A>) returns (at: seq<nat>)
    ensures Picks(f, s, at) && PickedAs(f, s, at, Collect(f, s))
  {
    if s == [] {
      at := [];
    } else {
      var front, last := s[..|s| - 1], s[|s| - 1];
      assert front + [last] == s;
      var before := CollectPicks(f, front);
      at := PickNext(f, front, last, before);
    }
  }

  lemma {:induction false} CollectBack<A, B>(f: B -> Option<A>, g: A -> Option<B>, s: seq<A>)
    requires forall x :: x in s ==> g(x).Some? && f(g(x).value) == Some(x)
    ensures Collect(f, Collect(g, s)) == s
  {
    if s != [] {
      var front, last := s[..|s| - 1], s[|s| - 1];
      CollectBack(f, g, front);
      CollectSnoc(f, Collect(g, front), g(last).value);
      assert s == front + [last];
    }
  }

  lemma {:induction false} CollectKeeps<A>(f: A -> Option<A>, s: seq<A>)
    requires forall x :: x in s ==> f(x) == Some(x)
    ensures Collect(f, s) == s
  {
    if s != [] {
      var front, last := s[..|s| - 1], s[|s| - 1];
      CollectKeeps(f, front);
      CollectSnoc(f, front, last);
      assert front + [last] == s;
    }
  }

  lemma {:induction false} CollectTwice<A, B, C>(f: A -> Option<B>, g: B -> Option<C>, both: A -> Option<C>, s: seq<A>)
    requires forall x :: both(x) == if f(x).Some? then g(f(x).value) else None
    ensures Collect(both, s) == Collect(g, Collect(f, s))
  {
    if s != [] {
      var front, last := s[..|s| - 1], s[|s| - 1];
      assert s == front + [last];
      CollectTwice(f, g, both, front);
      CollectSnoc(f, front, last);
      CollectSnoc(both, front, last);
      if f(last).Some? {
        CollectSnoc(g, Collect(f, front), f(last).value);
      }
    }
  }

  /** The state after these steps, one by one. */
  function Fold<S, A>(step: (S, A) -> S, start: S, xs: seq<A>): S {
    if xs == [] then start else step(Fold(step, start, xs[..|xs| - 1]), xs[|xs| - 1])
  }

  /** What holds at the start and is kept by each step holds at the end, of the state and the steps so far. */
  lemma {:induction false} FoldKeeps<S(!new), A(!new)>(step: (S, A) -> S, start: S, xs: seq<A>,
                                                      inv: (S, seq<A>) -> bool)
    requires inv(start, [])
    requires forall s, front, x :: inv(s, front) ==> inv(step(s, x), front + [x])
    ensures inv(Fold(step, start, xs), xs)
  {
    if xs != [] {
      var front, last := xs[..|xs| - 1], xs[|xs| - 1];
      FoldKeeps(step, start, front, inv);
      assert front + [last] == xs;
    }
  }

  lemma FoldSnoc<S, A>(step: (S, A) -> S, start: S, front: seq<A>, last: A)
    ensures Fold(step, start, front + [last]) == step(Fold(step, start, front), last)
  {
    assert (front + [last])[..|front|] == front;
  }

  lemma FoldShort<S, A>(step: (S, A) -> S, start: S, x: A, y: A, z: A)
    ensures Fold(step, start, [x]) == step(start, x)
    ensures Fold(step, start, [x, y]) == step(step(start, x), y)
    ensures Fold(step, start, [x, y, z]) == step(step(step(start, x), y), z)
  {
    FoldSnoc(step, start, [], x);
    FoldSnoc(step, start, [x], y);
    FoldSnoc(step, start, [x, y], z);
    assert [] + [x] == [x] && [x] + [y] == [x, y] && [x, y] + [z] == [x, y, z];
  }
}
