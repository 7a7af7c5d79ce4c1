/** Reachability through a successor function, and what worklists need to know about it. */
module Reachability {

  type Names = set<string>

  ghost predicate ReachIn(succ: string -> Names, roots: Names, x: string, n: nat)
    decreases n
  {
    if n == 0 then x in roots
    else exists y :: ReachIn(succ, roots, y, n - 1) && x in succ(y)
  }

  /** `x` is reached from `roots` in some number of steps. */
  ghost predicate Reach(succ: string -> Names, roots: Names, x: string) {
    exists n: nat :: ReachIn(succ, roots, x, n)
  }

  ghost predicate Closed(succ: string -> Names, s: Names) {
    forall n | n in s :: succ(n) <= s
  }

  lemma ReachRoot(succ: string -> Names, roots: Names, x: string)
    requires x in roots
    ensures Reach(succ, roots, x)
  {
    assert ReachIn(succ, roots, x, 0);
  }

  lemma ReachStep(succ: string -> Names, roots: Names, y: string, x: string)
    requires Reach(succ, roots, y) && x in succ(y)
    ensures Reach(succ, roots, x)
  {
    var n: nat :| ReachIn(succ, roots, y, n);
    assert ReachIn(succ, roots, x, n + 1);
  }

  lemma {:induction false} ReachInClosed(succ: string -> Names, roots: Names, s: Names, x: string, n: nat)
    requires roots <= s && Closed(succ, s) && ReachIn(succ, roots, x, n)
    ensures x in s
    decreases n
  {
    if n > 0 {
      var y :| ReachIn(succ, roots, y, n - 1) && x in succ(y);
      ReachInClosed(succ, roots, s, y, n - 1);
    }
  }

  /** The reachable names are in every closed set that has the roots. */
  lemma ReachLeast(succ: string -> Names, roots: Names, s: Names)
    requires roots <= s && Closed(succ, s)
    ensures forall x | Reach(succ, roots, x) :: x in s
  {
    forall x | Reach(succ, roots, x) ensures x in s {
      var n: nat :| ReachIn(succ, roots, x, n);
      ReachInClosed(succ, roots, s, x, n);
    }
  }

  /** The least closed set that has the roots. */
  ghost predicate IsReachable(succ: string -> Names, roots: Names, r: Names) {
    && (forall x :: x in r <==> Reach(succ, roots, x))
    && roots <= r && Closed(succ, r)
    && forall s | roots <= s && Closed(succ, s) :: r <= s
  }

  /** A closed set of reachable names with the roots is all of them. */
  lemma ClosedIsReachable(succ: string -> Names, roots: Names, r: Names)
    requires roots <= r && Closed(succ, r)
    requires forall x | x in r :: Reach(succ, roots, x)
    ensures IsReachable(succ, roots, r)
  {
    ReachLeast(succ, roots, r);
    forall s | roots <= s && Closed(succ, s) ensures r <= s { ReachLeast(succ, roots, s); }
  }

  lemma Shrinks<T>(a: set<T>, b: set<T>)
    requires a < b
    ensures |a| < |b|
  {
    assert |b| == |a| + |b - a|;
    assert b - a != {};
  }

  /** The elements of a set in some order. */
  method Listed(names: Names) returns (q: seq<string>)
    ensures forall x :: x in q <==> x in names
  {
    q := [];
    var rest := names;
    while rest != {}
      invariant rest <= names
      invariant forall x :: x in q <==> x in names - rest
    {
      var x :| x in rest;
      q, rest := q + [x], rest - {x};
    }
  }

  // ---- Worklist that marks a name when it is taken out ----

  ghost predicate PopInvariant(succ: string -> Names, roots: Names, all: Names, seen: Names, queue: seq<string>) {
    && seen <= all && (forall x | x in queue :: x in all)
    && (forall x | x in roots :: x in seen || x in queue)
    && (forall n, d | n in seen && d in succ(n) :: d in seen || d in queue)
    && (forall x | x in seen || x in queue :: Reach(succ, roots, x))
  }

  lemma PopSeen(succ: string -> Names, roots: Names, all: Names, seen: Names, queue: seq<string>)
    requires PopInvariant(succ, roots, all, seen, queue) && queue != [] && queue[|queue| - 1] in seen
    ensures PopInvariant(succ, roots, all, seen, queue[..|queue| - 1])
  {
    var rest := queue[..|queue| - 1];
    assert forall x | x in queue :: x == queue[|queue| - 1] || x in rest;
  }

  lemma PopFresh(succ: string -> Names, roots: Names, all: Names, seen: Names, queue: seq<string>, found: seq<string>)
    requires PopInvariant(succ, roots, all, seen, queue) && queue != []
    requires var name := queue[|queue| - 1];
             name !in seen && succ(name) <= all && forall d :: d in found <==> d in succ(name) - (seen + {name})
    ensures var name := queue[|queue| - 1];
            && PopInvariant(succ, roots, all, seen + {name}, queue[..|queue| - 1] + found)
            && |all - (seen + {name})| < |all - seen|
  {
    var name, rest := queue[|queue| - 1], queue[..|queue| - 1];
    assert forall x | x in queue :: x == name || x in rest;
    forall d | d in found ensures Reach(succ, roots, d) { ReachStep(succ, roots, name, d); }
    assert name in all - seen;
    Shrinks(all - (seen + {name}), all - seen);
  }

  /** Take a name out; if it is new, mark it and queue its unmarked successors. */
  method MarkOnPop(succ: string -> Names, roots: Names, ghost all: Names) returns (seen: Names)
    requires roots <= all && forall n :: succ(n) <= all
    ensures IsReachable(succ, roots, seen)
  {
    seen := {};
    var queue := Listed(roots);
    forall x | x in queue ensures Reach(succ, roots, x) { ReachRoot(succ, roots, x); }
    while queue != []
      invariant PopInvariant(succ, roots, all, seen, queue)
      decreases |all - seen|, |queue|
    {
      var name := queue[|queue| - 1];
      if name in seen {
        PopSeen(succ, roots, all, seen, queue);
        queue := queue[..|queue| - 1];
      } else {
        var found := Listed(succ(name) - (seen + {name}));
        PopFresh(succ, roots, all, seen, queue, found);
        seen := seen + {name};
        queue := queue[..|queue| - 1] + found;
      }
    }
    ClosedIsReachable(succ, roots, seen);
  }

  // ---- Worklist that marks a name when it is put in ----

  ghost predicate PushInvariant(succ: string -> Names, roots: Names, all: Names, marked: Names, queue: seq<string>) {
    && marked <= all && roots <= marked && (forall x | x in queue :: x in marked)
    && (forall n, d | n in marked && n !in queue && d in succ(n) :: d in marked)
    && (forall x | x in marked :: Reach(succ, roots, x))
  }

  lemma PushStep(succ: string -> Names, roots: Names, all: Names, marked: Names, queue: seq<string>, found: seq<string>)
    requires PushInvariant(succ, roots, all, marked, queue) && queue != []
    requires var name := queue[|queue| - 1];
             succ(name) <= all && forall d :: d in found <==> d in succ(name) - marked
    ensures PushInvariant(succ, roots, all, marked + succ(queue[|queue| - 1]), queue[..|queue| - 1] + found)
  {
    var name, rest := queue[|queue| - 1], queue[..|queue| - 1];
    assert forall x | x in queue :: x == name || x in rest;
    assert name in queue && name in marked;
    forall d | d in succ(name) ensures Reach(succ, roots, d) { ReachStep(succ, roots, name, d); }
  }

  /** Either something new is marked or the queue gets shorter. */
  lemma PushProgress(all: Names, marked: Names, next: Names, found: seq<string>)
    requires next <= all && forall d :: d in found <==> d in next - marked
    ensures found != [] ==> |all - (marked + next)| < |all - marked|
    ensures found == [] ==> marked + next == marked
  {
    if found != [] {
      assert found[0] in found;
      assert found[0] in all - marked;
      Shrinks(all - (marked + next), all - marked);
    } else {
      assert forall d | d in next - marked :: d in found;
      assert next - marked == {};
      assert marked + next == marked + (next - marked);
    }
  }

  /** Mark successors as they are queued, so that no name is queued twice. */
  method MarkOnPush(succ: string -> Names, roots: Names, ghost all: Names) returns (marked: Names)
    requires roots <= all && forall n :: succ(n) <= all
    ensures IsReachable(succ, roots, marked)
  {
    marked := roots;
    var queue := Listed(roots);
    forall x | x in roots ensures Reach(succ, roots, x) { ReachRoot(succ, roots, x); }
    while queue != []
      invariant PushInvariant(succ, roots, all, marked, queue)
      decreases |all - marked|, |queue|
    {
      var name := queue[|queue| - 1];
      var found := Listed(succ(name) - marked);
      PushStep(succ, roots, all, marked, queue, found);
      PushProgress(all, marked, succ(name), found);
      marked := marked + succ(name);
      queue := queue[..|queue| - 1] + found;
    }
    ClosedIsReachable(succ, roots, marked);
  }
}
