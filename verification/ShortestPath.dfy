/**
 Breadth-first search for the first shortest walk of a finite directed graph whose
 vertices list their successors in order. The walk found is not only shortest: among the
 shortest walks it is the one that takes the earliest listed successor at the first vertex
 where they part. That makes the answer unique, so callers can compute with it.
 */
module ShortestPath {

  // ---- Walks ------------------------------------------------------------------

  ghost function Init<T>(s: seq<T>): seq<T>
    requires s != []
  {
    s[..|s| - 1]
  }

  ghost function Last<T>(s: seq<T>): T
    requires s != []
  {
    s[|s| - 1]
  }

  ghost function End<S>(from: S, path: seq<S>): S {
    if path == [] then from else Last(path)
  }

  ghost predicate IsWalk<S>(next: S -> seq<S>, from: S, path: seq<S>)
    decreases |path|
  {
    path == [] || (IsWalk(next, from, Init(path)) && Last(path) in next(End(from, Init(path))))
  }

  lemma LastStep<S>(next: S -> seq<S>, from: S, path: seq<S>)
    requires IsWalk(next, from, path) && path != []
    ensures IsWalk(next, from, Init(path)) && Last(path) in next(End(from, Init(path)))
  {
  }

  ghost predicate Leads<S>(next: S -> seq<S>, from: S, to: S, path: seq<S>) {
    IsWalk(next, from, path) && End(from, path) == to
  }

  ghost predicate Reachable<S(!new)>(next: S -> seq<S>, from: S, to: S) {
    exists path :: Leads(next, from, to, path)
  }

  lemma OneStep<S>(next: S -> seq<S>, from: S, to: S)
    requires to in next(from)
    ensures Leads(next, from, to, [to])
  {
    assert Init([to]) == [];
  }

  /** A walk taken apart at its first step. */
  lemma {:induction false} WalkFront<S>(next: S -> seq<S>, from: S, path: seq<S>)
    requires IsWalk(next, from, path) && path != []
    ensures path[0] in next(from) && IsWalk(next, path[0], path[1..])
    decreases |path|
  {
    if |path| > 1 {
      WalkFront(next, from, Init(path));
      assert Init(path)[1..] == Init(path[1..]);
    }
  }

  lemma {:induction false} WalkPrefix<S>(next: S -> seq<S>, from: S, path: seq<S>, n: nat)
    requires IsWalk(next, from, path) && n <= |path|
    ensures IsWalk(next, from, path[..n])
    decreases |path|
  {
    if n == |path| {
      assert path[..n] == path;
    } else {
      WalkPrefix(next, from, Init(path), n);
      assert Init(path)[..n] == path[..n];
    }
  }

  // ---- The order in which the search meets walks --------------------------------

  /** The position of the first occurrence of v. */
  ghost function Rank<S>(list: seq<S>, v: S): (r: nat)
    requires v in list
    ensures r < |list| && list[r] == v
  {
    if list[0] == v then 0 else 1 + Rank(list[1..], v)
  }

  lemma {:induction false} RankIsFirst<S>(list: seq<S>, i: nat)
    requires i < |list|
    ensures Rank(list, list[i]) <= i
    ensures list[i] !in list[..i] ==> Rank(list, list[i]) == i
  {
    if list[0] != list[i] {
      RankIsFirst(list[1..], i - 1);
      assert forall v | v in list[1..][..i - 1] :: v in list[..i];
    } else if i > 0 {
      assert list[..i][0] == list[i];
    }
  }

  ghost function Ranks<S>(next: S -> seq<S>, from: S, path: seq<S>): (r: seq<nat>)
    requires IsWalk(next, from, path)
    ensures |r| == |path|
    decreases |path|
  {
    if path == [] then []
    else Ranks(next, from, Init(path)) + [Rank(next(End(from, Init(path))), Last(path))]
  }

  /** Shorter first; equally long sequences by the first position where they differ. */
  ghost predicate Precedes(a: seq<nat>, b: seq<nat>)
    decreases |a|
  {
    || |a| < |b|
    || (|a| == |b| != 0 && (Precedes(Init(a), Init(b)) || (Init(a) == Init(b) && Last(a) < Last(b))))
  }

  ghost predicate NotAfter(a: seq<nat>, b: seq<nat>) {
    a == b || Precedes(a, b)
  }

  lemma {:induction false} PrecedesTransitive(a: seq<nat>, b: seq<nat>, c: seq<nat>)
    requires NotAfter(a, b) && NotAfter(b, c)
    ensures NotAfter(a, c)
    ensures a != b || b != c ==> Precedes(a, c)
    decreases |a|
  {
    if |a| == |b| == |c| && a != b && b != c {
      PrecedesTransitive(Init(a), Init(b), Init(c));
    }
  }

  lemma {:induction false} PrecedesIrreflexive(a: seq<nat>)
    ensures !Precedes(a, a)
    decreases |a|
  {
    if a != [] {
      PrecedesIrreflexive(Init(a));
    }
  }

  lemma PrecedesAppend(a: seq<nat>, x: nat, b: seq<nat>, y: nat)
    requires Precedes(a, b) || (a == b && x < y)
    ensures Precedes(a + [x], b + [y])
  {
    assert Init(a + [x]) == a && Init(b + [y]) == b;
  }

  lemma PrecedesLonger(a: seq<nat>, b: seq<nat>)
    requires |a| < |b|
    ensures Precedes(a, b)
  {
  }

  lemma WalkAppend<S>(next: S -> seq<S>, from: S, path: seq<S>, v: S)
    requires IsWalk(next, from, path) && v in next(End(from, path))
    ensures Leads(next, from, v, path + [v])
    ensures Ranks(next, from, path + [v]) == Ranks(next, from, path) + [Rank(next(End(from, path)), v)]
  {
    assert Init(path + [v]) == path;
  }

  lemma {:induction false} SameRanksSameWalk<S>(next: S -> seq<S>, from: S, p: seq<S>, q: seq<S>)
    requires IsWalk(next, from, p) && IsWalk(next, from, q)
    requires Ranks(next, from, p) == Ranks(next, from, q)
    ensures p == q
    decreases |p|
  {
    if p != [] {
      var a, b := Ranks(next, from, p), Ranks(next, from, q);
      assert Ranks(next, from, Init(p)) == Init(a) == Init(b) == Ranks(next, from, Init(q));
      SameRanksSameWalk(next, from, Init(p), Init(q));
      assert Last(a) == Last(b);
      assert p == Init(p) + [Last(p)] && q == Init(q) + [Last(q)];
    }
  }

  lemma {:induction false} FirstRank<S>(next: S -> seq<S>, from: S, path: seq<S>)
    requires IsWalk(next, from, path) && path != []
    ensures path[0] in next(from) && Ranks(next, from, path)[0] == Rank(next(from), path[0])
    decreases |path|
  {
    if |path| > 1 {
      FirstRank(next, from, Init(path));
    }
  }

  lemma {:induction false} FirstRankDecides(a: seq<nat>, b: seq<nat>)
    requires |a| == |b| != 0 && b[0] < a[0]
    ensures !NotAfter(a, b) && Precedes(b, a)
    decreases |a|
  {
    if |a| > 1 {
      FirstRankDecides(Init(a), Init(b));
    } else {
      assert Init(a) == Init(b) == [] && !Precedes([], []);
    }
  }

  // ---- What the search answers ----------------------------------------------------

  /** The walk from `from` to `to` that the search order puts before every other one. */
  ghost predicate IsFirstPath<S(!new)>(next: S -> seq<S>, from: S, to: S, path: seq<S>) {
    && Leads(next, from, to, path)
    && forall walk | Leads(next, from, to, walk) ::
         NotAfter(Ranks(next, from, path), Ranks(next, from, walk))
  }

  /** No path for the vertex itself or an unreachable one, the first shortest walk otherwise. */
  ghost predicate IsSearchResult<S(!new)>(next: S -> seq<S>, from: S, to: S, path: seq<S>) {
    if from == to || !Reachable(next, from, to) then path == []
    else path != [] && IsFirstPath(next, from, to, path)
  }

  lemma SearchResultIsShortest<S(!new)>(next: S -> seq<S>, from: S, to: S, path: seq<S>, walk: seq<S>)
    requires IsSearchResult(next, from, to, path) && Leads(next, from, to, walk)
    ensures |path| <= |walk| && Leads(next, from, to, path)
  {
    if from != to {
      assert NotAfter(Ranks(next, from, path), Ranks(next, from, walk));
    }
  }

  lemma SearchResultUnique<S(!new)>(next: S -> seq<S>, from: S, to: S, p: seq<S>, q: seq<S>)
    requires IsSearchResult(next, from, to, p) && IsSearchResult(next, from, to, q)
    ensures p == q
  {
    if from != to && Reachable(next, from, to) {
      var a, b := Ranks(next, from, p), Ranks(next, from, q);
      assert NotAfter(a, b) && NotAfter(b, a);
      PrecedesTransitive(a, b, a);
      PrecedesIrreflexive(a);
      SameRanksSameWalk(next, from, p, q);
    }
  }

  lemma PrecedesCancel(a: seq<nat>, b: seq<nat>, x: nat)
    requires NotAfter(a + [x], b + [x])
    ensures NotAfter(a, b)
  {
    assert Init(a + [x]) == a && Init(b + [x]) == b;
  }

  /** A vertex with one predecessor is reached through it: first paths to both differ by the last step. */
  lemma OnlyWayIn<S(!new)>(next: S -> seq<S>, from: S, u: S, v: S, path: seq<S>)
    requires from != v && v in next(u) && forall w | v in next(w) :: w == u
    ensures IsFirstPath(next, from, v, path) ==>
              path != [] && path == Init(path) + [v] && IsFirstPath(next, from, u, Init(path))
    ensures IsFirstPath(next, from, u, path) ==> IsFirstPath(next, from, v, path + [v])
  {
    var r := Rank(next(u), v);
    if IsFirstPath(next, from, v, path) {
      var init := Init(path);
      LastStep(next, from, path);
      assert path == init + [v];
      forall walk | Leads(next, from, u, walk)
        ensures NotAfter(Ranks(next, from, init), Ranks(next, from, walk))
      {
        WalkAppend(next, from, walk, v);
        WalkAppend(next, from, init, v);
        PrecedesCancel(Ranks(next, from, init), Ranks(next, from, walk), r);
      }
    }
    if IsFirstPath(next, from, u, path) {
      WalkAppend(next, from, path, v);
      forall walk | Leads(next, from, v, walk)
        ensures NotAfter(Ranks(next, from, path + [v]), Ranks(next, from, walk))
      {
        LastStep(next, from, walk);
        assert walk == Init(walk) + [v];
        WalkAppend(next, from, Init(walk), v);
        if Ranks(next, from, path) != Ranks(next, from, Init(walk)) {
          PrecedesAppend(Ranks(next, from, path), r, Ranks(next, from, Init(walk)), r);
        }
      }
    }
  }

  // ---- What the search keeps --------------------------------------------------------

  /** The walk by which a vertex was met, with its place in the search order. */
  datatype Meeting<S> = Meeting(path: seq<S>, rank: seq<nat>)

  ghost predicate Recorded<S>(next: S -> seq<S>, from: S, found: map<S, Meeting<S>>) {
    && from in found && found[from] == Meeting([], [])
    && forall v | v in found :: && Leads(next, from, v, found[v].path)
                                && found[v].rank == Ranks(next, from, found[v].path)
  }

  /** The first successors of v have been met, none later than through v. */
  ghost predicate Expanded<S>(next: S -> seq<S>, found: map<S, Meeting<S>>, v: S, upTo: nat)
    requires v in found && upTo <= |next(v)|
  {
    forall w | w in next(v)[..upTo] ::
      w in found && NotAfter(found[w].rank, found[v].rank + [Rank(next(v), w)])
  }

  /** Vertices still to expand: met in this order, before anything met from now on. */
  ghost predicate Ordered<S>(found: map<S, Meeting<S>>, queue: seq<S>, horizon: seq<nat>) {
    && (forall v | v in queue :: v in found && Precedes(found[v].rank, horizon))
    && (forall i, j | 0 <= i < j < |queue| :: queue[j] in found && queue[i] in found
                                              && Precedes(found[queue[i]].rank, found[queue[j]].rank))
  }

  /** Amid the successors of u: `done` is expanded, `queue` waits behind u. */
  ghost predicate Searching<S>(next: S -> seq<S>, from: S, to: S, found: map<S, Meeting<S>>, done: set<S>,
                               u: S, i: nat, queue: seq<S>)
  {
    && Recorded(next, from, found) && to !in found
    && found.Keys == done + {u} + Elements(queue)
    && u !in done && u !in queue && (forall v | v in queue :: v !in done)
    && i <= |next(u)| && Expanded(next, found, u, i)
    && (forall v | v in done :: Precedes(found[v].rank, found[u].rank) && Expanded(next, found, v, |next(v)|))
    && (forall v | v in queue :: Precedes(found[u].rank, found[v].rank))
    && Ordered(found, queue, found[u].rank + [i])
  }

  ghost function Elements<S>(s: seq<S>): set<S> {
    set v | v in s
  }

  ghost predicate Exhausted<S>(next: S -> seq<S>, from: S, to: S, found: map<S, Meeting<S>>) {
    && Recorded(next, from, found) && to !in found
    && forall v | v in found :: Expanded(next, found, v, |next(v)|)
  }

  /** The search between two expansions. */
  ghost predicate Pending<S>(next: S -> seq<S>, from: S, to: S, found: map<S, Meeting<S>>, done: set<S>, queue: seq<S>)
  {
    if queue == [] then Exhausted(next, from, to, found)
    else Searching(next, from, to, found, done, queue[0], 0, queue[1..])
  }

  /**
   Every walk either stays among the expanded vertices or leaves them at a vertex that was
   met no later than by this walk.
   */
  lemma {:induction false} LeavesExpanded<S(!new)>(
    next: S -> seq<S>, from: S, found: map<S, Meeting<S>>, done: set<S>, walk: seq<S>) returns (head: seq<S>)
    requires Recorded(next, from, found) && done <= found.Keys
    requires forall v | v in done :: Expanded(next, found, v, |next(v)|)
    requires IsWalk(next, from, walk)
    ensures |head| <= |walk| && head == walk[..|head|] && IsWalk(next, from, head)
    ensures End(from, head) in found && NotAfter(found[End(from, head)].rank, Ranks(next, from, head))
    ensures head == walk || End(from, head) !in done
    decreases |walk|
  {
    if walk == [] {
      head := [];
    } else {
      head := LeavesExpanded(next, from, found, done, Init(walk));
      var u, v := End(from, head), Last(walk);
      if head == Init(walk) && u in done {
        assert v in next(u)[..|next(u)|];
        var r := Rank(next(u), v);
        var a, b, c := found[v].rank, found[u].rank, Ranks(next, from, head);
        if b != c {
          PrecedesAppend(b, r, c, r);
        }
        PrecedesTransitive(a, b + [r], c + [r]);
        head := walk;
      }
    }
  }

  /** No walk to a vertex not met yet comes before the one through the vertex being expanded. */
  lemma NoWalkBefore<S(!new)>(next: S -> seq<S>, from: S, to: S, found: map<S, Meeting<S>>, done: set<S>,
                              u: S, i: nat, queue: seq<S>, walk: seq<S>)
    requires Searching(next, from, to, found, done, u, i, queue)
    requires i < |next(u)| && to == next(u)[i] && Leads(next, from, to, walk)
    ensures NotAfter(Ranks(next, from, found[u].path) + [Rank(next(u), to)], Ranks(next, from, walk))
  {
    hide Rank, Precedes, IsWalk, Ordered;
    var head := LeavesExpanded(next, from, found, done, walk);
    var x := End(from, head);
    assert x == u || x in queue;
    var a, b, c := found[u].rank, found[x].rank, Ranks(next, from, head);
    PrecedesTransitive(a, b, c);
    assert |a| <= |c| by {
      ShorterOrEqual(a, c);
    }
    if |walk| == |head| + 1 {
      LastStep(next, from, walk);
      assert Init(walk) == head;
      if a == c {
        SameRanksSameWalk(next, from, found[u].path, head);
      } else {
        PrecedesAppend(a, Rank(next(u), to), c, Rank(next(x), to));
      }
    } else {
      PrecedesLonger(a + [Rank(next(u), to)], Ranks(next, from, walk));
    }
  }

  lemma ShorterOrEqual(a: seq<nat>, b: seq<nat>)
    requires NotAfter(a, b)
    ensures |a| <= |b|
  {
  }

  /** The walk through the vertex being expanded is the first one to a vertex not met yet. */
  lemma FirstToNew<S(!new)>(next: S -> seq<S>, from: S, to: S, found: map<S, Meeting<S>>, done: set<S>,
                            u: S, i: nat, queue: seq<S>)
    requires Searching(next, from, to, found, done, u, i, queue)
    requires i < |next(u)| && to == next(u)[i]
    ensures IsSearchResult(next, from, to, found[u].path + [to])
  {
    hide Ordered, Expanded, NotAfter, Ranks, IsWalk;
    WalkAppend(next, from, found[u].path, to);
    forall walk | Leads(next, from, to, walk)
      ensures NotAfter(Ranks(next, from, found[u].path + [to]), Ranks(next, from, walk))
    {
      NoWalkBefore(next, from, to, found, done, u, i, queue, walk);
    }
  }

  lemma MeetOne<S>(next: S -> seq<S>, from: S, found: map<S, Meeting<S>>, u: S, v: S)
    requires Recorded(next, from, found) && u in found && v in next(u) && v !in found
    ensures Recorded(next, from,
                     found[v := Meeting(found[u].path + [v], found[u].rank + [Rank(next(u), v)])])
  {
    WalkAppend(next, from, found[u].path, v);
  }

  lemma HorizonMoves(rank: seq<nat>, u: seq<nat>, i: nat)
    requires Precedes(rank, u + [i])
    ensures Precedes(rank, u + [i + 1])
  {
    PrecedesAppend(u, i, u, i + 1);
    PrecedesTransitive(rank, u + [i], u + [i + 1]);
  }

  lemma MeetNew<S>(next: S -> seq<S>, from: S, to: S, found: map<S, Meeting<S>>, done: set<S>,
                   u: S, i: nat, queue: seq<S>, found': map<S, Meeting<S>>)
    requires Searching(next, from, to, found, done, u, i, queue)
    requires i < |next(u)| && next(u)[i] !in found && next(u)[i] != to
    requires found' == found[next(u)[i] := Meeting(found[u].path + [next(u)[i]], found[u].rank + [i])]
    ensures Searching(next, from, to, found', done, u, i + 1, queue + [next(u)[i]])
  {
    hide Recorded, Precedes, Rank;
    var v, rank := next(u)[i], found[u].rank;
    RankIsFirst(next(u), i);
    MeetOne(next, from, found, u, v);
    PrecedesLonger(rank, rank + [i]);
    assert Ordered(found', queue + [v], rank + [i + 1]) by {
      PrecedesAppend(rank, i, rank, i + 1);
      forall w | w in queue ensures Precedes(found[w].rank, rank + [i + 1]) {
        HorizonMoves(found[w].rank, rank, i);
      }
    }
    assert Expanded(next, found', u, i + 1) by {
      assert next(u)[..i + 1] == next(u)[..i] + [v];
    }
    forall w | w in done ensures Expanded(next, found', w, |next(w)|) {
      assert Expanded(next, found, w, |next(w)|);
    }
    assert found'.Keys == done + {u} + Elements(queue + [v]) by {
      assert Elements(queue + [v]) == Elements(queue) + {v};
    }
  }

  lemma SkipMet<S>(next: S -> seq<S>, from: S, to: S, found: map<S, Meeting<S>>, done: set<S>,
                   u: S, i: nat, queue: seq<S>)
    requires Searching(next, from, to, found, done, u, i, queue)
    requires i < |next(u)| && next(u)[i] in found
    ensures Searching(next, from, to, found, done, u, i + 1, queue)
  {
    hide Recorded, Precedes;
    var v, rank := next(u)[i], found[u].rank;
    RankIsFirst(next(u), i);
    var r := Rank(next(u), v);
    hide Rank;
    assert Expanded(next, found, u, i + 1) by {
      assert next(u)[..i + 1] == next(u)[..i] + [v];
      PrecedesLonger(rank, rank + [r]);
      if r < i {
        assert v == next(u)[..i][r];
      } else if v in done {
        PrecedesTransitive(found[v].rank, rank, rank + [r]);
      } else {
        assert v == u || v in queue;
      }
    }
    hide Expanded;
    forall w | w in queue ensures Precedes(found[w].rank, rank + [i + 1]) {
      HorizonMoves(found[w].rank, rank, i);
    }
  }

  lemma Advance<S>(next: S -> seq<S>, from: S, to: S, found: map<S, Meeting<S>>, done: set<S>, u: S, queue: seq<S>)
    requires Searching(next, from, to, found, done, u, |next(u)|, queue)
    ensures Pending(next, from, to, found, done + {u}, queue)
  {
    hide Recorded, Precedes, Rank;
    if queue != [] {
      var x, rest := queue[0], queue[1..];
      var rank, rank' := found[u].rank, found[x].rank;
      forall v | v in done + {u} ensures Precedes(found[v].rank, rank') {
        PrecedesTransitive(found[v].rank, rank, rank');
      }
      assert Behind(found, x, rest) && Elements(queue) == {x} + Elements(rest) by {
        FirstOfQueue(found, queue, rank + [|next(u)|]);
      }
      PrecedesAppend(rank, |next(u)|, rank', 0);
      assert Ordered(found, rest, rank' + [0]) by {
        forall v | v in rest ensures Precedes(found[v].rank, rank' + [0]) {
          PrecedesTransitive(found[v].rank, rank + [|next(u)|], rank' + [0]);
        }
        forall i, j | 0 <= i < j < |rest| ensures Precedes(found[rest[i]].rank, found[rest[j]].rank) {
          assert rest[i] == queue[i + 1] && rest[j] == queue[j + 1];
        }
      }
    }
  }

  ghost predicate Behind<S>(found: map<S, Meeting<S>>, x: S, rest: seq<S>) {
    && x in found && x !in rest
    && forall v | v in rest :: v in found && Precedes(found[x].rank, found[v].rank)
  }

  lemma FirstOfQueue<S>(found: map<S, Meeting<S>>, queue: seq<S>, horizon: seq<nat>)
    requires queue != [] && Ordered(found, queue, horizon)
    ensures Behind(found, queue[0], queue[1..])
    ensures Elements(queue) == {queue[0]} + Elements(queue[1..])
  {
    var x, rest := queue[0], queue[1..];
    forall v | v in rest ensures Precedes(found[x].rank, found[v].rank) {
      var j :| 0 <= j < |rest| && rest[j] == v;
      assert v == queue[j + 1];
    }
    PrecedesIrreflexive(found[x].rank);
    assert queue == [x] + rest;
  }

  lemma NothingLeft<S(!new)>(next: S -> seq<S>, from: S, to: S, found: map<S, Meeting<S>>)
    requires Exhausted(next, from, to, found)
    ensures !Reachable(next, from, to)
  {
    forall walk ensures !Leads(next, from, to, walk) {
      if Leads(next, from, to, walk) {
        var head := LeavesExpanded(next, from, found, found.Keys, walk);
        assert false;
      }
    }
  }

  // ---- The search ---------------------------------------------------------------------

  ghost function States<S>(queue: seq<(S, seq<S>)>): (states: seq<S>)
    ensures |states| == |queue|
  {
    seq(|queue|, i requires 0 <= i < |queue| => queue[i].0)
  }

  ghost predicate PathsOf<S>(found: map<S, Meeting<S>>, queue: seq<(S, seq<S>)>) {
    forall e | e in queue :: e.0 in found && e.1 == found[e.0].path
  }

  lemma SearchFails<S(!new)>(next: S -> seq<S>, from: S, to: S)
    requires from == to || !Reachable(next, from, to)
    ensures IsSearchResult(next, from, to, [])
  {
  }

  lemma SearchStarts<S>(next: S -> seq<S>, from: S, to: S)
    requires from != to
    ensures Pending(next, from, to, map[from := Meeting([], [])], {}, [from])
  {
  }

  lemma Facts<S>(next: S -> seq<S>, from: S, to: S, found: map<S, Meeting<S>>, done: set<S>,
                 u: S, i: nat, queue: seq<S>)
    requires Searching(next, from, to, found, done, u, i, queue)
    ensures u in found && to !in found && done <= found.Keys && u !in done
  {
  }

  lemma Resume<S>(next: S -> seq<S>, from: S, to: S, found: map<S, Meeting<S>>, done: set<S>, queue: seq<S>)
    requires Pending(next, from, to, found, done, queue)
    ensures if queue == [] then Exhausted(next, from, to, found)
            else Searching(next, from, to, found, done, queue[0], 0, queue[1..])
  {
  }

  lemma Popped<S>(found: map<S, Meeting<S>>, queue: seq<(S, seq<S>)>)
    requires PathsOf(found, queue) && queue != []
    ensures PathsOf(found, queue[1..]) && States(queue)[1..] == States(queue[1..])
    ensures States(queue)[0] == queue[0].0 && queue[0].0 in found && found[queue[0].0].path == queue[0].1
  {
    assert States(queue)[1..] == States(queue[1..]);
  }

  lemma Pushed<S>(found: map<S, Meeting<S>>, queue: seq<(S, seq<S>)>, v: S, m: Meeting<S>)
    requires PathsOf(found, queue) && v !in found
    ensures PathsOf(found[v := m], queue + [(v, m.path)]) && States(queue + [(v, m.path)]) == States(queue) + [v]
  {
    assert States(queue + [(v, m.path)]) == States(queue) + [v];
  }

  method Search<S(==,!new)>(next: S -> seq<S>, from: S, to: S, ghost vertices: set<S>) returns (path: seq<S>)
    requires from in vertices
    requires forall v | v in vertices :: forall w | w in next(v) :: w in vertices
    ensures IsSearchResult(next, from, to, path)
  {
    hide Searching, Pending, Exhausted, IsSearchResult;
    if from == to {
      SearchFails(next, from, to);
      return [];
    }
    var queue := [(from, [])];
    var visited := {from};
    ghost var found := map[from := Meeting([], [])];
    ghost var done: set<S> := {};
    SearchStarts(next, from, to);
    assert States(queue) == [from] && PathsOf(found, queue);
    hide States, PathsOf;
    while queue != []
      invariant visited == found.Keys <= vertices && done <= visited && PathsOf(found, queue)
      invariant Pending(next, from, to, found, done, States(queue))
      decreases |vertices - done|
    {
      Resume(next, from, to, found, done, States(queue));
      Popped(found, queue);
      var (state, walked) := queue[0];
      queue := queue[1..];
      var successors := next(state);
      for i := 0 to |successors|
        invariant visited == found.Keys <= vertices && done <= visited && PathsOf(found, queue)
        invariant state in found && found[state].path == walked
        invariant Searching(next, from, to, found, done, state, i, States(queue))
      {
        var v := successors[i];
        Facts(next, from, to, found, done, state, i, States(queue));
        if v in visited {
          SkipMet(next, from, to, found, done, state, i, States(queue));
        } else {
          var extended := walked + [v];
          if v == to {
            FirstToNew(next, from, to, found, done, state, i, States(queue));
            return extended;
          }
          visited := visited + {v};
          ghost var met := found[v := Meeting(extended, found[state].rank + [i])];
          MeetNew(next, from, to, found, done, state, i, States(queue), met);
          Pushed(found, queue, v, Meeting(extended, found[state].rank + [i]));
          queue := queue + [(v, extended)];
          found := met;
        }
      }
      Advance(next, from, to, found, done, state, States(queue));
      Facts(next, from, to, found, done, state, |successors|, States(queue));
      assert vertices - done == (vertices - (done + {state})) + {state};
      done := done + {state};
    }
    Resume(next, from, to, found, done, States(queue));
    NothingLeft(next, from, to, found);
    SearchFails(next, from, to);
    return [];
  }
}
