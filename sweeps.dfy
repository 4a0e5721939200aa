/** The bookkeeping both passes of the plant share: the list of nodes still
    outstanding, which of them are ready for the next sweep, and the order in
    which nodes were processed. */
module Sweeps {
  import opened Outcomes
  import opened Linking

  /** No name twice. */
  predicate Distinct(s: seq<string>) {
    forall i, j :: 0 <= i < j < |s| ==> s[i] != s[j]
  }

  /** Every processed node's links (its successors in setup, its predecessors
      in run) that were processed at all were processed before it. */
  ghost predicate Ordered(links: Links, seen: seq<string>) {
    forall i, j ::
      (0 <= i < |seen| && 0 <= j < |seen| && seen[i] in links && links[seen[i]].Some? &&
       seen[j] in links[seen[i]].value) ==> j < i
  }

  /** Every link of a processed node was processed. */
  ghost predicate Complete(links: Links, seen: seq<string>) {
    forall i :: 0 <= i < |seen| && seen[i] in links && links[seen[i]].Some? ==>
      forall d :: d in links[seen[i]].value ==> d in seen
  }

  /** The schedule so far: the processed nodes `ran`, in the order `seen`,
      no node twice, each after the nodes it links to, whose links were all
      processed. */
  ghost predicate Schedule(links: Links, ran: set<string>, seen: seq<string>) {
    (forall p :: p in ran && p in links && links[p].Some? ==> forall d :: d in links[p].value ==> d in ran) &&
    Distinct(seen) && (forall p :: p in seen <==> p in ran) && Ordered(links, seen) && Complete(links, seen)
  }

  /** A new node whose links were all processed extends the schedule. */
  lemma ScheduleAppend(links: Links, ran: set<string>, seen: seq<string>, q: string)
    requires Schedule(links, ran, seen) && q !in ran
    requires q in links && links[q].Some? ==> forall d :: d in links[q].value ==> d in ran
    ensures Schedule(links, ran + {q}, seen + [q])
  {
    OrderedAppend(links, seen, q);
    var seen' := seen + [q];
    forall i, j | 0 <= i < j < |seen'| ensures seen'[i] != seen'[j] {
      if j < |seen| { assert seen'[i] == seen[i] && seen'[j] == seen[j]; }
      else { assert seen'[i] == seen[i]; }
    }
  }

  /** A new node whose links were all processed may follow. */
  lemma OrderedAppend(links: Links, seen: seq<string>, q: string)
    requires Ordered(links, seen) && Complete(links, seen) && q !in seen
    requires q in links && links[q].Some? ==> forall d :: d in links[q].value ==> d in seen
    ensures Ordered(links, seen + [q]) && Complete(links, seen + [q])
  {
    var seen' := seen + [q];
    forall i, j | 0 <= i < |seen'| && 0 <= j < |seen'| && seen'[i] in links && links[seen'[i]].Some? &&
                  seen'[j] in links[seen'[i]].value
      ensures j < i
    {
      if i < |seen| && j < |seen| {
        assert seen[i] == seen'[i] && seen[j] == seen'[j];
      }
    }
  }

  /** A set of nodes each of which links to a node of the set, `next` naming
      one such link per node: a cycle, or a set no sweep can ever start on. */
  ghost predicate Closed(links: Links, stuck: set<string>, next: map<string, string>) {
    forall p {:trigger p in next} :: p in stuck ==>
      p in next && next[p] in stuck && p in links && links[p].Some? && next[p] in links[p].value
  }

  /** Some node of a closed set sits at or before any given position. */
  lemma {:induction false} ClosedDescends(links: Links, seen: seq<string>, stuck: set<string>,
                                          next: map<string, string>, n: nat) returns (i: int)
    requires Ordered(links, seen) && Closed(links, stuck, next) && stuck != {}
    requires forall p :: p in stuck ==> p in seen
    ensures 0 <= i < |seen| - n && seen[i] in stuck
  {
    if n == 0 {
      var p :| p in stuck;
      assert p in seen;
      i :| 0 <= i < |seen| && seen[i] == p;
    } else {
      var k := ClosedDescends(links, seen, stuck, next, n - 1);
      var q := seen[k];
      assert q in next;
      var d := next[q];
      assert d in seen;
      i :| 0 <= i < |seen| && seen[i] == d;
    }
  }

  /** An order in which every node follows its links leaves no closed set: a
      network whose nodes can be so ordered never dead-ends. */
  lemma OrderedNotClosed(links: Links, seen: seq<string>, stuck: set<string>, next: map<string, string>)
    requires Ordered(links, seen) && stuck != {}
    requires forall p :: p in stuck ==> p in seen
    ensures !Closed(links, stuck, next)
  {
    if Closed(links, stuck, next) {
      var i := ClosedDescends(links, seen, stuck, next, |seen|);
    }
  }

  /** Whether a node is ready for a sweep: in the first sweep, when it has no
      links; afterwards, when all its links have been processed. */
  ghost predicate Ready(links: Links, p: string, ran: set<string>, first: bool)
    requires p in links
  {
    if first then links[p].None?
    else links[p].Some? && forall d :: d in links[p].value ==> d in ran
  }

  /** The nodes a sweep finds ready. */
  ghost function ReadyOf(links: Links, outstanding: seq<string>, ran: set<string>, first: bool): (ready: set<string>)
    requires forall p :: p in outstanding ==> p in links
    ensures forall p :: p in ready <==> p in outstanding && Ready(links, p, ran, first)
  {
    set p | p in outstanding && Ready(links, p, ran, first)
  }

  /** The flag loop over one node's links. */
  method AllRan(l: seq<string>, ran: set<string>) returns (b: bool)
    ensures b <==> forall d :: d in l ==> d in ran
  {
    b := true;
    var i := 0;
    while i < |l|
      invariant 0 <= i <= |l|
      invariant b <==> forall j :: 0 <= j < i ==> l[j] in ran
    {
      if l[i] !in ran {
        b := false;
      }
      i := i + 1;
    }
  }

  /** The Ready flags for the next sweep over the outstanding nodes. */
  method ReadySet(links: Links, outstanding: seq<string>, ran: set<string>, first: bool) returns (ready: set<string>)
    requires forall p :: p in outstanding ==> p in links
    requires !first ==> forall p :: p in outstanding ==> links[p].Some?
    ensures forall p :: p in ready <==> p in outstanding && Ready(links, p, ran, first)
  {
    ready := {};
    var i := 0;
    while i < |outstanding|
      invariant 0 <= i <= |outstanding|
      invariant forall p :: p in ready <==> p in outstanding[..i] && Ready(links, p, ran, first)
    {
      var p := outstanding[i];
      var b: bool;
      if first {
        b := links[p].None?;
      } else {
        b := AllRan(links[p].value, ran);
      }
      assert outstanding[..i + 1] == outstanding[..i] + [p];
      if b {
        ready := ready + {p};
      }
      i := i + 1;
    }
    assert outstanding[..i] == outstanding;
  }

  /** A list without repeats starts with a name its tail lacks, and its tail
      has no repeats. */
  lemma DistinctTail(ps: seq<string>)
    requires ps != [] && Distinct(ps)
    ensures ps[0] !in ps[1..] && Distinct(ps[1..])
  {
    forall i, j | 0 <= i < j < |ps[1..]| ensures ps[1..][i] != ps[1..][j] {
      assert ps[1..][i] == ps[i + 1] && ps[1..][j] == ps[j + 1];
    }
  }

  /** The outstanding list after removing what a sweep processed, order kept. */
  function Without(ps: seq<string>, ran: set<string>): (r: seq<string>)
    ensures forall p :: p in r <==> p in ps && p !in ran
    ensures |r| <= |ps|
    ensures Distinct(ps) ==> Distinct(r)
    ensures (exists p :: p in ps && p in ran) ==> |r| < |ps|
  {
    if ps == [] then []
    else
      var rest := Without(ps[1..], ran);
      assert forall p :: p in ps <==> p == ps[0] || p in ps[1..];
      assert Distinct(ps) ==> ps[0] !in ps[1..] && Distinct(ps[1..]) by {
        if Distinct(ps) { DistinctTail(ps); }
      }
      if ps[0] in ran then rest else [ps[0]] + rest
  }

  /** What a sweep over ps processes, in the order it processes it: the names
      of ps that are in keep, order kept. */
  function Picked(ps: seq<string>, keep: set<string>): (r: seq<string>)
    ensures forall p :: p in r <==> p in ps && p in keep
    ensures Distinct(ps) ==> Distinct(r)
  {
    if ps == [] then []
    else
      var rest := Picked(ps[1..], keep);
      assert forall p :: p in ps <==> p == ps[0] || p in ps[1..];
      assert Distinct(ps) ==> ps[0] !in ps[1..] && Distinct(ps[1..]) by {
        if Distinct(ps) { DistinctTail(ps); }
      }
      if ps[0] in keep then [ps[0]] + rest else rest
  }

  /** A sweep's first step: the head of ps is processed first when kept, and
      passed over otherwise. */
  lemma PickedHead(ran: set<string>, seen: seq<string>, ps: seq<string>, keep: set<string>)
    requires ps != []
    ensures ps[0] in keep ==>
              ran + {ps[0]} + (set p | p in ps[1..] && p in keep) == ran + (set p | p in ps && p in keep) &&
              seen + [ps[0]] + Picked(ps[1..], keep) == seen + Picked(ps, keep)
    ensures ps[0] !in keep ==>
              (set p | p in ps[1..] && p in keep) == (set p | p in ps && p in keep) &&
              Picked(ps[1..], keep) == Picked(ps, keep)
  {
    assert forall p :: p in ps <==> p == ps[0] || p in ps[1..];
    if ps[0] in keep {
      assert Picked(ps, keep) == [ps[0]] + Picked(ps[1..], keep);
      assert seen + [ps[0]] + Picked(ps[1..], keep) == seen + ([ps[0]] + Picked(ps[1..], keep));
    }
  }

  /** Kept names of ps, when every kept name is in ps. */
  lemma PickedAll(ran: set<string>, ps: seq<string>, keep: set<string>)
    requires forall p :: p in keep ==> p in ps
    ensures ran + (set p | p in ps && p in keep) == ran + keep
  {
  }

  lemma Regroup(a: seq<string>, b: seq<string>, c: seq<string>)
    ensures a + b + c == a + (b + c)
  {
  }
}
