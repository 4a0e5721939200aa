/** Plant construction: every node may name the nodes it takes resources from
    (its From list); construction checks that each named node exists and
    derives every node's To list, the nodes that name it, in definition order. */
module Linking {
  import opened Outcomes

  /** A link list per node; None where the node declared none. */
  type Links = map<string, Option<seq<string>>>

  /** The definitions in order: no node twice, and exactly the nodes that have
      an entry in `from`. */
  predicate Listing(order: seq<string>, from: Links) {
    (forall i, j :: 0 <= i < j < |order| ==> order[i] != order[j]) &&
    (forall k :: k in from ==> k in order) &&
    (forall i :: 0 <= i < |order| ==> order[i] in from)
  }

  /** The pairs (k, b) for the backlinks b of node k, in list order. */
  function PairsOf(k: string, l: seq<string>): (r: seq<(string, string)>)
    ensures |r| == |l|
    ensures forall j :: 0 <= j < |l| ==> r[j] == (k, l[j])
  {
    if l == [] then [] else PairsOf(k, l[..|l| - 1]) + [(k, l[|l| - 1])]
  }

  /** The pairs (k, b) of every node k of `keys`, in the order construction visits them. */
  function Edges(keys: seq<string>, from: Links): seq<(string, string)>
    requires forall k :: k in keys ==> k in from
  {
    if keys == [] then []
    else
      var k := keys[|keys| - 1];
      Edges(keys[..|keys| - 1], from) + (if from[k].Some? then PairsOf(k, from[k].value) else [])
  }

  lemma {:induction false} EdgesMembers(keys: seq<string>, from: Links, k: string, b: string)
    requires forall x :: x in keys ==> x in from
    ensures (k, b) in Edges(keys, from) <==> k in keys && from[k].Some? && b in from[k].value
  {
    if keys != [] {
      var last := keys[|keys| - 1];
      var init := keys[..|keys| - 1];
      assert keys == init + [last];
      EdgesMembers(init, from, k, b);
      if from[last].Some? {
        var ps := PairsOf(last, from[last].value);
        assert (k, b) in ps <==> k == last && b in from[last].value by {
          if (k, b) in ps {
            var j :| 0 <= j < |ps| && ps[j] == (k, b);
          }
          if k == last && b in from[last].value {
            var j :| 0 <= j < |from[last].value| && from[last].value[j] == b;
            assert ps[j] == (k, b);
          }
        }
      }
    }
  }

  /** The nodes that name b, once per time they name it, in visiting order. */
  function Naming(edges: seq<(string, string)>, b: string): seq<string> {
    if edges == [] then []
    else Naming(edges[..|edges| - 1], b) + (if edges[|edges| - 1].1 == b then [edges[|edges| - 1].0] else [])
  }

  lemma {:induction false} NamingMembers(edges: seq<(string, string)>, b: string, k: string)
    ensures k in Naming(edges, b) <==> (k, b) in edges
  {
    if edges != [] {
      var init := edges[..|edges| - 1];
      assert edges == init + [edges[|edges| - 1]];
      NamingMembers(init, b, k);
    }
  }

  /** The first backlink, in visiting order, that names no node of `known`. */
  function FirstUnknown(edges: seq<(string, string)>, known: set<string>): (r: Option<string>)
    ensures r.None? <==> forall j :: 0 <= j < |edges| ==> edges[j].1 in known
    ensures r.Some? ==> r.value !in known
  {
    if edges == [] then None
    else if edges[0].1 !in known then Some(edges[0].1)
    else
      var rest := FirstUnknown(edges[1..], known);
      assert forall j :: 1 <= j < |edges| ==> edges[j] == edges[1..][j - 1];
      rest
  }

  /** When every backlink before the i-th is known and the i-th is not, the
      i-th is the first unknown one. */
  lemma {:induction false} FirstUnknownAt(edges: seq<(string, string)>, known: set<string>, i: int)
    requires 0 <= i < |edges| && edges[i].1 !in known
    requires forall j :: 0 <= j < i ==> edges[j].1 in known
    ensures FirstUnknown(edges, known) == Some(edges[i].1)
  {
    if i > 0 {
      FirstUnknownAt(edges[1..], known, i - 1);
    }
  }

  /** ISRUPlant.__init__'s linking: the first From entry naming an undeclared
      node is refused; otherwise a node's To list holds the nodes naming it, and
      is None when no node does. */
  function Linked(order: seq<string>, from: Links): Result<Links>
    requires Listing(order, from)
  {
    var edges := Edges(order, from);
    match FirstUnknown(edges, from.Keys)
    case Some(x) => Err(UnknownLink(x))
    case None => Ok(AsLinks(map b | b in from :: Naming(edges, b)))
  }

  /** To lists as linking leaves them: an empty list is no list. */
  function AsLinks(lists: map<string, seq<string>>): (r: Links)
    ensures r.Keys == lists.Keys
    ensures forall b :: b in r ==> (r[b].None? <==> lists[b] == []) && (r[b].Some? ==> r[b].value == lists[b])
  {
    map b | b in lists :: if lists[b] == [] then None else Some(lists[b])
  }

  /** Linking fails exactly when some From list names an undeclared node, and
      then it reports an undeclared name. */
  lemma LinkedFails(order: seq<string>, from: Links)
    requires Listing(order, from)
    ensures Linked(order, from).Err? <==>
            exists k, b :: k in from && from[k].Some? && b in from[k].value && b !in from
    ensures Linked(order, from).Err? ==>
            Linked(order, from).error.UnknownLink? && Linked(order, from).error.name !in from
  {
    var edges := Edges(order, from);
    if Linked(order, from).Err? {
      var x := FirstUnknown(edges, from.Keys).value;
      var j :| 0 <= j < |edges| && edges[j].1 !in from.Keys;
      EdgesMembers(order, from, edges[j].0, edges[j].1);
    } else {
      forall k, b | k in from && from[k].Some? && b in from[k].value
        ensures b in from
      {
        EdgesMembers(order, from, k, b);
        var j :| 0 <= j < |edges| && edges[j] == (k, b);
      }
    }
  }

  /** After linking, b is in k's From list exactly when k is in b's To list; To
      lists are never empty, and every node has one (possibly None). */
  lemma LinkedMeans(order: seq<string>, from: Links, b: string, k: string)
    requires Listing(order, from) && Linked(order, from).Ok?
    ensures Linked(order, from).value.Keys == from.Keys
    ensures b in from && k in from ==>
              (Linked(order, from).value[b].Some? && k in Linked(order, from).value[b].value <==>
               from[k].Some? && b in from[k].value)
    ensures b in from && Linked(order, from).value[b].Some? ==>
              |Linked(order, from).value[b].value| > 0 &&
              forall x :: x in Linked(order, from).value[b].value ==> x in from
  {
    var edges := Edges(order, from);
    NamingMembers(edges, b, k);
    EdgesMembers(order, from, k, b);
    forall x | x in Naming(edges, b) ensures x in from {
      NamingMembers(edges, b, x);
      EdgesMembers(order, from, x, b);
    }
  }

  /** The linking loops of ISRUPlant.__init__, over the (node, backlink) pairs
      in the order the nested loops visit them: refuse an unknown name, or
      append the node to the named node's To list; lists that stayed empty
      become None. */
  method Link(order: seq<string>, from: Links) returns (r: Result<Links>)
    requires Listing(order, from)
    ensures r == Linked(order, from)
  {
    var edges := Edges(order, from);
    var to: map<string, seq<string>> := map b | b in from :: [];
    var i := 0;
    while i < |edges|
      invariant 0 <= i <= |edges|
      invariant forall j :: 0 <= j < i ==> edges[j].1 in from
      invariant to.Keys == from.Keys
      invariant forall b :: b in to ==> to[b] == Naming(edges[..i], b)
    {
      var (k, b) := edges[i];
      if b !in from {
        FirstUnknownAt(edges, from.Keys, i);
        return Err(UnknownLink(b));
      }
      NamingStep(edges, i);
      to := to[b := to[b] + [k]];
      i := i + 1;
    }
    assert edges[..i] == edges;
    SameLists(to, map b | b in from :: Naming(edges, b));
    r := Ok(AsLinks(to));
  }

  /** Naming over one more edge appends its node when it names b. */
  lemma NamingStep(edges: seq<(string, string)>, i: int)
    requires 0 <= i < |edges|
    ensures forall b :: Naming(edges[..i + 1], b) ==
                        Naming(edges[..i], b) + (if edges[i].1 == b then [edges[i].0] else [])
  {
    assert edges[..i + 1][..i] == edges[..i];
  }

  /** Two tables over the same names with the same lists are the same. */
  lemma SameLists(a: map<string, seq<string>>, b: map<string, seq<string>>)
    requires a.Keys == b.Keys && forall k :: k in a ==> a[k] == b[k]
    ensures a == b
  {
  }
}
