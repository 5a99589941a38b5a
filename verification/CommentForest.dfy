/** The thread nodes handed to the client, linked by assigning each node's replies in place. */
module CommentForest {
  import opened Options
  import opened Comments
  import opened CommentThreads
  import opened StableSort

  class ThreadNode {
    const comment: Comment
    var replies: seq<ThreadNode>

    constructor (comment: Comment)
      ensures this.comment == comment && replies == []
    {
      this.comment := comment;
      replies := [];
    }
  }

  type Index = map<CommentId, ThreadNode>

  /** The nodes of those ids that have one. */
  function Nodes(byId: Index, ids: seq<CommentId>): seq<ThreadNode> {
    if ids == [] then [] else (if ids[0] in byId then [byId[ids[0]]] else []) + Nodes(byId, ids[1..])
  }

  function Stamped(byId: Index, ids: seq<CommentId>): seq<Keyed<CommentId>>
    requires forall id :: id in ids ==> id in byId
  {
    if ids == [] then [] else [Keyed(byId[ids[0]].comment.createdAt, ids[0])] + Stamped(byId, ids[1..])
  }

  /** One node for each row, found under its id. */
  ghost predicate Indexes(byId: Index, rows: seq<Comment>) {
    && (forall id :: id in byId <==> id in Ids(rows))
    && (forall id :: id in byId ==> byId[id].comment.id == id && byId[id].comment in rows)
    && (forall c :: c in rows ==> c.id in byId && byId[c.id].comment == c)
  }

  lemma {:induction false} StampedJoin(byId: Index, a: seq<CommentId>, b: seq<CommentId>)
    requires forall id :: id in a + b ==> id in byId
    ensures Stamped(byId, a + b) == Stamped(byId, a) + Stamped(byId, b)
  {
    if a == [] {
      assert a + b == b;
    } else {
      assert (a + b)[1..] == a[1..] + b;
      StampedJoin(byId, a[1..], b);
    }
  }

  /** Looking the creation times up again gives the rows' own. */
  lemma {:induction false} StampedChildren(byId: Index, rows: seq<Comment>, p: Option<CommentId>)
    requires forall c :: c in rows ==> c.id in byId && byId[c.id].comment == c
    ensures forall id :: id in Items(ChildrenOf(rows, p)) ==> id in byId
    ensures Stamped(byId, Items(ChildrenOf(rows, p))) == ChildrenOf(rows, p)
  {
    if rows != [] {
      var front, last := rows[..|rows| - 1], rows[|rows| - 1];
      assert last in rows;
      StampedChildren(byId, front, p);
      var one := if last.parent == p then [Keyed(last.createdAt, last.id)] else [];
      ItemsJoin(ChildrenOf(front, p), one);
      assert Items(one) == if last.parent == p then [last.id] else [];
      StampedJoin(byId, Items(ChildrenOf(front, p)), Items(one));
    }
  }

  lemma {:induction false} PrefixIds(rows: seq<Comment>, i: nat)
    requires i < |rows|
    ensures Ids(rows[..i]) == Ids(rows)[..i] && Ids(rows)[i] == rows[i].id
  {
    var front := rows[..|rows| - 1];
    if i < |front| {
      PrefixIds(front, i);
      assert front[..i] == rows[..i];
    } else {
      assert rows[..i] == front;
    }
  }

  lemma {:induction false} NewId(rows: seq<Comment>, i: nat)
    requires i < |rows| && NoRepeats(Ids(rows))
    ensures rows[i].id !in Ids(rows[..i])
  {
    var ids := Ids(rows);
    PrefixIds(rows, i);
    assert ids == ids[..i] + [ids[i]] + ids[i + 1..];
    assert multiset(ids) == multiset(ids[..i]) + multiset{ids[i]} + multiset(ids[i + 1..]);
    assert ids[i] in ids && multiset(ids[..i])[ids[i]] == 0;
  }

  lemma {:induction false} NextIndexed(byId: Index, rows: seq<Comment>, i: nat, node: ThreadNode)
    requires i < |rows| && NoRepeats(Ids(rows)) && Indexes(byId, rows[..i]) && node.comment == rows[i]
    ensures Indexes(byId[rows[i].id := node], rows[..i + 1])
  {
    hide NoRepeats;
    var front, c := rows[..i], rows[i];
    NewId(rows, i);
    assert rows[..i + 1][..i] == front;
    assert Ids(rows[..i + 1]) == Ids(front) + [c.id];
    hide Ids;
    assert rows[..i + 1] == front + [c];
    assert c.id !in byId;
  }

  lemma NextChildren(rows: seq<Comment>, i: nat, p: Option<CommentId>)
    requires i < |rows|
    ensures Items(ChildrenOf(rows[..i + 1], p)) ==
            Items(ChildrenOf(rows[..i], p)) + if rows[i].parent == p then [rows[i].id] else []
  {
    assert rows[..i + 1][..i] == rows[..i];
    var one := if rows[i].parent == p then [Keyed(rows[i].createdAt, rows[i].id)] else [];
    ItemsJoin(ChildrenOf(rows[..i], p), one);
    assert Items(one) == if rows[i].parent == p then [rows[i].id] else [];
  }

  /** The dictionary of children agrees with the rows. */
  ghost predicate Groups(children: map<Option<CommentId>, seq<CommentId>>, rows: seq<Comment>) {
    forall p :: Items(ChildrenOf(rows, p)) == if p in children then children[p] else []
  }

  lemma NextGroups(children: map<Option<CommentId>, seq<CommentId>>, rows: seq<Comment>, i: nat)
    requires i < |rows| && Groups(children, rows[..i])
    ensures var p := rows[i].parent;
            Groups(children[p := (if p in children then children[p] else []) + [rows[i].id]], rows[..i + 1])
  {
    hide ChildrenOf, Items;
    forall p { NextChildren(rows, i, p); }
  }

  /** A node for every row, and the ids that answer each parent, in row order. */
  method IndexRows(rows: seq<Comment>) returns (byId: Index, children: map<Option<CommentId>, seq<CommentId>>)
    requires NoRepeats(Ids(rows))
    ensures Indexes(byId, rows) && (forall id :: id in byId ==> fresh(byId[id]) && byId[id].replies == [])
    ensures Groups(children, rows)
  {
    hide Indexes, Groups, NoRepeats;
    byId, children := map[], map[];
    assert Indexes(byId, rows[..0]) && Groups(children, rows[..0]) by { NothingIndexed(); }
    var i := 0;
    while i < |rows|
      invariant i <= |rows| && Indexes(byId, rows[..i]) && Groups(children, rows[..i])
      invariant forall id :: id in byId ==> fresh(byId[id]) && byId[id].replies == []
    {
      var c := rows[i];
      var node := new ThreadNode(c);
      NextIndexed(byId, rows, i, node);
      NextGroups(children, rows, i);
      byId := byId[c.id := node];
      children := children[c.parent := (if c.parent in children then children[c.parent] else []) + [c.id]];
      i := i + 1;
    }
    assert rows[..i] == rows;
  }

  lemma NothingIndexed()
    ensures Indexes(map[], []) && Groups(map[], [])
  {
  }

  /** The replies of every parent taken so far are in place, and no others. */
  ghost predicate Assigned(byId: Index, rows: seq<Comment>, done: set<Option<CommentId>>)
    reads set id | id in byId :: byId[id]
  {
    forall id :: id in byId ==> byId[id].replies == if Some(id) in done then Nodes(byId, Replies(rows, id)) else []
  }

  ghost predicate RepliesLinked(byId: Index, rows: seq<Comment>)
    reads set id | id in byId :: byId[id]
  {
    forall id :: id in byId ==> byId[id].replies == Nodes(byId, Replies(rows, id))
  }

  lemma RepliesFrom(byId: Index, children: map<Option<CommentId>, seq<CommentId>>, rows: seq<Comment>, id: CommentId)
    requires Indexes(byId, rows) && Groups(children, rows)
    ensures Some(id) in children ==>
              && (forall x :: x in children[Some(id)] ==> x in byId)
              && Items(Sort(Stamped(byId, children[Some(id)]))) == Replies(rows, id)
    ensures Some(id) !in children ==> Replies(rows, id) == []
  {
    hide ChildrenOf, Items, Sort;
    StampedChildren(byId, rows, Some(id));
    SortItems(ChildrenOf(rows, Some(id)));
    if Some(id) !in children {
      assert multiset(Replies(rows, id)) == multiset{};
      assert |multiset(Replies(rows, id))| == 0;
    }
  }

  lemma AllAssigned(byId: Index, children: map<Option<CommentId>, seq<CommentId>>, rows: seq<Comment>)
    requires Indexes(byId, rows) && Groups(children, rows) && Assigned(byId, rows, children.Keys)
    ensures RepliesLinked(byId, rows)
  {
    hide Groups, Indexes, Replies;
    forall id | id in byId ensures byId[id].replies == Nodes(byId, Replies(rows, id)) {
      RepliesFrom(byId, children, rows, id);
    }
  }

  method BuildCommentThreads(rows: seq<Comment>, rootIds: seq<CommentId>)
    returns (forest: seq<ThreadNode>, ghost index: Index)
    requires NoRepeats(Ids(rows))
    ensures Indexes(index, rows) && (forall id :: id in index ==> fresh(index[id]))
    ensures RepliesLinked(index, rows)
    ensures forest == Nodes(index, rootIds)
  {
    hide Groups, Replies, Nodes, Stamped, RepliesLinked, NoRepeats;
    var byId, children := IndexRows(rows);
    var todo := children.Keys;
    while todo != {}
      invariant todo <= children.Keys && Assigned(byId, rows, children.Keys - todo)
      decreases |todo|
    {
      var p :| p in todo;
      todo := todo - {p};
      if p.Some? && p.value in byId {
        RepliesFrom(byId, children, rows, p.value);
        byId[p.value].replies := Nodes(byId, Items(Sort(Stamped(byId, children[p]))));
      }
    }
    assert children.Keys - todo == children.Keys;
    AllAssigned(byId, children, rows);
    forest := Nodes(byId, rootIds);
    index := byId;
  }

  // ---- What a client sees ----

  /** The ids met by following the nodes' own links, `levels` deep. */
  ghost function Walk(nodes: seq<ThreadNode>, levels: nat): seq<CommentId>
    reads *
    decreases levels, |nodes|
  {
    if nodes == [] || levels == 0 then []
    else [nodes[0].comment.id] + Walk(nodes[0].replies, levels - 1) + Walk(nodes[1..], levels)
  }

  lemma {:induction false} WalkIsPreorder(index: Index, rows: seq<Comment>, ids: seq<CommentId>, levels: nat)
    requires NoRepeats(Ids(rows)) && Indexes(index, rows) && RepliesLinked(index, rows)
    requires forall id :: id in ids ==> id in index
    ensures Walk(Nodes(index, ids), levels) == Preorder(rows, ids, levels)
    decreases levels, |ids|
  {
    hide Replies, NoRepeats, RepliesLinked;
    if ids != [] && levels > 0 {
      var x := ids[0];
      ReplyNodes(index, rows, x);
      assert index[x].replies == Nodes(index, Replies(rows, x)) by { LinkedAt(index, rows, x); }
      WalkIsPreorder(index, rows, Replies(rows, x), levels - 1);
      WalkIsPreorder(index, rows, ids[1..], levels);
      assert Nodes(index, ids)[1..] == Nodes(index, ids[1..]);
    }
  }

  lemma LinkedAt(index: Index, rows: seq<Comment>, id: CommentId)
    requires RepliesLinked(index, rows) && id in index
    ensures index[id].replies == Nodes(index, Replies(rows, id))
  {
  }

  lemma ReplyNodes(index: Index, rows: seq<Comment>, x: CommentId)
    requires NoRepeats(Ids(rows)) && Indexes(index, rows)
    ensures forall c :: c in Replies(rows, x) ==> c in index
  {
    RepliesAre(rows, map id | id in index :: index[id].comment, x);
  }

  /** A page of threads: following the links from its roots meets every comment that visible replies join to a
      root exactly once, and no other comment. */
  method ListThreads(t: Table, hidden: set<UserId>, rootIds: seq<CommentId>) returns (forest: seq<ThreadNode>)
    requires Shaped(t) && IsPage(t, hidden, rootIds)
    ensures forall levels, id :: levels > MAX_REPLY_DEPTH ==>
              multiset(Walk(forest, levels))[id] ==
              if Visible(t, hidden, id) && Reachable(t, hidden, rootIds, id) then 1 else 0
    ensures |forest| == |rootIds| && forall i :: 0 <= i < |forest| ==> forest[i].comment.id == rootIds[i]
  {
    hide RepliesLinked, Walk, Preorder, Visible, Reachable;
    assert HasKeys(t) by { ShapedHasKeys(t); }
    var rows := FetchThreadRows(t, rootIds, hidden);
    ghost var index;
    forest, index := BuildCommentThreads(rows, rootIds);
    RootsIndexed(t, hidden, rootIds, rows);
    NodesOf(index, rootIds);
    forall levels: nat, id | levels > MAX_REPLY_DEPTH
      ensures multiset(Walk(forest, levels))[id] ==
              if Visible(t, hidden, id) && Reachable(t, hidden, rootIds, id) then 1 else 0
    {
      WalkIsPreorder(index, rows, rootIds, levels);
      ShownOnce(t, hidden, rootIds, rows, levels);
      assert id in Ids(rows) <==> Visible(t, hidden, id) && Reachable(t, hidden, rootIds, id);
    }
  }

  lemma ShapedHasKeys(t: Table)
    requires Shaped(t)
    ensures HasKeys(t)
  {
    forall id | id in t ensures t[id].id == id {
      assert Linked(t, id);
    }
  }

  lemma RootsIndexed(t: Table, hidden: set<UserId>, rootIds: seq<CommentId>, rows: seq<Comment>)
    requires IsPage(t, hidden, rootIds) && IsFetched(t, hidden, rootIds, rows)
    ensures forall r :: r in rootIds ==> r in Ids(rows)
  {
    forall r | r in rootIds ensures r in Ids(rows) {
      assert Reached(t, hidden, rootIds, r, 0);
    }
  }

  lemma {:induction false} NodesOf(index: Index, ids: seq<CommentId>)
    requires forall id :: id in ids ==> id in index
    ensures |Nodes(index, ids)| == |ids| && forall i :: 0 <= i < |ids| ==> Nodes(index, ids)[i] == index[ids[i]]
  {
    if ids != [] {
      NodesOf(index, ids[1..]);
    }
  }
}
