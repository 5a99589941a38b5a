/** Showing comments: the breadth-first fetch of the rows below a page of roots, and the tree built from them. */
module CommentThreads {
  import opened Options
  import opened Comments
  import opened StableSort

  predicate Visible(t: Table, hidden: set<UserId>, id: CommentId) {
    Live(t, id) && t[id].author !in hidden
  }

  /** n replies, each visible, lead from a root down to id. */
  predicate Reached(t: Table, hidden: set<UserId>, roots: seq<CommentId>, id: CommentId, n: nat)
    decreases n
  {
    if n == 0 then id in roots
    else Visible(t, hidden, id) && t[id].parent.Some? && Reached(t, hidden, roots, t[id].parent.value, n - 1)
  }

  ghost predicate Reachable(t: Table, hidden: set<UserId>, roots: seq<CommentId>, id: CommentId) {
    exists n: nat :: Reached(t, hidden, roots, id, n)
  }

  function Ids(rows: seq<Comment>): (r: seq<CommentId>)
    ensures |r| == |rows|
  {
    if rows == [] then [] else Ids(rows[..|rows| - 1]) + [rows[|rows| - 1].id]
  }

  ghost predicate NoRepeats<T>(s: seq<T>) {
    forall x :: x in s ==> multiset(s)[x] == 1
  }

  lemma NothingRepeats<T>()
    ensures NoRepeats<T>([])
  {
  }

  lemma OneMore<T>(s: seq<T>, x: T)
    requires NoRepeats(s) && x !in s
    ensures NoRepeats(s + [x])
  {
    forall y | y in s + [x] ensures multiset(s + [x])[y] == 1 {
      assert multiset(s + [x]) == multiset(s) + multiset{x};
    }
  }

  predicate HasKeys(t: Table) {
    forall id :: id in t ==> t[id].id == id
  }

  /** Exactly the rows to show: each once, as stored. */
  ghost predicate IsFetched(t: Table, hidden: set<UserId>, roots: seq<CommentId>, rows: seq<Comment>) {
    && NoRepeats(Ids(rows))
    && (forall c :: c in rows ==> c.id in t && t[c.id] == c)
    && (forall id :: id in Ids(rows) <==> Visible(t, hidden, id) && Reachable(t, hidden, roots, id))
  }

  // ---- The fetch ----

  ghost predicate ClosedDown(t: Table, hidden: set<UserId>, all: set<CommentId>, from: set<CommentId>) {
    forall id :: Visible(t, hidden, id) && t[id].parent.Some? && t[id].parent.value in from ==> id in all
  }

  /** Everything reachable lies in a set that holds the roots and loses no visible reply. */
  lemma {:induction false} ClosedHoldsReached(t: Table, hidden: set<UserId>, roots: seq<CommentId>,
                                              all: set<CommentId>, id: CommentId, n: nat)
    requires (forall r :: r in roots ==> r in all) && ClosedDown(t, hidden, all, all)
    requires Reached(t, hidden, roots, id, n)
    ensures id in all
    decreases n
  {
    if n > 0 {
      ClosedHoldsReached(t, hidden, roots, all, t[id].parent.value, n - 1);
    }
  }

  lemma ReachedNext(t: Table, hidden: set<UserId>, roots: seq<CommentId>, id: CommentId)
    requires Visible(t, hidden, id) && t[id].parent.Some? && Reachable(t, hidden, roots, t[id].parent.value)
    ensures Reachable(t, hidden, roots, id)
  {
    var n: nat :| Reached(t, hidden, roots, t[id].parent.value, n);
    assert Reached(t, hidden, roots, id, n + 1);
  }

  method FetchThreadRows(t: Table, roots: seq<CommentId>, hidden: set<UserId>) returns (rows: seq<Comment>)
    requires HasKeys(t)
    ensures IsFetched(t, hidden, roots, rows)
  {
    hide Visible;
    forall r | r in roots ensures Reachable(t, hidden, roots, r) {
      assert Reached(t, hidden, roots, r, 0);
    }
    var all := set r | r in roots;
    var frontier := all;
    while frontier != {}
      invariant frontier <= all && forall r :: r in roots ==> r in all
      invariant forall id :: id in all ==> Reachable(t, hidden, roots, id)
      invariant ClosedDown(t, hidden, all, all - frontier)
      decreases t.Keys - all, frontier
    {
      ghost var before := all;
      var children := set id | id in t && t[id].parent.Some? && t[id].parent.value in frontier &&
        Visible(t, hidden, id);
      assert forall id :: Visible(t, hidden, id) ==> id in t by { VisibleStored(t, hidden); }
      forall id | id in children ensures Reachable(t, hidden, roots, id) {
        ReachedNext(t, hidden, roots, id);
      }
      frontier := children - all;
      all := all + frontier;
      assert frontier == {} ==> all == before;
      assert frontier != {} ==> exists id :: id in frontier && id in t.Keys - before;
    }
    assert all - frontier == all;
    forall id | Reachable(t, hidden, roots, id) ensures id in all {
      var n: nat :| Reached(t, hidden, roots, id, n);
      ClosedHoldsReached(t, hidden, roots, all, id, n);
    }
    rows := SelectRows(t, set id | id in t && id in all && Visible(t, hidden, id));
    assert forall id :: Visible(t, hidden, id) ==> id in t by { VisibleStored(t, hidden); }
  }

  lemma VisibleStored(t: Table, hidden: set<UserId>)
    ensures forall id :: Visible(t, hidden, id) ==> id in t
  {
  }

  lemma NoIds()
    ensures Ids([]) == []
  {
  }

  lemma IdsNext(rows: seq<Comment>, c: Comment)
    ensures Ids(rows + [c]) == Ids(rows) + [c.id]
  {
    assert (rows + [c])[..|rows|] == rows;
  }

  /** The rows with the given ids, each once, in no particular order. */
  method SelectRows(t: Table, ids: set<CommentId>) returns (rows: seq<Comment>)
    requires HasKeys(t) && ids <= t.Keys
    ensures NoRepeats(Ids(rows)) && (forall c :: c in rows ==> c.id in t && t[c.id] == c)
    ensures forall id :: id in Ids(rows) <==> id in ids
  {
    hide NoRepeats, Ids;
    var todo := ids;
    rows := [];
    NoIds();
    assert NoRepeats(Ids(rows)) by { NothingRepeats<CommentId>(); }
    while todo != {}
      invariant todo <= ids && NoRepeats(Ids(rows)) && forall c :: c in rows ==> c.id in t && t[c.id] == c
      invariant forall id :: id in Ids(rows) <==> id in ids - todo
      decreases |todo|
    {
      var id :| id in todo;
      IdsNext(rows, t[id]);
      OneMore(Ids(rows), id);
      rows := rows + [t[id]];
      todo := todo - {id};
    }
  }

  // ---- The tree, as lists of ids ----

  /** The rows that answer p, in row order, stamped with their creation time. */
  function ChildrenOf(rows: seq<Comment>, p: Option<CommentId>): seq<Keyed<CommentId>> {
    if rows == [] then []
    else
      var c := rows[|rows| - 1];
      ChildrenOf(rows[..|rows| - 1], p) + if c.parent == p then [Keyed(c.createdAt, c.id)] else []
  }

  function Items<T>(s: seq<Keyed<T>>): (r: seq<T>)
    ensures |r| == |s|
  {
    if s == [] then [] else [s[0].item] + Items(s[1..])
  }

  function Replies(rows: seq<Comment>, p: CommentId): seq<CommentId> {
    Items(Sort(ChildrenOf(rows, Some(p))))
  }

  /** The ids as a reader meets them, `levels` deep: each of xs, followed by its replies. */
  function Preorder(rows: seq<Comment>, xs: seq<CommentId>, levels: nat): seq<CommentId>
    decreases levels, |xs|
  {
    if xs == [] || levels == 0 then []
    else [xs[0]] + Preorder(rows, Replies(rows, xs[0]), levels - 1) + Preorder(rows, xs[1..], levels)
  }

  // ---- Each row is shown once, under its own parent ----

  /** rows are the values of f, each once. */
  ghost predicate Lists(rows: seq<Comment>, f: Table) {
    && NoRepeats(Ids(rows)) && (forall id :: id in f <==> id in Ids(rows))
    && (forall c :: c in rows ==> c.id in f && f[c.id] == c)
  }

  lemma {:induction false} ItemsJoin<T>(a: seq<Keyed<T>>, b: seq<Keyed<T>>)
    ensures Items(a + b) == Items(a) + Items(b)
  {
    if a == [] {
      assert a + b == b;
    } else {
      assert (a + b)[1..] == a[1..] + b;
      ItemsJoin(a[1..], b);
    }
  }

  lemma {:induction false} ChildrenCount(rows: seq<Comment>, f: Table, p: Option<CommentId>, c: CommentId)
    requires forall r :: r in rows ==> r.id in f && f[r.id] == r
    ensures multiset(Items(ChildrenOf(rows, p)))[c] ==
            if c in f && f[c].parent == p then multiset(Ids(rows))[c] else 0
  {
    if rows != [] {
      var front, last := rows[..|rows| - 1], rows[|rows| - 1];
      ChildrenCount(front, f, p, c);
      var one := if last.parent == p then [Keyed(last.createdAt, last.id)] else [];
      ItemsJoin(ChildrenOf(front, p), one);
      assert Items(one) == if last.parent == p then [last.id] else [];
      assert last in rows;
    }
  }

  lemma {:induction false} InsertItems<T>(x: Keyed<T>, s: seq<Keyed<T>>)
    ensures multiset(Items(Insert(x, s))) == multiset{x.item} + multiset(Items(s))
  {
    if s != [] && x.key > s[0].key {
      InsertItems(x, s[1..]);
    } else {
      assert ([x] + s)[1..] == s;
    }
  }

  lemma {:induction false} SortItems<T>(s: seq<Keyed<T>>)
    ensures multiset(Items(Sort(s))) == multiset(Items(s))
  {
    if s != [] {
      SortItems(s[1..]);
      InsertItems(s[0], Sort(s[1..]));
    }
  }

  /** The replies of x are the rows answering x, each once. */
  lemma RepliesAre(rows: seq<Comment>, f: Table, x: CommentId)
    requires Lists(rows, f)
    ensures NoRepeats(Replies(rows, x))
    ensures forall c :: c in Replies(rows, x) <==> c in f && f[c].parent == Some(x)
  {
    hide Sort, ChildrenOf, Ids, Items;
    SortItems(ChildrenOf(rows, Some(x)));
    forall c ensures multiset(Replies(rows, x))[c] == if c in f && f[c].parent == Some(x) then 1 else 0 {
      ChildrenCount(rows, f, Some(x), c);
      assert c in f <==> c in Ids(rows);
    }
    forall c ensures c in Replies(rows, x) <==> c in f && f[c].parent == Some(x) {
      assert c in Replies(rows, x) <==> c in multiset(Replies(rows, x));
    }
  }

  lemma {:induction false} ItemAt<T>(s: seq<Keyed<T>>, i: nat)
    requires i < |s|
    ensures Items(s)[i] == s[i].item
  {
    if i > 0 {
      ItemAt(s[1..], i - 1);
    }
  }

  lemma {:induction false} ChildStamps(rows: seq<Comment>, f: Table, p: Option<CommentId>)
    requires forall r :: r in rows ==> r.id in f && f[r.id] == r
    ensures forall k :: k in ChildrenOf(rows, p) ==> k.item in f && k.key == f[k.item].createdAt
  {
    if rows != [] {
      assert rows[|rows| - 1] in rows;
      ChildStamps(rows[..|rows| - 1], f, p);
    }
  }

  /** Replies are in the order they were written. */
  lemma RepliesInOrder(rows: seq<Comment>, f: Table, x: CommentId, i: nat, j: nat)
    requires Lists(rows, f) && i < j < |Replies(rows, x)|
    ensures var r := Replies(rows, x); r[i] in f && r[j] in f && f[r[i]].createdAt <= f[r[j]].createdAt
  {
    hide Sort, ChildrenOf;
    var c := ChildrenOf(rows, Some(x));
    SortIsStable(c);
    SortPermutes(c);
    ChildStamps(rows, f, Some(x));
    ItemAt(Sort(c), i);
    ItemAt(Sort(c), j);
    assert Sort(c)[i] in multiset(Sort(c)) && Sort(c)[j] in multiset(Sort(c));
  }

  /** The (k+1)-st ancestor is the parent of the k-th. */
  lemma {:induction false} UpLast(t: Table, id: CommentId, k: nat)
    requires Up(t, id, k + 1).Some?
    ensures Up(t, id, k).Some?
    ensures var b := Up(t, id, k).value; b in t && t[b].parent == Up(t, id, k + 1)
    decreases k
  {
    assert Up(t, id, k + 1) == Up(t, t[id].parent.value, k);
    if k > 0 {
      UpLast(t, t[id].parent.value, k - 1);
    }
  }

  /** The ancestor of y at depth e, when y is of depth d. */
  ghost predicate Above(t: Table, y: CommentId, d: nat, e: nat, xs: seq<CommentId>) {
    e <= d && Up(t, y, d - e).Some? && Up(t, y, d - e).value in xs
  }

  lemma NothingAbove(t: Table, y: CommentId, d: nat, e: nat)
    ensures !Above(t, y, d, e, [])
  {
  }

  lemma AboveNeedsDepth(t: Table, y: CommentId, d: nat, e: nat, xs: seq<CommentId>)
    ensures Above(t, y, d, e, xs) ==> e <= d
  {
  }

  lemma RepliesDepth(rows: seq<Comment>, f: Table, x: CommentId, e: nat)
    requires Lists(rows, f) && AtDepth(f, x, e)
    ensures NoRepeats(Replies(rows, x)) && forall c :: c in Replies(rows, x) ==> AtDepth(f, c, e + 1)
  {
    RepliesAre(rows, f, x);
    hide Replies, Lists, NoRepeats;
  }

  /** Below comments xs of one depth, y is met once if its ancestor at that depth is among them and enough
      levels are shown, else never. */
  lemma {:induction false} MetOnce(f: Table, rows: seq<Comment>, xs: seq<CommentId>, e: nat, levels: nat,
                                   y: CommentId, d: nat)
    requires Lists(rows, f) && NoRepeats(xs) && (forall x :: x in xs ==> AtDepth(f, x, e)) && AtDepth(f, y, d)
    ensures multiset(Preorder(rows, xs, levels))[y] == if Above(f, y, d, e, xs) && d - e < levels then 1 else 0
    decreases levels, |xs|
  {
    hide AtDepth, NoRepeats, Lists, Above, Replies, Preorder;
    if xs == [] || levels == 0 {
      NothingAbove(f, y, d, e);
      AboveNeedsDepth(f, y, d, e, xs);
      NothingShown(rows, xs, levels);
    } else {
      var x, rest, below := xs[0], xs[1..], Replies(rows, xs[0]);
      RestNoRepeats(xs);
      RepliesDepth(rows, f, x, e);
      MetOnce(f, rows, below, e + 1, levels - 1, y, d);
      MetOnce(f, rows, rest, e, levels, y, d);
      AboveSplits(f, rows, xs, e, y, d);
      PreorderStep(rows, xs, levels, y);
    }
  }

  lemma NothingShown(rows: seq<Comment>, xs: seq<CommentId>, levels: nat)
    requires xs == [] || levels == 0
    ensures Preorder(rows, xs, levels) == []
  {
  }

  lemma PreorderStep(rows: seq<Comment>, xs: seq<CommentId>, levels: nat, y: CommentId)
    requires xs != [] && levels > 0
    ensures multiset(Preorder(rows, xs, levels))[y] ==
            (if y == xs[0] then 1 else 0) + multiset(Preorder(rows, Replies(rows, xs[0]), levels - 1))[y]
            + multiset(Preorder(rows, xs[1..], levels))[y]
  {
    hide Replies;
  }

  lemma RestNoRepeats<T>(xs: seq<T>)
    requires xs != [] && NoRepeats(xs)
    ensures NoRepeats(xs[1..]) && xs[0] !in xs[1..]
  {
    assert xs == [xs[0]] + xs[1..];
    forall x | x in xs[1..]
      ensures x in xs && multiset(xs)[x] == (if x == xs[0] then 1 else 0) + multiset(xs[1..])[x]
    {
    }
  }

  /** One level down, y is below the replies of x exactly when its ancestor at the upper level is x. */
  lemma AboveReplies(f: Table, rows: seq<Comment>, x: CommentId, e: nat, y: CommentId, d: nat)
    requires Lists(rows, f) && AtDepth(f, y, d) && e < d
    ensures Up(f, y, d - e).Some?
    ensures Above(f, y, d, e + 1, Replies(rows, x)) <==> Up(f, y, d - e).value == x
  {
    DepthEndsLinks(f, y, d, d - e);
    UpLast(f, y, d - e - 1);
    RepliesAre(rows, f, x);
    hide AtDepth, NoRepeats, Lists, Replies, Up;
  }

  /** y lies at or below xs if it is the first of them, lies below it, or lies at or below the others;
      at most one of these. */
  lemma AboveSplits(f: Table, rows: seq<Comment>, xs: seq<CommentId>, e: nat, y: CommentId, d: nat)
    requires Lists(rows, f) && xs != [] && NoRepeats(xs) && AtDepth(f, y, d) && AtDepth(f, xs[0], e)
    ensures Above(f, y, d, e, xs) <==>
            (y == xs[0] || Above(f, y, d, e + 1, Replies(rows, xs[0])) || Above(f, y, d, e, xs[1..]))
    ensures !(y == xs[0] && Above(f, y, d, e + 1, Replies(rows, xs[0])))
    ensures !(y == xs[0] && Above(f, y, d, e, xs[1..]))
    ensures !(Above(f, y, d, e + 1, Replies(rows, xs[0])) && Above(f, y, d, e, xs[1..]))
    ensures y == xs[0] ==> d == e
    ensures Above(f, y, d, e + 1, Replies(rows, xs[0])) ==> e + 1 <= d
  {
    assert xs == [xs[0]] + xs[1..];
    RestNoRepeats(xs);
    if y == xs[0] {
      DepthUnique(f, y, d, e);
    }
    if e < d {
      AboveReplies(f, rows, xs[0], e, y, d);
    }
    hide AtDepth, NoRepeats, Lists, Replies, Up;
    UpNone(f, y);
  }

  lemma UpNone(t: Table, id: CommentId)
    ensures Up(t, id, 0) == Some(id)
  {
  }

  lemma {:induction false} PreorderMembers(rows: seq<Comment>, f: Table, xs: seq<CommentId>, levels: nat)
    requires Lists(rows, f) && forall x :: x in xs ==> x in f
    ensures forall y :: y in Preorder(rows, xs, levels) ==> y in f
    decreases levels, |xs|
  {
    if xs != [] && levels > 0 {
      RepliesAre(rows, f, xs[0]);
      PreorderMembers(rows, f, Replies(rows, xs[0]), levels - 1);
      PreorderMembers(rows, f, xs[1..], levels);
    }
  }

  /** A page as it is asked for: distinct visible comments that answer nothing. */
  ghost predicate IsPage(t: Table, hidden: set<UserId>, roots: seq<CommentId>) {
    NoRepeats(roots) && forall r :: r in roots ==> Visible(t, hidden, r) && t[r].parent.None?
  }

  ghost function Fetched(t: Table, hidden: set<UserId>, roots: seq<CommentId>): Table {
    map id | id in t && Visible(t, hidden, id) && Reachable(t, hidden, roots, id) :: t[id]
  }

  /** A shown comment is a root, or its parent is shown too. */
  lemma ShownUpwards(t: Table, hidden: set<UserId>, roots: seq<CommentId>, id: CommentId)
    requires IsPage(t, hidden, roots) && Visible(t, hidden, id) && Reachable(t, hidden, roots, id)
    ensures if t[id].parent.None? then id in roots
            else var p := t[id].parent.value; Visible(t, hidden, p) && Reachable(t, hidden, roots, p)
  {
    var n: nat :| Reached(t, hidden, roots, id, n);
    if n > 0 {
      assert Reached(t, hidden, roots, t[id].parent.value, n - 1);
    }
  }

  /** The shown page holds every fetched comment exactly once and nothing else, however many levels beyond
      the deepest are shown. */
  lemma ShownOnce(t: Table, hidden: set<UserId>, roots: seq<CommentId>, rows: seq<Comment>, levels: nat)
    requires Shaped(t) && IsPage(t, hidden, roots) && IsFetched(t, hidden, roots, rows)
    requires levels > MAX_REPLY_DEPTH
    ensures multiset(Preorder(rows, roots, levels)) == multiset(Ids(rows))
  {
    var f := Fetched(t, hidden, roots);
    PageTable(t, hidden, roots, rows);
    PreorderMembers(rows, f, roots, levels);
    forall y ensures multiset(Preorder(rows, roots, levels))[y] == multiset(Ids(rows))[y] {
      if y in f {
        assert WithinDepth(f, y);
        var d :| 0 <= d <= MAX_REPLY_DEPTH && AtDepth(f, y, d);
        MetOnce(f, rows, roots, 0, levels, y, d);
        DepthEndsLinks(f, y, d, d);
        TopIsRoot(f, y, d);
      } else {
        assert y !in Ids(rows) && y !in Preorder(rows, roots, levels);
      }
    }
  }

  lemma {:induction false} TopIsRoot(f: Table, y: CommentId, d: nat)
    requires AtDepth(f, y, d)
    ensures Up(f, y, d).Some? && Up(f, y, d).value in f && f[Up(f, y, d).value].parent.None?
    decreases d
  {
    if d > 0 {
      TopIsRoot(f, f[y].parent.value, d - 1);
    }
  }

  lemma PageTable(t: Table, hidden: set<UserId>, roots: seq<CommentId>, rows: seq<Comment>)
    requires Shaped(t) && IsPage(t, hidden, roots) && IsFetched(t, hidden, roots, rows)
    ensures var f := Fetched(t, hidden, roots);
            && Lists(rows, f) && (forall y :: y in f ==> WithinDepth(f, y))
            && (forall r :: r in roots <==> r in f && f[r].parent.None?)
  {
    var f := Fetched(t, hidden, roots);
    forall c | c in rows ensures c.id in Ids(rows) { RowHasId(rows, c); }
    forall y | y in f ensures t[y].parent.Some? ==> t[y].parent.value in f {
      assert Linked(t, y);
      ShownUpwards(t, hidden, roots, y);
    }
    forall y | y in f ensures WithinDepth(f, y) {
      assert WithinDepth(t, y);
      var n :| 0 <= n <= MAX_REPLY_DEPTH && AtDepth(t, y, n);
      DepthCarries(t, f, y, n);
    }
    forall r ensures r in roots <==> r in f && f[r].parent.None? {
      if r in roots {
        assert Reached(t, hidden, roots, r, 0);
      } else if r in f {
        ShownUpwards(t, hidden, roots, r);
      }
    }
  }

  lemma {:induction false} RowHasId(rows: seq<Comment>, c: Comment)
    requires c in rows
    ensures c.id in Ids(rows)
  {
    if c != rows[|rows| - 1] {
      RowHasId(rows[..|rows| - 1], c);
    }
  }

  /** The chain of the nearest n ancestors of id is live and nobody on it is hidden. */
  predicate OpenChain(t: Table, hidden: set<UserId>, id: CommentId, n: nat) {
    forall k: nat :: k <= n ==>
      Up(t, id, k).Some? &&
      var a := Up(t, id, k).value; a in t && t[a].deletedAt.None? && t[a].author !in hidden
  }

  lemma ChainStarts(t: Table, hidden: set<UserId>, id: CommentId, n: nat)
    ensures OpenChain(t, hidden, id, n) ==> Visible(t, hidden, id) && (n > 0 ==> t[id].parent.Some?)
  {
    if OpenChain(t, hidden, id, n) {
      assert Up(t, id, 0) == Some(id);
      assert n > 0 ==> Up(t, id, 1).Some?;
    }
  }

  lemma {:induction false} ReachedIsChain(t: Table, hidden: set<UserId>, roots: seq<CommentId>, id: CommentId, n: nat)
    requires forall r :: r in roots ==> Visible(t, hidden, r)
    ensures Reached(t, hidden, roots, id, n) <==>
            OpenChain(t, hidden, id, n) && Up(t, id, n).value in roots
    decreases n
  {
    if n == 0 {
      assert Up(t, id, 0) == Some(id);
    } else {
      if Visible(t, hidden, id) && t[id].parent.Some? {
        ReachedIsChain(t, hidden, roots, t[id].parent.value, n - 1);
        assert forall k: nat :: 0 < k ==> Up(t, id, k) == Up(t, t[id].parent.value, k - 1);
        if Reached(t, hidden, roots, id, n) {
          forall k: nat | k <= n
            ensures Up(t, id, k).Some? &&
                    var a := Up(t, id, k).value; a in t && t[a].deletedAt.None? && t[a].author !in hidden
          {
            assert k > 0 ==> Up(t, id, k) == Up(t, t[id].parent.value, k - 1);
          }
        }
        if OpenChain(t, hidden, id, n) {
          forall k: nat | k <= n - 1
            ensures Up(t, t[id].parent.value, k).Some? &&
                    var a := Up(t, t[id].parent.value, k).value;
                    a in t && t[a].deletedAt.None? && t[a].author !in hidden
          {
            assert Up(t, id, k + 1) == Up(t, t[id].parent.value, k);
          }
        }
      } else {
        ChainStarts(t, hidden, id, n);
      }
    }
  }

  /** A comment is shown exactly when its ancestors lead up to a root of the page, and it and all of them are live and
      by authors the reader has not blocked. */
  lemma ShownIff(t: Table, hidden: set<UserId>, roots: seq<CommentId>, id: CommentId)
    requires IsPage(t, hidden, roots)
    ensures Visible(t, hidden, id) && Reachable(t, hidden, roots, id) <==>
            exists n: nat :: OpenChain(t, hidden, id, n) && Up(t, id, n).value in roots
  {
    hide NoRepeats;
    forall n: nat
      ensures Reached(t, hidden, roots, id, n) <==> OpenChain(t, hidden, id, n) && Up(t, id, n).value in roots
    {
      ReachedIsChain(t, hidden, roots, id, n);
    }
    if n: nat :| OpenChain(t, hidden, id, n) && Up(t, id, n).value in roots {
      assert Up(t, id, 0) == Some(id);
    }
  }
}
