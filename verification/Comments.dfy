/** Replies: the depth check that admits them, and the shape every run of creations and deletions keeps. */
module Comments {
  import opened Options

  datatype CommentId = CommentId(uuid: nat)
  type UserId = nat
  type ContentId = nat
  type Time = int

  const MAX_REPLY_DEPTH: nat := 8

  datatype Comment = Comment(id: CommentId, author: UserId, content: ContentId, parent: Option<CommentId>,
                             createdAt: Time, deletedAt: Option<Time>)
  type Table = map<CommentId, Comment>

  datatype Error = MovieNotFound | CommentNotFound | ParentNotFound | DifferentMovie | MaximumDepth

  predicate Live(t: Table, id: CommentId) {
    id in t && t[id].deletedAt.None?
  }

  /** The comment k parent links above id; the last link may lead nowhere. */
  function Up(t: Table, id: CommentId, k: nat): Option<CommentId>
    decreases k
  {
    if k == 0 then Some(id)
    else if id in t && t[id].parent.Some? then Up(t, t[id].parent.value, k - 1)
    else None
  }

  /** The depth of id is n: n parent links lead to a comment without parent. */
  predicate AtDepth(t: Table, id: CommentId, n: nat)
    decreases n
  {
    id in t && if n == 0 then t[id].parent.None? else t[id].parent.Some? && AtDepth(t, t[id].parent.value, n - 1)
  }

  /** At least n ancestors, and the nearest n are live. */
  predicate LiveUp(t: Table, id: CommentId, n: nat)
    decreases n
  {
    n == 0 || (id in t && t[id].parent.Some? && Live(t, t[id].parent.value) && LiveUp(t, t[id].parent.value, n - 1))
  }

  /** The depth as it can be measured: every ancestor is live. */
  predicate LiveDepth(t: Table, id: CommentId, n: nat) {
    AtDepth(t, id, n) && LiveUp(t, id, n)
  }

  predicate TooDeep(t: Table, id: CommentId) {
    LiveUp(t, id, MAX_REPLY_DEPTH) && Up(t, id, MAX_REPLY_DEPTH + 1).Some?
  }

  /** What a new comment needs. */
  ghost predicate Admits(t: Table, content: ContentId, parent: Option<CommentId>) {
    parent.Some? ==>
      && Answerable(t, content, parent)
      && exists n :: 0 <= n < 8 && LiveDepth(t, parent.value, n)
  }

  lemma {:induction false} DepthUnique(t: Table, id: CommentId, m: nat, n: nat)
    requires AtDepth(t, id, m) && AtDepth(t, id, n)
    ensures m == n
    decreases m
  {
    if m > 0 {
      DepthUnique(t, t[id].parent.value, m - 1, n - 1);
    }
  }

  /** Counting from id or from the d-th comment above it is the same. */
  lemma {:induction false} Shift(t: Table, id: CommentId, d: nat, n: nat)
    requires LiveUp(t, id, d) && Up(t, id, d).Some? && d <= n
    ensures var at := Up(t, id, d).value;
            && (AtDepth(t, id, n) <==> (d > 0 ==> id in t) && AtDepth(t, at, n - d))
            && (LiveUp(t, id, n) <==> LiveUp(t, at, n - d)) && Up(t, id, n) == Up(t, at, n - d)
    decreases d
  {
    if d > 0 {
      Shift(t, t[id].parent.value, d - 1, n - 1);
    }
  }

  /** A comment of depth n has no link above its n-th ancestor. */
  lemma {:induction false} DepthEndsLinks(t: Table, id: CommentId, n: nat, k: nat)
    requires AtDepth(t, id, n)
    ensures Up(t, id, k).Some? <==> k <= n
    decreases n
  {
    if n > 0 && k > 0 {
      DepthEndsLinks(t, t[id].parent.value, n - 1, k - 1);
    }
  }

  /** What `_comment_depth` answers: the depth if all ancestors are live, one more than the maximum if the
      nearest ancestors are live and there are too many, else an error. */
  ghost predicate IsMeasured(t: Table, id: CommentId, r: Result<nat, Error>) {
    match r
    case Ok(n) => if n <= MAX_REPLY_DEPTH then LiveDepth(t, id, n) else n == MAX_REPLY_DEPTH + 1 && TooDeep(t, id)
    case Err(e) => e == ParentNotFound && !TooDeep(t, id)
                   && forall n :: 0 <= n <= MAX_REPLY_DEPTH ==> !LiveDepth(t, id, n)
  }

  /** There is only one such answer. */
  lemma MeasuredUnique(t: Table, id: CommentId, a: Result<nat, Error>, b: Result<nat, Error>)
    requires IsMeasured(t, id, a) && IsMeasured(t, id, b)
    ensures a == b
  {
    if a.Ok? && b.Ok? {
      if a.value <= MAX_REPLY_DEPTH && b.value <= MAX_REPLY_DEPTH {
        DepthUnique(t, id, a.value, b.value);
      } else if a.value <= MAX_REPLY_DEPTH {
        DepthEndsLinks(t, id, a.value, MAX_REPLY_DEPTH + 1);
      } else if b.value <= MAX_REPLY_DEPTH {
        DepthEndsLinks(t, id, b.value, MAX_REPLY_DEPTH + 1);
      }
    }
  }

  /** A walk that stops at a missing or deleted parent has no depth to report. */
  lemma BrokenChain(t: Table, id: CommentId, d: nat, at: CommentId)
    requires LiveUp(t, id, d) && Up(t, id, d) == Some(at) && at in t && d < MAX_REPLY_DEPTH
    requires t[at].parent.Some? && !Live(t, t[at].parent.value)
    ensures IsMeasured(t, id, Err(ParentNotFound))
  {
    Shift(t, id, d, MAX_REPLY_DEPTH);
    Shift(t, id, d, d + 1);
    forall n | 0 <= n <= MAX_REPLY_DEPTH ensures !LiveDepth(t, id, n) {
      if AtDepth(t, id, n) && n <= d {
        DepthEndsLinks(t, id, n, d + 1);
      } else if d < n {
        Shift(t, id, d, n);
      }
    }
  }

  // ---- Whether a reply is admitted ----

  ghost predicate IsVerdict(t: Table, content: ContentId, parent: Option<CommentId>, r: Option<Error>) {
    match r
    case None => Admits(t, content, parent)
    case Some(MovieNotFound) => false
    case Some(CommentNotFound) => parent.Some? && !Live(t, parent.value)
    case Some(DifferentMovie) => parent.Some? && Live(t, parent.value) && t[parent.value].content != content
    case Some(ParentNotFound) => Answerable(t, content, parent) && IsMeasured(t, parent.value, Err(ParentNotFound))
    case Some(MaximumDepth) => Answerable(t, content, parent) && LiveUp(t, parent.value, MAX_REPLY_DEPTH)
  }

  predicate Answerable(t: Table, content: ContentId, parent: Option<CommentId>) {
    parent.Some? && Live(t, parent.value) && t[parent.value].content == content
  }

  lemma {:induction false} LiveUpHasLinks(t: Table, id: CommentId, n: nat)
    requires LiveUp(t, id, n)
    ensures Up(t, id, n).Some?
    decreases n
  {
    if n > 0 {
      LiveUpHasLinks(t, t[id].parent.value, n - 1);
    }
  }

  /** The conditions exclude each other: a parent has one verdict only. */
  lemma VerdictUnique(t: Table, content: ContentId, parent: Option<CommentId>, a: Option<Error>, b: Option<Error>)
    requires IsVerdict(t, content, parent, a) && IsVerdict(t, content, parent, b)
    ensures a == b
  {
    if parent.Some? && LiveUp(t, parent.value, MAX_REPLY_DEPTH) {
      LiveUpHasLinks(t, parent.value, MAX_REPLY_DEPTH);
      forall n: nat | AtDepth(t, parent.value, n) ensures n >= MAX_REPLY_DEPTH {
        DepthEndsLinks(t, parent.value, n, MAX_REPLY_DEPTH);
      }
      if Live(t, parent.value) && IsMeasured(t, parent.value, Err(ParentNotFound)) {
        FullChainMeasured(t, parent.value);
      }
    }
  }

  /** Eight live ancestors always give a measurement: the maximum, or more. */
  lemma FullChainMeasured(t: Table, id: CommentId)
    requires LiveUp(t, id, MAX_REPLY_DEPTH) && Live(t, id)
    ensures !IsMeasured(t, id, Err(ParentNotFound))
  {
    LiveUpHasLinks(t, id, MAX_REPLY_DEPTH);
    LiveUpEnd(t, id, MAX_REPLY_DEPTH);
    var top := Up(t, id, MAX_REPLY_DEPTH).value;
    Shift(t, id, MAX_REPLY_DEPTH, MAX_REPLY_DEPTH);
    Shift(t, id, MAX_REPLY_DEPTH, MAX_REPLY_DEPTH + 1);
    if t[top].parent.None? {
      assert LiveDepth(t, id, MAX_REPLY_DEPTH);
    } else {
      assert Up(t, top, 1).Some?;
    }
  }

  lemma {:induction false} LiveUpEnd(t: Table, id: CommentId, n: nat)
    requires LiveUp(t, id, n) && Live(t, id)
    ensures Up(t, id, n).Some? && Live(t, Up(t, id, n).value)
    decreases n
  {
    if n > 0 {
      LiveUpEnd(t, t[id].parent.value, n - 1);
    }
  }

  class CommentService {
    var comments: Table

    constructor ()
      ensures comments == map[]
    {
      comments := map[];
    }

    method CommentDepth(id: CommentId) returns (r: Result<nat, Error>)
      requires id in comments
      ensures IsMeasured(comments, id, r)
    {
      var depth, current := 0, comments[id];
      ghost var at := id;
      while current.parent.Some?
        invariant depth <= MAX_REPLY_DEPTH && at in comments && current == comments[at]
        invariant LiveUp(comments, id, depth) && Up(comments, id, depth) == Some(at)
        decreases MAX_REPLY_DEPTH - depth
      {
        Shift(comments, id, depth, depth + 1);
        depth := depth + 1;
        if depth > MAX_REPLY_DEPTH {
          break;
        }
        if current.parent.value !in comments || comments[current.parent.value].deletedAt.Some? {
          BrokenChain(comments, id, depth - 1, at);
          return Err(ParentNotFound);
        }
        at := current.parent.value;
        current := comments[current.parent.value];
      }
      if depth <= MAX_REPLY_DEPTH {
        Shift(comments, id, depth, depth);
      }
      r := Ok(depth);
    }

    method ValidateParent(content: ContentId, parent: Option<CommentId>) returns (r: Option<Error>)
      ensures IsVerdict(comments, content, parent, r)
    {
      if parent.None? {
        return None;
      }
      if parent.value !in comments || comments[parent.value].deletedAt.Some? {
        return Some(CommentNotFound);
      }
      if comments[parent.value].content != content {
        return Some(DifferentMovie);
      }
      var depth := CommentDepth(parent.value);
      match depth
      case Err(e) => r := Some(e);
      case Ok(n) => r := if n >= MAX_REPLY_DEPTH then Some(MaximumDepth) else None;
    }

    /** `movie`: the content is a published movie.  `id` is a fresh id. */
    method CreateComment(movie: bool, content: ContentId, parent: Option<CommentId>, author: UserId,
                         id: CommentId, now: Time) returns (r: Option<Error>)
      requires id !in comments
      modifies this
      ensures if movie then IsVerdict(old(comments), content, parent, r) else r == Some(MovieNotFound)
      ensures comments == if r.Some? then old(comments)
                          else old(comments)[id := Comment(id, author, content, parent, now, None)]
      ensures Transition(old(comments), Create(movie, content, parent, author, id, now), comments)
    {
      if !movie {
        return Some(MovieNotFound);
      }
      r := ValidateParent(content, parent);
      if r.Some? {
        if Admits(comments, content, parent) {
          VerdictUnique(comments, content, parent, r, None);
        }
        return;
      }
      comments := comments[id := Comment(id, author, content, parent, now, None)];
    }

    method SoftDelete(id: CommentId, now: Time) returns (r: Option<Error>)
      modifies this
      ensures r == if id in old(comments) && old(comments)[id].deletedAt.None? then None else Some(CommentNotFound)
      ensures comments == if r.Some? then old(comments)
                          else old(comments)[id := old(comments)[id].(deletedAt := Some(now))]
      ensures Transition(old(comments), Delete(id, now), comments)
    {
      if id !in comments || comments[id].deletedAt.Some? {
        return Some(CommentNotFound);
      }
      comments := comments[id := comments[id].(deletedAt := Some(now))];
      r := None;
    }
  }

  // ---- Every run ----

  datatype Event =
    | Create(movie: bool, content: ContentId, parent: Option<CommentId>, author: UserId, id: CommentId, now: Time)
    | Delete(target: CommentId, when: Time)
    | Cascade(gone: set<CommentId>)   // a movie's or an account's rows go, with every reply below them

  ghost predicate Transition(t: Table, e: Event, t': Table) {
    match e
    case Create(movie, content, parent, author, id, now) =>
      && id !in t
      && t' == if movie && Admits(t, content, parent)
               then t[id := Comment(id, author, content, parent, now, None)] else t
    case Delete(id, now) => t' == if Live(t, id) then t[id := t[id].(deletedAt := Some(now))] else t
    case Cascade(gone) =>
      && (forall id :: id in t && t[id].parent.Some? && t[id].parent.value in gone ==> id in gone)
      && t' == t - gone
  }

  ghost predicate Run(states: seq<Table>, events: seq<Event>) {
    && |states| == |events| + 1 && states[0] == map[]
    && forall k :: 0 <= k < |events| ==> Transition(states[k], events[k], states[k + 1])
  }

  ghost predicate WithinDepth(t: Table, id: CommentId) {
    exists n :: 0 <= n <= MAX_REPLY_DEPTH && AtDepth(t, id, n)
  }

  predicate Linked(t: Table, id: CommentId)
    requires id in t
  {
    && t[id].id == id
    && (t[id].parent.Some? ==> t[id].parent.value in t && t[t[id].parent.value].content == t[id].content)
  }

  ghost predicate Shaped(t: Table) {
    forall id :: id in t ==> WithinDepth(t, id) && Linked(t, id)
  }

  /** Depths carry over to any table that keeps the links of what it keeps. */
  lemma {:induction false} DepthCarries(t: Table, t': Table, id: CommentId, n: nat)
    requires AtDepth(t, id, n) && id in t'
    requires forall x :: x in t && x in t' ==> t'[x].parent == t[x].parent
    requires forall x :: x in t && x in t' && t[x].parent.Some? && t[x].parent.value in t ==> t[x].parent.value in t'
    ensures AtDepth(t', id, n)
    decreases n
  {
    if n > 0 {
      var p := t[id].parent.value;
      assert p in t;
      DepthCarries(t, t', p, n - 1);
    }
  }

  lemma StepKeepsShaped(t: Table, e: Event, t': Table)
    requires Transition(t, e, t') && Shaped(t)
    ensures Shaped(t')
  {
    hide LiveUp, AtDepth;
    forall id | id in t && id in t' ensures WithinDepth(t', id) {
      assert WithinDepth(t, id) && forall x :: x in t ==> Linked(t, x);
      var n :| 0 <= n <= MAX_REPLY_DEPTH && AtDepth(t, id, n);
      DepthCarries(t, t', id, n);
    }
    if e.Create? && t' != t {
      NewCommentShaped(t, e, t');
    }
    forall id | id in t' ensures Linked(t', id) {
      assert id in t ==> Linked(t, id);
    }
  }

  lemma NewCommentShaped(t: Table, e: Event, t': Table)
    requires Transition(t, e, t') && Shaped(t) && e.Create? && t' != t
    ensures WithinDepth(t', e.id)
  {
    if e.parent.None? {
      assert AtDepth(t', e.id, 0);
    } else {
      var n :| 0 <= n < MAX_REPLY_DEPTH && LiveDepth(t, e.parent.value, n);
      forall x | x in t ensures Linked(t, x) {}
      DepthCarries(t, t', e.parent.value, n);
      assert AtDepth(t', e.id, n + 1);
    }
  }

  lemma {:induction false} RunShaped(states: seq<Table>, events: seq<Event>, k: nat)
    requires Run(states, events) && k < |states|
    ensures Shaped(states[k])
  {
    if k > 0 {
      RunShaped(states, events, k - 1);
      StepKeepsShaped(states[k - 1], events[k - 1], states[k]);
    }
  }

  lemma {:induction false} AncestorsOf(t: Table, id: CommentId, k: nat, n: nat)
    requires Shaped(t) && AtDepth(t, id, n) && k <= n
    ensures Up(t, id, k).Some?
    ensures var a := Up(t, id, k).value; a in t && t[a].content == t[id].content && AtDepth(t, a, n - k)
    decreases k
  {
    assert Linked(t, id);
    if k > 0 {
      AncestorsOf(t, t[id].parent.value, k - 1, n - 1);
    }
  }

  /** In every reachable state the parent links form trees: no comment is its own ancestor, a thread stays in
      one movie, and nothing lies deeper than the maximum. */
  lemma ThreadsAreTrees(states: seq<Table>, events: seq<Event>, j: nat, id: CommentId, k: nat)
    requires Run(states, events) && j < |states| && id in states[j] && Up(states[j], id, k).Some?
    ensures var t := states[j]; var a := Up(t, id, k).value;
            && k <= 8 && a in t && t[a].content == t[id].content && (a == id <==> k == 0)
  {
    var t := states[j];
    RunShaped(states, events, j);
    assert WithinDepth(t, id);
    var n :| 0 <= n <= MAX_REPLY_DEPTH && AtDepth(t, id, n);
    DepthEndsLinks(t, id, n, k);
    AncestorsOf(t, id, k, n);
    if Up(t, id, k).value == id {
      DepthUnique(t, id, n, n - k);
    }
  }

  /** In every reachable state the measured depth is the true one, and it can be measured exactly when no
      ancestor is deleted. */
  lemma MeasuredIsTrue(states: seq<Table>, events: seq<Event>, j: nat, id: CommentId, n: nat, r: Result<nat, Error>)
    requires Run(states, events) && j < |states| && AtDepth(states[j], id, n)
    ensures IsMeasured(states[j], id, r) <==> r == if LiveUp(states[j], id, n) then Ok(n) else Err(ParentNotFound)
  {
    var t := states[j];
    RunShaped(states, events, j);
    assert WithinDepth(t, id);
    var m :| 0 <= m <= MAX_REPLY_DEPTH && AtDepth(t, id, m);
    DepthUnique(t, id, m, n);
    DepthEndsLinks(t, id, n, MAX_REPLY_DEPTH + 1);
    var answer := if LiveUp(t, id, n) then Ok(n) else Err(ParentNotFound);
    forall x: nat | AtDepth(t, id, x) ensures x == n { DepthUnique(t, id, x, n); }
    assert IsMeasured(t, id, answer);
    if IsMeasured(t, id, r) {
      MeasuredUnique(t, id, r, answer);
    }
  }
}
