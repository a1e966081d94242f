/**
 Breadth-first routing of an arena bot (examples/arena/charts.go:609-696): the action chosen is the
 first move of a shortest walk to the goal, and the empty action means there is nothing to do or no
 way to get there.
 */
module Routing {

  datatype Tile = Tile(x: int, y: int)

  datatype Creature = Creature(id: string, x: int, y: int)

  datatype Snapshot = Snapshot(width: int, height: int, walls: seq<Tile>, creatures: seq<Creature>)

  datatype Direction = Direction(action: string, dx: int, dy: int)

  /** botDirections (charts.go:609-614), in the order they are tried. */
  const DIRECTIONS: seq<Direction> :=
    [Direction("up", 0, -1), Direction("left", -1, 0), Direction("down", 0, 1), Direction("right", 1, 0)]

  // ---- blocked cells ----

  predicate Wall(s: Snapshot, t: Tile) { exists i :: 0 <= i < |s.walls| && s.walls[i] == t }

  predicate Occupied(s: Snapshot, t: Tile, self: string) {
    exists i :: 0 <= i < |s.creatures| && s.creatures[i].id != self && s.creatures[i].x == t.x
      && s.creatures[i].y == t.y
  }

  predicate Inside(s: Snapshot, t: Tile) { 0 < t.x < s.width - 1 && 0 < t.y < s.height - 1 }

  predicate Blocked(s: Snapshot, t: Tile, self: string) { !Inside(s, t) || Wall(s, t) || Occupied(s, t, self) }

  /** snapshotHasWall (charts.go:698-705). */
  method HasWall(s: Snapshot, x: int, y: int) returns (r: bool)
    ensures r <==> Wall(s, Tile(x, y))
  {
    for i := 0 to |s.walls|
      invariant forall j :: 0 <= j < i ==> s.walls[j] != Tile(x, y)
    {
      if s.walls[i].x == x && s.walls[i].y == y {
        assert s.walls[i] == Tile(x, y);
        return true;
      }
    }
    r := false;
  }

  /** botCellBlocked (charts.go:683-696). */
  method CellBlocked(s: Snapshot, position: Tile, self: string) returns (r: bool)
    ensures r <==> Blocked(s, position, self)
  {
    if position.x <= 0 || position.y <= 0 || position.x >= s.width - 1 || position.y >= s.height - 1 { return true; }
    var wall := HasWall(s, position.x, position.y);
    if wall { return true; }
    for i := 0 to |s.creatures|
      invariant forall j :: 0 <= j < i ==>
        !(s.creatures[j].id != self && s.creatures[j].x == position.x
        && s.creatures[j].y == position.y)
    {
      if s.creatures[i].id != self && s.creatures[i].x == position.x && s.creatures[i].y == position.y { return true; }
    }
    r := false;
  }

  // ---- walks ----

  type Walk = seq<Direction>

  function Move(t: Tile, d: Direction): Tile { Tile(t.x + d.dx, t.y + d.dy) }

  /** Where a walk from `from` leads. */
  function Finish(from: Tile, w: Walk): Tile {
    if w == [] then from else Move(Finish(from, w[..|w| - 1]), w[|w| - 1])
  }

  /** Every move is one of the four directions and enters an unblocked cell. */
  ghost predicate Walkable(s: Snapshot, self: string, from: Tile, w: Walk) {
    w != [] ==>
      && Walkable(s, self, from, w[..|w| - 1])
      && w[|w| - 1] in DIRECTIONS
      && !Blocked(s, Finish(from, w), self)
  }

  function Abs(n: int): int { if n < 0 then -n else n }

  function Distance(a: Tile, b: Tile): int { Abs(a.x - b.x) + Abs(a.y - b.y) }

  /** The bot wants to stand on the target, or beside it when the target cannot be entered. */
  predicate Goal(t: Tile, target: Tile, stopAdjacent: bool) { Distance(t, target) == if stopAdjacent then 1 else 0 }

  ghost predicate Arrives(s: Snapshot, self: string, from: Tile, target: Tile, stopAdjacent: bool, w: Walk) {
    Walkable(s, self, from, w) && Goal(Finish(from, w), target, stopAdjacent)
  }

  ghost predicate ShortestRoute(s: Snapshot, self: string, from: Tile, target: Tile, stopAdjacent: bool, w: Walk) {
    && Arrives(s, self, from, target, stopAdjacent, w)
    && forall v :: Arrives(s, self, from, target, stopAdjacent, v) ==> |w| <= |v|
  }

  // ---- the search ----

  datatype Node = Node(position: Tile, first: string)

  function FirstAction(w: Walk): string { if w == [] then "" else w[0].action }

  /** w is a shortest walk to t. */
  ghost predicate Nearest(s: Snapshot, self: string, from: Tile, t: Tile, w: Walk) {
    && Walkable(s, self, from, w) && Finish(from, w) == t
    && forall v :: Walkable(s, self, from, v) && Finish(from, v) == t ==> |w| <= |v|
  }

  /** Every visited cell has a recorded shortest walk. */
  ghost predicate Recorded(s: Snapshot, self: string, from: Tile, walks: map<Tile, Walk>) {
    && from in walks && walks[from] == []
    && forall t {:trigger walks[t]} :: t in walks ==> Nearest(s, self, from, t, walks[t])
  }

  /** The queued cells are distinct, carry their walk's first action, and lie at most one move apart. */
  ghost predicate Queued(walks: map<Tile, Walk>, queue: seq<Node>) {
    && (forall i :: 0 <= i < |queue| ==>
      queue[i].position in walks
      && queue[i].first == FirstAction(walks[queue[i].position]))
    && (forall i, j :: 0 <= i < j < |queue| ==>
          && queue[i].position != queue[j].position
          && |walks[queue[i].position]| <= |walks[queue[j].position]| <= |walks[queue[i].position]| + 1)
  }

  ghost function Cells(queue: seq<Node>): set<Tile> { set i | 0 <= i < |queue| :: queue[i].position }

  /** Everything reachable from a finished cell in one move has been visited. */
  ghost predicate Expanded(s: Snapshot, self: string, walks: map<Tile, Walk>, t: Tile) {
    forall d {:trigger Move(t, d)} :: d in DIRECTIONS && !Blocked(s, Move(t, d), self) ==> Move(t, d) in walks
  }

  ghost predicate Finished(s: Snapshot, self: string, target: Tile, stopAdjacent: bool, walks: map<Tile, Walk>,
      done: set<Tile>)
  {
    forall t {:trigger Expanded(s, self, walks, t)} :: t in done ==>
      t in walks && !Goal(t, target, stopAdjacent) && Expanded(s, self, walks, t)
  }

  /** Every walk shorter than k ends in a finished cell. */
  ghost predicate Explored(s: Snapshot, self: string, from: Tile, done: set<Tile>, k: nat) {
    forall w {:trigger Walkable(s, self, from, w)} :: Walkable(s, self, from, w) && |w| < k ==> Finish(from, w) in done
  }

  lemma WalkOneMore(s: Snapshot, self: string, from: Tile, w: Walk, d: Direction)
    requires Walkable(s, self, from, w) && d in DIRECTIONS && !Blocked(s, Move(Finish(from, w), d), self)
    ensures Walkable(s, self, from, w + [d]) && Finish(from, w + [d]) == Move(Finish(from, w), d)
    ensures FirstAction(w + [d]) == if FirstAction(w) == "" then d.action else FirstAction(w)
  {
    assert (w + [d])[..|w|] == w;
    if w != [] { FirstIsNamed(s, self, from, w); }
  }

  lemma {:induction false} FirstIsNamed(s: Snapshot, self: string, from: Tile, w: Walk)
    requires Walkable(s, self, from, w) && w != []
    ensures w[0] in DIRECTIONS && w[0].action != ""
    decreases |w|
  {
    if |w| > 1 { FirstIsNamed(s, self, from, w[..|w| - 1]); }
  }

  /** If all shorter walks end in finished cells, walks of length k end in visited ones. */
  lemma VisitedByThen(s: Snapshot, self: string, from: Tile, target: Tile, stopAdjacent: bool, walks: map<Tile, Walk>,
    done: set<Tile>, k: nat, w: Walk)
    requires Recorded(s, self, from, walks) && Finished(s, self, target, stopAdjacent, walks, done)
      && Explored(s, self, from, done, k)
    requires Walkable(s, self, from, w) && |w| <= k
    ensures Finish(from, w) in walks
  {
    if w != [] {
      var v := w[..|w| - 1];
      assert Finish(from, v) in done;
      assert Expanded(s, self, walks, Finish(from, v));
      assert Finish(from, w) == Move(Finish(from, v), w[|w| - 1]);
    }
  }

  /** When the head of the queue is k moves away, finishing it keeps the frontier explored. */
  lemma Advance(s: Snapshot, self: string, from: Tile, target: Tile, stopAdjacent: bool, walks: map<Tile, Walk>,
    done: set<Tile>, queue: seq<Node>, k: nat, k': nat)
    requires Recorded(s, self, from, walks) && Finished(s, self, target, stopAdjacent, walks, done)
      && Explored(s, self, from, done, k)
    requires Queued(walks, queue) && walks.Keys == done + Cells(queue) && k <= k' <= k + 1
    requires forall i :: 0 <= i < |queue| ==> k' <= |walks[queue[i].position]|
    ensures Explored(s, self, from, done, k')
  {
    forall w {:trigger Walkable(s, self, from, w)} | Walkable(s, self, from, w) && |w| < k'
      ensures Finish(from, w) in done
    {
      VisitedByThen(s, self, from, target, stopAdjacent, walks, done, k, w);
      var t := Finish(from, w);
      assert Nearest(s, self, from, t, walks[t]);
    }
  }

  /** With nothing left to expand, every walk stays among the finished cells. */
  lemma {:induction false} Exhausted(s: Snapshot, self: string, from: Tile, target: Tile, stopAdjacent: bool,
    walks: map<Tile, Walk>, done: set<Tile>, w: Walk)
    requires Recorded(s, self, from, walks) && Finished(s, self, target, stopAdjacent, walks, done)
      && walks.Keys == done
    requires Walkable(s, self, from, w)
    ensures Finish(from, w) in done
    decreases |w|
  {
    if w != [] {
      Exhausted(s, self, from, target, stopAdjacent, walks, done, w[..|w| - 1]);
      assert Expanded(s, self, walks, Finish(from, w[..|w| - 1]));
    }
  }

  /** A newly met cell is one move further than the cell it was met from, and no nearer. */
  lemma Discover(s: Snapshot, self: string, from: Tile, target: Tile, stopAdjacent: bool, old': map<Tile, Walk>,
    walks: map<Tile, Walk>, done: set<Tile>, at: Tile, d: Direction)
    requires Recorded(s, self, from, old') && Finished(s, self, target, stopAdjacent, old', done) && at in old'
    requires Explored(s, self, from, done, |old'[at]|)
    requires Recorded(s, self, from, walks) && old'.Keys <= walks.Keys && at in walks && walks[at] == old'[at]
    requires d in DIRECTIONS && !Blocked(s, Move(at, d), self) && Move(at, d) !in walks
    ensures Recorded(s, self, from, walks[Move(at, d) := walks[at] + [d]])
    ensures FirstAction(walks[at] + [d]) == if FirstAction(walks[at]) == "" then d.action else FirstAction(walks[at])
  {
    var t, w := Move(at, d), walks[at];
    assert Nearest(s, self, from, at, w);
    WalkOneMore(s, self, from, w, d);
    forall v | Walkable(s, self, from, v) && Finish(from, v) == t
      ensures |w + [d]| <= |v|
    {
      if |v| <= |w| { VisitedByThen(s, self, from, target, stopAdjacent, old', done, |w|, v); }
    }
    assert Nearest(s, self, from, t, w + [d]);
    var walks' := walks[t := w + [d]];
    forall u {:trigger walks'[u]} | u in walks' ensures Nearest(s, self, from, u, walks'[u]) {
      if u != t { assert walks'[u] == walks[u]; }
    }
  }

  /** The cells a search can ever visit. */
  ghost function Field(s: Snapshot, from: Tile): set<Tile> {
    {from} + set x, y | 0 < x < s.width - 1 && 0 < y < s.height - 1 :: Tile(x, y)
  }

  /** The queued cells lie k or k + 1 moves away. */
  ghost predicate Level(walks: map<Tile, Walk>, queue: seq<Node>, k: nat) {
    forall i :: 0 <= i < |queue| ==> queue[i].position in walks && k <= |walks[queue[i].position]| <= k + 1
  }

  /** The state of the search while the cell `at`, taken off the queue, is being expanded. */
  ghost predicate Opened(s: Snapshot, self: string, from: Tile, before: map<Tile, Walk>, rest: seq<Node>,
    done: set<Tile>, at: Tile,
                         walks: map<Tile, Walk>, queue: seq<Node>) {
    && Recorded(s, self, from, walks) && before.Keys <= walks.Keys <= Field(s, from)
    && (forall t :: t in before ==> walks[t] == before[t])
    && (walks.Keys == before.Keys ==> queue == rest)
    && Queued(walks, queue) && walks.Keys == done + {at} + Cells(queue) && at !in Cells(queue)
    && Level(walks, queue, |walks[at]|)
  }

  /** What the search knows when it takes a cell off the queue. */
  ghost predicate Ready(s: Snapshot, self: string, from: Tile, target: Tile, stopAdjacent: bool, walks: map<Tile, Walk>,
      queue: seq<Node>, done: set<Tile>)
  {
    && Recorded(s, self, from, walks) && Finished(s, self, target, stopAdjacent, walks, done)
      && walks.Keys <= Field(s, from)
    && Queued(walks, queue) && walks.Keys == done + Cells(queue)
    && (queue != [] ==> Explored(s, self, from, done, |walks[queue[0].position]|))
  }

  lemma Open(s: Snapshot, self: string, from: Tile, target: Tile, stopAdjacent: bool, walks: map<Tile, Walk>,
    queue: seq<Node>, done: set<Tile>)
    requires Ready(s, self, from, target, stopAdjacent, walks, queue, done) && queue != []
    ensures Opened(s, self, from, walks, queue[1..], done, queue[0].position, walks, queue[1..])
    ensures queue[0].position in walks && queue[0].first == FirstAction(walks[queue[0].position])
  {
    hide Recorded, Finished, Explored, Field, Queued, Level, Walkable, Finish, Nearest, FirstAction, Cells;
    QueueTail(walks, queue);
  }

  lemma QueueTail(walks: map<Tile, Walk>, queue: seq<Node>)
    requires Queued(walks, queue) && queue != []
    ensures queue[0].position in walks && queue[0].first == FirstAction(walks[queue[0].position])
    ensures var at, rest := queue[0].position, queue[1..];
      Queued(walks, rest) && Level(walks, rest, |walks[at]|) && at !in Cells(rest) && Cells(queue) == {at} + Cells(rest)
  {
    hide FirstAction;
    var rest := queue[1..];
    assert queue == [queue[0]] + rest;
    CellsOfCons(queue[0], rest);
    forall i | 0 <= i < |rest| ensures rest[i] == queue[i + 1] {}
  }

  lemma OpenMore(s: Snapshot, self: string, from: Tile, target: Tile, stopAdjacent: bool, before: map<Tile, Walk>,
    rest: seq<Node>, done: set<Tile>, at: Tile,
                 walks: map<Tile, Walk>, queue: seq<Node>, d: Direction, first: string)
    requires Opened(s, self, from, before, rest, done, at, walks, queue)
    requires Recorded(s, self, from, before) && Finished(s, self, target, stopAdjacent, before, done) && at in before
    requires Explored(s, self, from, done, |before[at]|)
    requires d in DIRECTIONS && !Blocked(s, Move(at, d), self) && Move(at, d) !in walks
    requires first == if FirstAction(walks[at]) == "" then d.action else FirstAction(walks[at])
    ensures Opened(s, self, from, before, rest, done, at, walks[Move(at, d) := walks[at] + [d]],
      queue + [Node(Move(at, d), first)])
  {
    hide Recorded, Finished, Explored, Field, Queued, FirstAction, Walkable, Finish, Nearest, Blocked;
    InField(s, self, from, Move(at, d));
    Discover(s, self, from, target, stopAdjacent, before, walks, done, at, d);
    Enqueue(walks, queue, at, Move(at, d), walks[at] + [d], Node(Move(at, d), first));
  }

  lemma InField(s: Snapshot, self: string, from: Tile, t: Tile)
    requires !Blocked(s, t, self)
    ensures t in Field(s, from)
  {}

  /** With all four neighbours looked at, the cell is finished. */
  lemma Close(s: Snapshot, self: string, from: Tile, target: Tile, stopAdjacent: bool, before: map<Tile, Walk>,
    rest: seq<Node>, done: set<Tile>, at: Tile,
              walks: map<Tile, Walk>, queue: seq<Node>)
    requires Opened(s, self, from, before, rest, done, at, walks, queue) && Recorded(s, self, from, before)
    requires Finished(s, self, target, stopAdjacent, before, done) && at in before && !Goal(at, target, stopAdjacent)
    requires Explored(s, self, from, done, |before[at]|) && Expanded(s, self, walks, at)
    ensures Ready(s, self, from, target, stopAdjacent, walks, queue, done + {at})
  {
    hide Recorded, Explored, Field, Queued, Walkable, Finish, Nearest, Goal, Blocked, FirstAction;
    forall t {:trigger Expanded(s, self, walks, t)} | t in done
      ensures t in walks && !Goal(t, target, stopAdjacent) && Expanded(s, self, walks, t)
    {
      assert Expanded(s, self, before, t);
    }
    AlsoExplored(s, self, from, done, at, |walks[at]|);
    if queue != [] {
      HeadIsNearest(walks, queue, |walks[at]|);
      Advance(s, self, from, target, stopAdjacent, walks, done + {at}, queue, |walks[at]|, |walks[queue[0].position]|);
    }
  }

  lemma HeadIsNearest(walks: map<Tile, Walk>, queue: seq<Node>, k: nat)
    requires Queued(walks, queue) && Level(walks, queue, k) && queue != []
    ensures queue[0].position in walks && k <= |walks[queue[0].position]| <= k + 1
    ensures forall i :: 0 <= i < |queue| ==>
      queue[i].position in walks && |walks[queue[0].position]| <= |walks[queue[i].position]|
  {}

  lemma AlsoExplored(s: Snapshot, self: string, from: Tile, done: set<Tile>, at: Tile, k: nat)
    requires Explored(s, self, from, done, k)
    ensures Explored(s, self, from, done + {at}, k)
  {}

  /** The four neighbours of one cell (charts.go:655-666). */
  method Expand(s: Snapshot, self: string, from: Tile, target: Tile, stopAdjacent: bool, queue0: seq<Node>,
    seen: set<Tile>,
                ghost before: map<Tile, Walk>, ghost done: set<Tile>)
    returns (queue: seq<Node>, visited: set<Tile>, ghost walks: map<Tile, Walk>)
    requires queue0 != [] && before.Keys == seen && Ready(s, self, from, target, stopAdjacent, before, queue0, done)
    requires !Goal(queue0[0].position, target, stopAdjacent)
    ensures walks.Keys == visited && Ready(s, self, from, target, stopAdjacent, walks, queue,
      done + {queue0[0].position})
    ensures seen <= visited && (visited == seen ==> queue == queue0[1..])
  {
    hide Ready, Opened, Recorded, Finished, Explored, Queued, FirstAction, Goal, Walkable, Finish, Nearest, Field,
      Blocked;
    var current := queue0[0];
    var at := current.position;
    Open(s, self, from, target, stopAdjacent, before, queue0, done);
    queue, visited, walks := queue0[1..], seen, before;
    for k := 0 to |DIRECTIONS|
      invariant Opened(s, self, from, before, queue0[1..], done, at, walks, queue) && walks.Keys == visited
      invariant at in walks && walks[at] == before[at]
      invariant forall j :: 0 <= j < k && !Blocked(s, Move(at, DIRECTIONS[j]), self) ==>
        Move(at, DIRECTIONS[j]) in walks
    {
      var direction := DIRECTIONS[k];
      var next := Move(at, direction);
      if next !in visited {
        var blocked := CellBlocked(s, next, self);
        if !blocked {
          var first := if current.first == "" then direction.action else current.first;
          Known(s, self, from, target, stopAdjacent, before, queue0, done);
          OpenMore(s, self, from, target, stopAdjacent, before, queue0[1..], done, at, walks, queue, direction, first);
          walks := walks[next := walks[at] + [direction]];
          visited := visited + {next};
          queue := queue + [Node(next, first)];
        }
      }
    }
    assert Expanded(s, self, walks, at) by {
      forall d {:trigger Move(at, d)} | d in DIRECTIONS && !Blocked(s, Move(at, d), self)
        ensures Move(at, d) in walks
      {
        var j :| 0 <= j < |DIRECTIONS| && DIRECTIONS[j] == d;
      }
    }
    Known(s, self, from, target, stopAdjacent, before, queue0, done);
    Close(s, self, from, target, stopAdjacent, before, queue0[1..], done, at, walks, queue);
    Grown(s, self, from, before, queue0[1..], done, at, walks, queue);
  }

  lemma Known(s: Snapshot, self: string, from: Tile, target: Tile, stopAdjacent: bool, walks: map<Tile, Walk>,
    queue: seq<Node>, done: set<Tile>)
    requires Ready(s, self, from, target, stopAdjacent, walks, queue, done) && queue != []
    ensures Recorded(s, self, from, walks) && Finished(s, self, target, stopAdjacent, walks, done)
    ensures queue[0].position in walks && Explored(s, self, from, done, |walks[queue[0].position]|)
    ensures Nearest(s, self, from, queue[0].position, walks[queue[0].position])
  {}

  lemma Grown(s: Snapshot, self: string, from: Tile, before: map<Tile, Walk>, rest: seq<Node>, done: set<Tile>,
    at: Tile, walks: map<Tile, Walk>, queue: seq<Node>)
    requires Opened(s, self, from, before, rest, done, at, walks, queue)
    ensures before.Keys <= walks.Keys && (walks.Keys == before.Keys ==> queue == rest)
  {}

  lemma CellsOfCons(n: Node, rest: seq<Node>)
    ensures Cells([n] + rest) == {n.position} + Cells(rest)
  {
    var q := [n] + rest;
    assert q[0] == n;
    forall t | t in Cells(rest) ensures t in Cells(q) {
      var i :| 0 <= i < |rest| && rest[i].position == t;
      assert q[i + 1].position == t;
    }
    forall t | t in Cells(q) ensures t in {n.position} + Cells(rest) {
      var i :| 0 <= i < |q| && q[i].position == t;
      if i > 0 { assert rest[i - 1] == q[i]; }
    }
  }

  /** Appending a cell one move beyond `at` keeps the queue in order. */
  lemma Enqueue(walks: map<Tile, Walk>, queue: seq<Node>, at: Tile, next: Tile, w: Walk, n: Node)
    requires Queued(walks, queue) && at in walks && next !in walks && |w| == |walks[at]| + 1
    requires n.position == next && n.first == FirstAction(w)
    requires forall i :: 0 <= i < |queue| ==> |walks[at]| <= |walks[queue[i].position]| <= |walks[at]| + 1
    ensures Queued(walks[next := w], queue + [n])
    ensures Cells(queue + [n]) == Cells(queue) + {next}
  {
    var q := queue + [n];
    forall t | t in Cells(queue) ensures t in Cells(q) {
      var i :| 0 <= i < |queue| && queue[i].position == t;
      assert q[i] == queue[i];
    }
    assert q[|queue|].position == next;
  }

  /** botRoute (charts.go:640-669). */
  method BotRoute(s: Snapshot, self: Creature, target: Tile, stopAdjacent: bool) returns (action: string)
    ensures var from := Tile(self.x, self.y);
      action == "" <==>
        Goal(from, target, stopAdjacent) || !exists w :: Arrives(s, self.id, from, target, stopAdjacent, w)
    ensures var from := Tile(self.x, self.y);
      action != "" ==>
        exists w: Walk ::
          ShortestRoute(s, self.id, from, target, stopAdjacent, w) && w != []
          && w[0].action == action
  {
    hide Ready, Arrives, Walkable, Finish, Nearest, Field, Blocked, Goal, ShortestRoute, FirstAction;
    var start := Tile(self.x, self.y);
    var queue := [Node(start, "")];
    var visited := {start};
    ghost var walks: map<Tile, Walk> := map[start := []];
    ghost var done: set<Tile> := {};
    Begin(s, self.id, start, target, stopAdjacent);
    while |queue| > 0
      invariant walks.Keys == visited && Ready(s, self.id, start, target, stopAdjacent, walks, queue, done)
      decreases Field(s, start) - visited, |queue|
    {
      var current := queue[0];
      Known(s, self.id, start, target, stopAdjacent, walks, queue, done);
      if Goal(current.position, target, stopAdjacent) {
        Reached(s, self.id, start, target, stopAdjacent, walks, queue, done);
        return current.first;
      }
      ghost var seen := visited;
      ghost var done' := done + {current.position};
      queue, visited, walks := Expand(s, self.id, start, target, stopAdjacent, queue, visited, walks, done);
      done := done';
      if visited != seen { MoreSeen(s, self.id, start, target, stopAdjacent, walks, queue, done, seen); }
    }
    NowhereToGo(s, self.id, start, target, stopAdjacent, walks, queue, done);
    action := "";
  }

  lemma MoreSeen(s: Snapshot, self: string, from: Tile, target: Tile, stopAdjacent: bool, walks: map<Tile, Walk>,
    queue: seq<Node>, done: set<Tile>, seen: set<Tile>)
    requires Ready(s, self, from, target, stopAdjacent, walks, queue, done) && seen < walks.Keys
    ensures Field(s, from) - walks.Keys < Field(s, from) - seen
  {
    hide Field;
    var t :| t in walks.Keys && t !in seen;
    assert t in Field(s, from);
  }

  lemma Begin(s: Snapshot, self: string, from: Tile, target: Tile, stopAdjacent: bool)
    ensures Ready(s, self, from, target, stopAdjacent, map[from := []], [Node(from, "")], {})
  {
    var queue := [Node(from, "")];
    assert Cells(queue) == {from} by { assert queue[0].position == from; }
    assert Nearest(s, self, from, from, []);
  }

  /** An empty queue means that no walk at all arrives. */
  lemma NowhereToGo(s: Snapshot, self: string, from: Tile, target: Tile, stopAdjacent: bool, walks: map<Tile, Walk>,
    queue: seq<Node>, done: set<Tile>)
    requires Ready(s, self, from, target, stopAdjacent, walks, queue, done) && queue == []
    ensures !exists w :: Arrives(s, self, from, target, stopAdjacent, w)
    ensures !Goal(from, target, stopAdjacent)
  {
    hide Recorded, Explored, Walkable, Finish, Goal, Blocked;
    assert walks.Keys == done;
    forall w ensures !Arrives(s, self, from, target, stopAdjacent, w) {
      if Walkable(s, self, from, w) {
        Exhausted(s, self, from, target, stopAdjacent, walks, done, w);
        NotGoal(s, self, target, stopAdjacent, walks, done, Finish(from, w));
      }
    }
    Here(s, self, from);
    assert !Arrives(s, self, from, target, stopAdjacent, []);
  }

  lemma Here(s: Snapshot, self: string, from: Tile)
    ensures Walkable(s, self, from, []) && Finish(from, []) == from
  {}

  lemma NotGoal(s: Snapshot, self: string, target: Tile, stopAdjacent: bool, walks: map<Tile, Walk>, done: set<Tile>,
    t: Tile)
    requires Finished(s, self, target, stopAdjacent, walks, done) && t in done
    ensures !Goal(t, target, stopAdjacent)
  {
    assert Expanded(s, self, walks, t);
  }

  /** The first goal cell taken from the queue is a nearest one. */
  lemma Reached(s: Snapshot, self: string, from: Tile, target: Tile, stopAdjacent: bool, walks: map<Tile, Walk>,
    queue: seq<Node>, done: set<Tile>)
    requires Ready(s, self, from, target, stopAdjacent, walks, queue, done) && queue != []
    requires Goal(queue[0].position, target, stopAdjacent)
    ensures queue[0].first == "" <==> Goal(from, target, stopAdjacent)
    ensures queue[0].first == "" <==> Goal(from, target, stopAdjacent) || !exists w ::
      Arrives(s, self, from, target, stopAdjacent, w)
    ensures queue[0].first != "" ==>
      exists w: Walk :: ShortestRoute(s, self, from, target, stopAdjacent, w) && w != []
        && w[0].action == queue[0].first
  {
    hide Recorded, Walkable, Finish, Goal, Blocked;
    var at := queue[0].position;
    var w := walks[at];
    Known(s, self, from, target, stopAdjacent, walks, queue, done);
    assert Arrives(s, self, from, target, stopAdjacent, w);
    forall v | Arrives(s, self, from, target, stopAdjacent, v) ensures |w| <= |v| {
      if Finish(from, v) in done { NotGoal(s, self, target, stopAdjacent, walks, done, Finish(from, v)); }
    }
    if w != [] { FirstIsNamed(s, self, from, w); }
    Here(s, self, from);
    if Goal(from, target, stopAdjacent) { assert Arrives(s, self, from, target, stopAdjacent, []); }
  }
}
