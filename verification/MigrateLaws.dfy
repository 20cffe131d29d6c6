/** What any number of moves keeps, over a set of routes that files may take: the
    moves of a command, and where two of them in a row lead. */
module MigrateLaws {
  import opened FileTree
  import opened Mover
  import opened RootPlan
  import M = Migration

  /** Two moves do not get in each other's way. */
  ghost predicate Beside(a: Candidate, b: Candidate) {
    && Apart(a.from, b.to) && (a.from != b.from ==> Apart(a.from, b.from)) && (a.from == b.from ==> a == b)
    && a.to != []
  }

  ghost predicate TwoPlaces(a: Candidate, b: Candidate) {
    a != b ==> Apart(a.to, b.to)
  }

  /** Where `c` may be followed by `b`, that is a route as well. */
  ghost predicate Composes(c: Candidate, b: Candidate, routes: set<Candidate>) {
    || Apart(c.to, b.from)
    || (Under(c.to, b.from) && Candidate(c.from, Relocate(c.to, b.from, b.to)) in routes)
  }

  /** The queue moves stay out of the way of all others, except that a queue
      directory may lie in the destination of another move. */
  ghost predicate Clean(routes: set<Candidate>, queue: seq<Candidate>) {
    && (forall c, k | c in routes && k in queue :: Beside(c, k) && Beside(k, c))
    && (forall a, b | a in queue && b in queue :: TwoPlaces(a, b))
    && (forall a | a in queue :: a in routes)
    && (forall c, b | c in routes && b in routes :: Composes(c, b, routes))
  }

  ghost predicate TakenTo(routes: set<Candidate>, t: Tree, d: set<Path>, p: Path, n: Node) {
    exists c :: c in routes && Under(p, c.from) && SafeAt(t, d, Relocate(p, c.from, c.to), n)
  }

  /** The queue has a file of this name already, and the vault too. */
  ghost predicate Clash(queue: seq<Candidate>, t: Tree, p: Path) {
    exists k :: k in queue && Under(p, k.to) && Relocate(p, k.to, k.from) in t
  }

  /** Every safe file is where it was or where a move takes it, but for files of the
      queue whose names the vault has too. */
  ghost predicate Kept(routes: set<Candidate>, queue: seq<Candidate>, t: Tree, d: set<Path>, t': Tree, d': set<Path>) {
    forall p | p in t && t[p].File? && p !in d ::
      SafeAt(t', d', p, t[p]) || TakenTo(routes, t', d', p, t[p]) || Clash(queue, t, p)
  }

  /** In the vault nothing appears or changes. */
  ghost predicate Shrunk(queue: seq<Candidate>, t: Tree, d: set<Path>, t': Tree, d': set<Path>) {
    forall p, k | p in t' && k in queue && Under(p, k.from) :: p in t && (p !in d ==> t'[p] == t[p] && p !in d')
  }

  ghost predicate Waiting(queue: seq<Candidate>, t: Tree) {
    exists k :: k in queue && Exists(t, k.from)
  }

  /** While the vault has something to move, nothing else has moved into the queue. */
  ghost predicate QueueHeld(routes: set<Candidate>, queue: seq<Candidate>, t: Tree, d: set<Path>,
                            t': Tree, d': set<Path>)
  {
    Waiting(queue, t') ==>
      forall c, k | c in routes && c !in queue && k in queue && !Apart(c.to, k.to) :: M.StillThere(t, d, t', d', c.from)
  }

  lemma WaitsLess(queue: seq<Candidate>, t: Tree, d: set<Path>, t': Tree, d': set<Path>)
    requires Shrunk(queue, t, d, t', d')
    ensures forall k | k in queue && Exists(t', k.from) :: Exists(t, k.from)
    ensures Waiting(queue, t') ==> Waiting(queue, t)
  {
  }

  lemma ShrunkTwice(queue: seq<Candidate>, t: Tree, d: set<Path>, u: Tree, e: set<Path>, v: Tree, f: set<Path>)
    requires Shrunk(queue, t, d, u, e) && Shrunk(queue, u, e, v, f)
    ensures Shrunk(queue, t, d, v, f)
  {
  }

  lemma HeldTwice(routes: set<Candidate>, queue: seq<Candidate>, t: Tree, d: set<Path>, u: Tree, e: set<Path>,
                  v: Tree, f: set<Path>)
    requires Clean(routes, queue) && Shrunk(queue, u, e, v, f)
    requires QueueHeld(routes, queue, t, d, u, e) && QueueHeld(routes, queue, u, e, v, f)
    ensures QueueHeld(routes, queue, t, d, v, f)
  {
  }

  /** A file still at home after the first runs. */
  lemma KeptAtHome(routes: set<Candidate>, queue: seq<Candidate>, t: Tree, d: set<Path>, u: Tree, e: set<Path>,
                   v: Tree, f: set<Path>, p: Path)
    requires Clean(routes, queue) && Shrunk(queue, t, d, u, e) && Kept(routes, queue, u, e, v, f)
    requires p in t && t[p].File? && SafeAt(u, e, p, t[p])
    ensures SafeAt(v, f, p, t[p]) || TakenTo(routes, v, f, p, t[p]) || Clash(queue, t, p)
  {
  }

  /** A file that a first run has moved, and a second one moves onto. */
  lemma MovedOnto(routes: set<Candidate>, queue: seq<Candidate>, t: Tree, d: set<Path>, u: Tree, e: set<Path>,
                  c: Candidate, p: Path)
    requires Clean(routes, queue) && Shrunk(queue, t, d, u, e) && QueueHeld(routes, queue, t, d, u, e)
    requires p in t && t[p].File? && p !in d && c in routes && Under(p, c.from)
    requires Clash(queue, u, Relocate(p, c.from, c.to))
    ensures SafeAt(u, e, p, t[p])
  {
    var q := Relocate(p, c.from, c.to);
    var k :| k in queue && Under(q, k.to) && Relocate(q, k.to, k.from) in u;
    RelocateBack(p, c.from, c.to);
    RelocateBack(q, k.to, k.from);
    if Apart(c.to, k.to) {
      UnderBoth(q, c.to, k.to);
    }
    if c in queue {
      assert TwoPlaces(c, k);
      assert Relocate(q, k.to, k.from) == p && Under(p, k.from);
    } else {
      assert Exists(u, k.from);
      assert M.StillThere(t, d, u, e, c.from);
    }
  }

  /** More runs: with the queue phase as before, or with none. */
  lemma KeptTwice(routes: set<Candidate>, queue: seq<Candidate>, more: seq<Candidate>, t: Tree, d: set<Path>,
                  u: Tree, e: set<Path>, v: Tree, f: set<Path>)
    requires Clean(routes, queue) && Kept(routes, queue, t, d, u, e) && Shrunk(queue, t, d, u, e)
    requires more == [] || (more == queue && QueueHeld(routes, queue, t, d, u, e))
    requires Kept(routes, more, u, e, v, f)
    ensures Kept(routes, queue, t, d, v, f)
  {
    assert Kept(routes, queue, u, e, v, f) by {
      assert more == [] ==> forall p :: !Clash(more, u, p);
    }
    forall p | p in t && t[p].File? && p !in d
      ensures SafeAt(v, f, p, t[p]) || TakenTo(routes, v, f, p, t[p]) || Clash(queue, t, p)
    {
      if SafeAt(u, e, p, t[p]) {
        KeptAtHome(routes, queue, t, d, u, e, v, f, p);
      } else if c :| c in routes && Under(p, c.from) && SafeAt(u, e, Relocate(p, c.from, c.to), t[p]) {
        KeptAway(routes, queue, more, t, d, u, e, v, f, c, p);
      }
    }
  }

  /** Two moves in a row are a route. */
  lemma TwoMoves(routes: set<Candidate>, c: Candidate, b: Candidate, p: Path)
    requires Composes(c, b, routes) && Under(p, c.from) && Under(Relocate(p, c.from, c.to), b.from)
    ensures exists r :: r in routes && r.from == c.from
                        && Relocate(p, r.from, r.to) == Relocate(Relocate(p, c.from, c.to), b.from, b.to)
  {
    var q := Relocate(p, c.from, c.to);
    RelocateBack(p, c.from, c.to);
    if Apart(c.to, b.from) {
      UnderBoth(q, c.to, b.from);
    } else {
      assert q[|b.from|..] == c.to[|b.from|..] + p[|c.from|..];
      assert Candidate(c.from, Relocate(c.to, b.from, b.to)) in routes;
    }
  }

  lemma KeptAway(routes: set<Candidate>, queue: seq<Candidate>, more: seq<Candidate>, t: Tree, d: set<Path>,
                 u: Tree, e: set<Path>, v: Tree, f: set<Path>, c: Candidate, p: Path)
    requires Clean(routes, queue) && Shrunk(queue, t, d, u, e)
    requires more == [] || (more == queue && QueueHeld(routes, queue, t, d, u, e))
    requires Kept(routes, more, u, e, v, f)
    requires p in t && t[p].File? && p !in d && c in routes && Under(p, c.from) && !SafeAt(u, e, p, t[p])
    requires SafeAt(u, e, Relocate(p, c.from, c.to), t[p])
    ensures TakenTo(routes, v, f, p, t[p])
  {
    var q := Relocate(p, c.from, c.to);
    RelocateBack(p, c.from, c.to);
    if Clash(more, u, q) {
      MovedOnto(routes, queue, t, d, u, e, c, p);
    } else if TakenTo(routes, v, f, q, u[q]) {
      var b :| b in routes && Under(q, b.from) && SafeAt(v, f, Relocate(q, b.from, b.to), u[q]);
      TwoMoves(routes, c, b, p);
    }
  }

  // ------------------------------------------------------------ single steps

  lemma NotAtSource(c: Candidate, to: Path, p: Path)
    requires Apart(c.from, to) && to != [] && Under(p, c.from)
    ensures !Under(p, to) && p != Parent(to)
  {
  }

  /** One directory of the queue. */
  lemma QueueStepKeeps(routes: set<Candidate>, queue: seq<Candidate>, k: Candidate, t: Tree, d: set<Path>,
                       t': Tree, d': set<Path>)
    requires Clean(routes, queue) && k in queue
    requires ConservedBeside(t, d, t', d', k.from, k.to) && OnlyWithin(t, d, t', d', k.to)
    ensures Kept(routes, queue, t, d, t', d') && Shrunk(queue, t, d, t', d') && QueueHeld(routes, queue, t, d, t', d')
  {
    forall p, c | p in t' && c in queue && Under(p, c.from) ensures p in t && (p !in d ==> t'[p] == t[p] && p !in d') {
      assert Beside(c, k) && Beside(k, c);
      NotAtSource(c, k.to, p);
    }
    forall c, p | c in routes && c !in queue && p in t && t[p].File? && p !in d && Under(p, c.from)
      ensures SafeAt(t', d', p, t[p])
    {
      assert Beside(c, k) && Beside(k, k);
      NotAtSource(c, k.to, p);
      if Under(p, k.from) {
        UnderBoth(p, c.from, k.from);
      }
    }
  }

  /** Pairs all of which are routes. */
  ghost predicate Among(pairs: seq<M.Pair>, routes: set<Candidate>) {
    forall i | 0 <= i < |pairs| :: Candidate(pairs[i].from, pairs[i].to) in routes
  }

  lemma PairsShrink(routes: set<Candidate>, queue: seq<Candidate>, pairs: seq<M.Pair>, t: Tree, d: set<Path>,
                    t': Tree, d': set<Path>)
    requires Clean(routes, queue) && Among(pairs, routes) && M.Elsewhere(pairs, t, d, t', d')
    ensures Shrunk(queue, t, d, t', d')
  {
    forall p, k | p in t' && k in queue && Under(p, k.from) ensures p in t && (p !in d ==> t'[p] == t[p] && p !in d') {
      forall i | 0 <= i < |pairs| ensures !Under(p, pairs[i].to) && p != Parent(pairs[i].to) {
        assert Beside(k, Candidate(pairs[i].from, pairs[i].to)) && Beside(Candidate(pairs[i].from, pairs[i].to), k);
        NotAtSource(k, pairs[i].to, p);
      }
    }
  }

  lemma PairsKeep(routes: set<Candidate>, pairs: seq<M.Pair>, t: Tree, d: set<Path>, t': Tree, d': set<Path>)
    requires Among(pairs, routes) && M.Placed(pairs, t, d, t', d')
    ensures Kept(routes, [], t, d, t', d')
  {
    forall p | p in t && t[p].File? && p !in d ensures SafeAt(t', d', p, t[p]) || TakenTo(routes, t', d', p, t[p]) {
      if !SafeAt(t', d', p, t[p]) {
        var i :| 0 <= i < |pairs| && Under(p, pairs[i].from)
                 && SafeAt(t', d', Relocate(p, pairs[i].from, pairs[i].to), t[p]);
        assert Candidate(pairs[i].from, pairs[i].to) in routes;
      }
    }
  }

  // ------------------------------------------------------------ whole runs

  /** What a run may do to the disk: with the queue phase, or without. */
  ghost predicate Careful(routes: set<Candidate>, queue: seq<Candidate>, t: Tree, d: set<Path>,
                          t': Tree, d': set<Path>)
  {
    Kept(routes, queue, t, d, t', d') && Shrunk(queue, t, d, t', d') && QueueHeld(routes, queue, t, d, t', d')
  }

  ghost predicate Plain(routes: set<Candidate>, queue: seq<Candidate>, t: Tree, d: set<Path>, t': Tree, d': set<Path>) {
    Kept(routes, [], t, d, t', d') && Shrunk(queue, t, d, t', d')
  }

  lemma CarefulTwice(routes: set<Candidate>, queue: seq<Candidate>, t: Tree, d: set<Path>, u: Tree, e: set<Path>,
                     v: Tree, f: set<Path>)
    requires Clean(routes, queue) && Careful(routes, queue, t, d, u, e) && Careful(routes, queue, u, e, v, f)
    ensures Careful(routes, queue, t, d, v, f)
  {
    KeptTwice(routes, queue, queue, t, d, u, e, v, f);
    ShrunkTwice(queue, t, d, u, e, v, f);
    HeldTwice(routes, queue, t, d, u, e, v, f);
  }

  /** Moves of pairs, once nothing waits in the vault. */
  lemma ThenPlain(routes: set<Candidate>, queue: seq<Candidate>, t: Tree, d: set<Path>, u: Tree, e: set<Path>,
                  v: Tree, f: set<Path>)
    requires Clean(routes, queue) && Careful(routes, queue, t, d, u, e) && !Waiting(queue, u)
    requires Plain(routes, queue, u, e, v, f)
    ensures Careful(routes, queue, t, d, v, f) && !Waiting(queue, v)
  {
    KeptTwice(routes, queue, [], t, d, u, e, v, f);
    ShrunkTwice(queue, t, d, u, e, v, f);
    WaitsLess(queue, u, e, v, f);
  }

  lemma PlainTwice(routes: set<Candidate>, queue: seq<Candidate>, t: Tree, d: set<Path>, u: Tree, e: set<Path>,
                   v: Tree, f: set<Path>)
    requires Clean(routes, queue) && Plain(routes, queue, t, d, u, e) && Plain(routes, queue, u, e, v, f)
    ensures Plain(routes, queue, t, d, v, f)
  {
    EmptyQueue(routes, queue);
    KeptTwice(routes, [], [], t, d, u, e, v, f);
    ShrunkTwice(queue, t, d, u, e, v, f);
  }

  /** What a run keeps, with the vault's queue or without. */
  ghost predicate RunKeeps(vaultSet: bool, routes: set<Candidate>, queue: seq<Candidate>, t: Tree, d: set<Path>,
                           t': Tree, d': set<Path>)
  {
    if vaultSet then Careful(routes, queue, t, d, t', d') else Plain(routes, queue, t, d, t', d')
  }

  lemma RunThenPlain(vaultSet: bool, routes: set<Candidate>, queue: seq<Candidate>, t: Tree, d: set<Path>,
                     u: Tree, e: set<Path>, v: Tree, f: set<Path>)
    requires Clean(routes, queue) && RunKeeps(vaultSet, routes, queue, t, d, u, e) && Plain(routes, queue, u, e, v, f)
    requires vaultSet ==> !Waiting(queue, u)
    ensures RunKeeps(vaultSet, routes, queue, t, d, v, f) && (vaultSet ==> !Waiting(queue, v))
  {
    if vaultSet {
      ThenPlain(routes, queue, t, d, u, e, v, f);
    } else {
      PlainTwice(routes, queue, t, d, u, e, v, f);
    }
  }

  lemma EmptyQueue(routes: set<Candidate>, queue: seq<Candidate>)
    requires Clean(routes, queue)
    ensures Clean(routes, [])
  {
  }

  /** Some more runs, with the queue phase or, once the configuration no longer
      names the vault, without. */
  lemma ThenRun(routes: set<Candidate>, queue: seq<Candidate>, vaultSet: bool, t: Tree, d: set<Path>,
                u: Tree, e: set<Path>, v: Tree, f: set<Path>)
    requires Clean(routes, queue) && Kept(routes, queue, t, d, u, e) && Shrunk(queue, t, d, u, e)
    requires RunKeeps(vaultSet, routes, queue, u, e, v, f) && (vaultSet ==> QueueHeld(routes, queue, t, d, u, e))
    ensures Kept(routes, queue, t, d, v, f) && Shrunk(queue, t, d, v, f)
    ensures vaultSet ==> QueueHeld(routes, queue, t, d, v, f)
  {
    ShrunkTwice(queue, t, d, u, e, v, f);
    if vaultSet {
      CarefulTwice(routes, queue, t, d, u, e, v, f);
    } else {
      KeptTwice(routes, queue, [], t, d, u, e, v, f);
    }
  }
}
