/** Which root holds the data, which pairs a migration plans, and why a migration
    that was cut short finds all that is left. */
module RootPlan {
  import opened Wrappers
  import opened FileTree
  import opened Mover
  import M = Migration

  // ------------------------------------------------------------ the mapping

  /** A name of the flat layout and its place in the current one. */
  datatype Entry = Entry(name: string, place: Path)

  const FLAT: seq<Entry> := [
    Entry("queue", ["queue"]),
    Entry("review", ["review"]),
    Entry("watchlist.json", ["watchlist.json"]),
    Entry("migrated.json", ["migrated.json"]),
    Entry("outbox", ["data", "outbox"]),
    Entry("assess-history", ["data", "assess-history"]),
    Entry("history", ["data", "history"]),
    Entry("transcripts", ["data", "transcripts"]),
    Entry("plans", ["data", "plans"]),
    Entry("chats", ["data", "chats"]),
    Entry("chat-drafts", ["data", "chat-drafts"]),
    Entry("spend.json", ["data", "spend.json"]),
    Entry("metrics.json", ["data", "metrics.json"]),
    Entry("clones", ["cache", "clones"]),
    Entry("worktrees", ["cache", "worktrees"]),
    Entry("github-cache", ["cache", "github-cache"]),
    Entry("mirror", ["cache", "mirror"]),
    Entry("update-check.json", ["cache", "update-check.json"]),
    Entry("worker.log", ["logs", "worker.log"])
  ]

  const GROUPS := {"data", "cache", "logs"}

  predicate Shaped(e: Entry) {
    e.name !in GROUPS && (e.place == [e.name] || exists g | g in GROUPS :: e.place == [g, e.name])
  }

  lemma FlatNamesDiffer()
    ensures forall i, j | 0 <= i < j < |FLAT| :: FLAT[i].name != FLAT[j].name
  {
  }

  lemma FlatIsShaped()
    ensures forall e | e in FLAT :: Shaped(e)
    ensures forall i, j | 0 <= i < j < |FLAT| :: FLAT[i].name != FLAT[j].name
  {
    FlatNamesDiffer();
    forall i | 0 <= i < |FLAT| ensures Shaped(FLAT[i]) {
      assert i < 4 || FLAT[i].place == [FLAT[i].place[0], FLAT[i].name];
    }
  }

  /** Four names stay, five go to the cache, one to the logs, the rest to the data. */
  lemma FlatNamesGo()
    ensures forall e | e in FLAT ::
              e.place == if e.name in {"queue", "review", "watchlist.json", "migrated.json"} then [e.name]
                         else if e.name in {"clones", "worktrees", "github-cache", "mirror", "update-check.json"} then
                           ["cache", e.name]
                         else if e.name == "worker.log" then ["logs", e.name]
                         else ["data", e.name]
    ensures |FLAT| == 19
  {
    forall i | 0 <= i < |FLAT|
      ensures FLAT[i].place == if i < 4 then [FLAT[i].name] else if i < 13 then ["data", FLAT[i].name]
                               else if i < 18 then ["cache", FLAT[i].name] else ["logs", FLAT[i].name]
    {
    }
    FlatIsShaped();
  }

  /** A source and its destination. */
  datatype Candidate = Candidate(from: Path, to: Path)

  function PairsOf(entries: seq<Entry>, fromRoot: Path, toRoot: Path): seq<Candidate> {
    if entries == [] then []
    else
      var c := Candidate(fromRoot + [entries[0].name], toRoot + entries[0].place);
      (if c.from == c.to then [] else [c]) + PairsOf(entries[1..], fromRoot, toRoot)
  }

  function FlatToV2Pairs(fromRoot: Path, toRoot: Path): seq<Candidate> {
    PairsOf(FLAT, fromRoot, toRoot)
  }

  // ------------------------------------------------------------ roots

  predicate HasTree(t: Tree, root: Path) {
    exists m | m in ["queue", "data", "cache", "transcripts", "history"] :: Exists(t, root + [m])
  }

  /** The roots of a machine: the canonical one and the one before 0.10. */
  datatype Roots = Roots(canonical: Path, legacy: Path)

  /** The data root in use, and whether it is the legacy one. */
  function ResolveDataRoot(t: Tree, r: Roots, override: Option<Path>): (Path, bool) {
    match override
    case Some(root) => (root, false)
    case None =>
      if !HasTree(t, r.canonical) && Exists(t, r.legacy) then (r.legacy, true) else (r.canonical, false)
  }

  /** Whatever data there is, in the canonical root or, failing that, in the legacy root,
      is where resolution looks; a root that is named is taken. */
  lemma DataIsFound(t: Tree, r: Roots, override: Option<Path>)
    ensures override.None? && (HasTree(t, r.canonical) || Exists(t, r.legacy)) ==>
              Exists(t, ResolveDataRoot(t, r, override).0)
    ensures override.None? && HasTree(t, r.canonical) ==> ResolveDataRoot(t, r, override) == (r.canonical, false)
    ensures forall m | m in {"queue", "data", "cache", "transcripts", "history"} && Exists(t, r.canonical + [m]) ::
              override.None? ==> ResolveDataRoot(t, r, override) == (r.canonical, false)
    ensures override.None? && !Exists(t, r.legacy) ==> ResolveDataRoot(t, r, override) == (r.canonical, false)
    ensures override.Some? ==> ResolveDataRoot(t, r, override) == (override.value, false)
    ensures ResolveDataRoot(t, r, override).1 ==> ResolveDataRoot(t, r, override).0 == r.legacy
  {
    forall m | m in {"queue", "data", "cache", "transcripts", "history"} && Exists(t, r.canonical + [m])
      ensures HasTree(t, r.canonical)
    {
    }
    if HasTree(t, r.canonical) {
      var m :| m in ["queue", "data", "cache", "transcripts", "history"] && Exists(t, r.canonical + [m]);
      var q :| q in t && Under(q, r.canonical + [m]);
      assert Under(q, r.canonical);
    }
  }

  function TargetRoot(r: Roots, resolved: (Path, bool)): Path {
    if resolved.1 then r.canonical else resolved.0
  }

  /** The legacy root is probed whenever the move ends at the canonical root. */
  function SourceRoots(r: Roots, dataDir: Path, target: Path): seq<Path> {
    if target == r.canonical && r.legacy != dataDir then [dataDir, r.legacy] else [dataDir]
  }

  // ------------------------------------------------------------ the plan

  datatype Planned = Planned(from: Path, to: Path, pending: bool, contendedBy: Option<Path>)

  /** Who gets the destination: the first pending source, else the first one. */
  function Winner(cs: seq<Candidate>, t: Tree, to: Path): Option<Planned> {
    if cs == [] then None
    else
      var c, w := cs[|cs| - 1], Winner(cs[..|cs| - 1], t, to);
      if c.to != to || (w.Some? && (w.value.pending || !Exists(t, c.from))) then w
      else Some(Planned(c.from, c.to, Exists(t, c.from), None))
  }

  /** Pending sources that come too late, each with the winner's source. */
  function Losers(cs: seq<Candidate>, t: Tree): seq<Planned> {
    if cs == [] then []
    else
      var c, w := cs[|cs| - 1], Winner(cs[..|cs| - 1], t, cs[|cs| - 1].to);
      Losers(cs[..|cs| - 1], t)
      + if Exists(t, c.from) && w.Some? && w.value.pending
        then [Planned(c.from, c.to, true, Some(w.value.from))] else []
  }

  function Places(cs: seq<Candidate>): seq<Path> {
    if cs == [] then []
    else
      var rest := Places(cs[..|cs| - 1]);
      if cs[|cs| - 1].to in rest then rest else rest + [cs[|cs| - 1].to]
  }

  lemma {:induction false} PlacesAre(cs: seq<Candidate>, t: Tree, to: Path)
    ensures to in Places(cs) <==> Winner(cs, t, to).Some?
    ensures Winner(cs, t, to).Some? ==> Winner(cs, t, to).value.to == to
    ensures forall i, j | 0 <= i < j < |Places(cs)| :: Places(cs)[i] != Places(cs)[j]
  {
    if cs != [] {
      PlacesAre(cs[..|cs| - 1], t, to);
    }
  }

  function Winners(places: seq<Path>, cs: seq<Candidate>, t: Tree): seq<Planned> {
    if places == [] then []
    else
      var w := Winner(cs, t, places[|places| - 1]);
      Winners(places[..|places| - 1], cs, t) + if w.Some? then [w.value] else []
  }

  function Plan(cs: seq<Candidate>, t: Tree): seq<Planned> {
    Winners(Places(cs), cs, t) + Losers(cs, t)
  }

  function AllCandidates(sources: seq<Path>, target: Path): seq<Candidate> {
    if sources == [] then []
    else AllCandidates(sources[..|sources| - 1], target) + FlatToV2Pairs(sources[|sources| - 1], target)
  }

  /** What the planner holds after the candidates `seen`. */
  ghost predicate Tracks(byTarget: map<Path, Planned>, order: seq<Path>, contended: seq<Planned>,
                         seen: seq<Candidate>, t: Tree)
  {
    && order == Places(seen) && contended == Losers(seen, t)
    && (forall to :: to in byTarget <==> Winner(seen, t, to).Some?)
    && (forall to | to in byTarget :: byTarget[to] == Winner(seen, t, to).value)
  }

  /** One more candidate. */
  lemma OneMore(seen: seq<Candidate>, c: Candidate, t: Tree, to: Path)
    ensures Winner(seen + [c], t, to)
         == if c.to != to || (Winner(seen, t, to).Some? && (Winner(seen, t, to).value.pending || !Exists(t, c.from)))
            then Winner(seen, t, to) else Some(Planned(c.from, c.to, Exists(t, c.from), None))
    ensures Places(seen + [c]) == if c.to in Places(seen) then Places(seen) else Places(seen) + [c.to]
  {
  }

  lemma OneMoreLoser(seen: seq<Candidate>, c: Candidate, t: Tree)
    ensures Losers(seen + [c], t)
         == Losers(seen, t)
            + if Exists(t, c.from) && Winner(seen, t, c.to).Some? && Winner(seen, t, c.to).value.pending
              then [Planned(c.from, c.to, true, Some(Winner(seen, t, c.to).value.from))] else []
  {
  }

  method Consider(c: Candidate, t: Tree, byTarget: map<Path, Planned>, order: seq<Path>, contended: seq<Planned>,
                  ghost seen: seq<Candidate>)
    returns (byTarget': map<Path, Planned>, order': seq<Path>, contended': seq<Planned>)
    requires Tracks(byTarget, order, contended, seen, t)
    ensures Tracks(byTarget', order', contended', seen + [c], t)
  {
    OneMore(seen, c, t, c.to);
    OneMoreLoser(seen, c, t);
    PlacesAre(seen, t, c.to);
    byTarget', order', contended' := byTarget, order, contended;
    var pending := Exists(t, c.from);
    if c.to !in byTarget {
      byTarget' := byTarget[c.to := Planned(c.from, c.to, pending, None)];
      order' := order + [c.to];
    } else if pending {
      if !byTarget[c.to].pending {
        byTarget' := byTarget[c.to := Planned(c.from, c.to, pending, None)];
      } else {
        contended' := contended + [Planned(c.from, c.to, pending, Some(byTarget[c.to].from))];
      }
    }
    forall to ensures (to in byTarget' <==> Winner(seen + [c], t, to).Some?)
                      && (to in byTarget' ==> byTarget'[to] == Winner(seen + [c], t, to).value)
    {
      OneMore(seen, c, t, to);
    }
  }

  method ConsiderAll(cs: seq<Candidate>, t: Tree, byTarget: map<Path, Planned>, order: seq<Path>,
                     contended: seq<Planned>, ghost seen: seq<Candidate>)
    returns (byTarget': map<Path, Planned>, order': seq<Path>, contended': seq<Planned>)
    requires Tracks(byTarget, order, contended, seen, t)
    ensures Tracks(byTarget', order', contended', seen + cs, t)
  {
    byTarget', order', contended' := byTarget, order, contended;
    assert seen + cs[..0] == seen;
    for i := 0 to |cs|
      invariant Tracks(byTarget', order', contended', seen + cs[..i], t)
    {
      byTarget', order', contended' := Consider(cs[i], t, byTarget', order', contended', seen + cs[..i]);
      assert seen + cs[..i] + [cs[i]] == seen + cs[..i + 1];
    }
    assert cs[..|cs|] == cs;
  }

  /** The planner: a map from destinations to winners, in order of insertion, and
      a list of losers. */
  method DataRootPairs(t: Tree, sources: seq<Path>, target: Path) returns (plan: seq<Planned>)
    ensures plan == Plan(AllCandidates(sources, target), t)
  {
    var byTarget: map<Path, Planned>, order: seq<Path>, contended: seq<Planned> := map[], [], [];
    ghost var seen: seq<Candidate> := [];
    for s := 0 to |sources|
      invariant seen == AllCandidates(sources[..s], target)
      invariant Tracks(byTarget, order, contended, seen, t)
    {
      var pairs := FlatToV2Pairs(sources[s], target);
      byTarget, order, contended := ConsiderAll(pairs, t, byTarget, order, contended, seen);
      seen := seen + pairs;
      assert sources[..s + 1][..s] == sources[..s];
    }
    assert sources[..|sources|] == sources;
    plan := Values(order, byTarget, contended, seen, t);
    plan := plan + contended;
  }

  method Values(order: seq<Path>, byTarget: map<Path, Planned>, ghost contended: seq<Planned>,
                ghost seen: seq<Candidate>, ghost t: Tree)
    returns (plan: seq<Planned>)
    requires Tracks(byTarget, order, contended, seen, t)
    ensures plan == Winners(order, seen, t)
  {
    plan := [];
    for i := 0 to |order|
      invariant plan == Winners(order[..i], seen, t)
    {
      PlacesAre(seen, t, order[i]);
      assert order[..i + 1][..i] == order[..i];
      plan := plan + [byTarget[order[i]]];
    }
    assert order[..|order|] == order;
  }

  // ------------------------------------------------------------ nothing is dropped

  /** The winner is the first pending source of its destination; without one it
      is inert. */
  lemma {:induction false} WinnerIsFirst(cs: seq<Candidate>, t: Tree, to: Path)
    ensures Winner(cs, t, to).None? <==> forall c | c in cs :: c.to != to
    ensures Winner(cs, t, to).Some? ==>
              var w := Winner(cs, t, to).value; w.to == to && w.contendedBy == None && w.pending == Exists(t, w.from)
    ensures Winner(cs, t, to).Some? ==>
              exists i :: 0 <= i < |cs| && cs[i].from == Winner(cs, t, to).value.from && cs[i].to == to
                          && forall j | 0 <= j < i && cs[j].to == to :: !Exists(t, cs[j].from)
    ensures Winner(cs, t, to).Some? && !Winner(cs, t, to).value.pending ==>
              forall c | c in cs && c.to == to :: !Exists(t, c.from)
  {
    if cs != [] {
      var n := |cs| - 1;
      WinnerIsFirst(cs[..n], t, to);
      assert forall c | c in cs :: c in cs[..n] || c == cs[n];
      assert cs[n] in cs && forall c | c in cs[..n] :: c in cs;
      if Winner(cs, t, to) == Winner(cs[..n], t, to) {
        if Winner(cs, t, to).Some? {
          var i :| 0 <= i < n && cs[..n][i].from == Winner(cs, t, to).value.from && cs[..n][i].to == to
                   && forall j | 0 <= j < i && cs[..n][j].to == to :: !Exists(t, cs[..n][j].from);
          assert forall j | 0 <= j < i :: cs[j] == cs[..n][j];
          assert cs[i].to == to;
        }
      } else {
        assert forall j | 0 <= j < n && cs[j].to == to :: cs[j] in cs[..n];
        assert cs[n].to == to;
      }
    }
  }

  lemma {:induction false} WinnerStays(cs: seq<Candidate>, n: nat, t: Tree, to: Path)
    requires n <= |cs| && Winner(cs[..n], t, to).Some? && Winner(cs[..n], t, to).value.pending
    ensures Winner(cs, t, to) == Winner(cs[..n], t, to)
  {
    if n < |cs| {
      assert cs[..|cs| - 1][..n] == cs[..n];
      WinnerStays(cs[..|cs| - 1], n, t, to);
    } else {
      assert cs[..n] == cs;
    }
  }

  predicate DistinctSources(cs: seq<Candidate>) {
    forall i, j | 0 <= i < j < |cs| :: cs[i].from != cs[j].from
  }

  /** The losers are exactly the pending sources that are not the winner's, each
      marked with the winner's source. */
  lemma {:induction false} LosersAre(cs: seq<Candidate>, t: Tree)
    requires DistinctSources(cs)
    ensures forall p | p in Losers(cs, t) ::
              Candidate(p.from, p.to) in cs && Exists(t, p.from) && p.pending && Winner(cs, t, p.to).Some?
              && Winner(cs, t, p.to).value.from != p.from && p.contendedBy == Some(Winner(cs, t, p.to).value.from)
    ensures forall c | c in cs && Exists(t, c.from) ::
              Winner(cs, t, c.to).Some? && Winner(cs, t, c.to).value.pending
              && (Winner(cs, t, c.to).value.from != c.from ==>
                    Planned(c.from, c.to, true, Some(Winner(cs, t, c.to).value.from)) in Losers(cs, t))
    ensures forall i, j | 0 <= i < j < |Losers(cs, t)| :: Losers(cs, t)[i].from != Losers(cs, t)[j].from
  {
    if cs != [] {
      var n := |cs| - 1;
      LosersAre(cs[..n], t);
      assert forall c | c in cs :: c in cs[..n] || c == cs[n];
      forall c | c in cs[..n] && Exists(t, c.from) ensures Winner(cs, t, c.to) == Winner(cs[..n], t, c.to) {
        WinnerStays(cs, n, t, c.to);
      }
      WinnerIsFirst(cs[..n], t, cs[n].to);
    }
  }

  lemma {:induction false} WinnersAre(places: seq<Path>, cs: seq<Candidate>, t: Tree)
    requires forall i, j | 0 <= i < j < |places| :: places[i] != places[j]
    requires forall to | to in places :: Winner(cs, t, to).Some?
    ensures |Winners(places, cs, t)| == |places|
    ensures forall i | 0 <= i < |places| :: Winners(places, cs, t)[i] == Winner(cs, t, places[i]).value
  {
    if places != [] {
      WinnersAre(places[..|places| - 1], cs, t);
    }
  }

  lemma WinnersOfPlaces(cs: seq<Candidate>, t: Tree)
    ensures |Winners(Places(cs), cs, t)| == |Places(cs)|
    ensures forall i | 0 <= i < |Places(cs)| :: Winner(cs, t, Places(cs)[i]) == Some(Winners(Places(cs), cs, t)[i])
  {
    forall to ensures (to in Places(cs) <==> Winner(cs, t, to).Some?) {
      PlacesAre(cs, t, to);
    }
    PlacesAre(cs, t, []);
    WinnersAre(Places(cs), cs, t);
  }

  /** A planned pair is a winner, or a pending loser that names the winner. */
  ghost predicate Rightful(cs: seq<Candidate>, t: Tree, p: Planned) {
    && Candidate(p.from, p.to) in cs && p.pending == Exists(t, p.from) && Winner(cs, t, p.to).Some?
    && (p.contendedBy.None? ==> Winner(cs, t, p.to).value == p)
    && (p.contendedBy.Some? ==>
          var w := Winner(cs, t, p.to).value;
          p.pending && w.pending && w.from != p.from && p.contendedBy == Some(w.from))
  }

  lemma WinnerIsRightful(cs: seq<Candidate>, t: Tree, to: Path)
    requires Winner(cs, t, to).Some?
    ensures Rightful(cs, t, Winner(cs, t, to).value) && Winner(cs, t, to).value.contendedBy.None?
    ensures Winner(cs, t, to).value.to == to
  {
  }

  lemma PlanIsRightful(cs: seq<Candidate>, t: Tree)
    requires DistinctSources(cs)
    ensures forall p | p in Plan(cs, t) :: Rightful(cs, t, p)
    ensures forall p | p in Losers(cs, t) :: p.contendedBy.Some?
    ensures forall p | p in Winners(Places(cs), cs, t) :: p.contendedBy.None?
  {
    WinnersOfPlaces(cs, t);
    LosersAre(cs, t);
    forall i | 0 <= i < |Places(cs)|
      ensures Rightful(cs, t, Winners(Places(cs), cs, t)[i]) && Winners(Places(cs), cs, t)[i].contendedBy.None?
    {
      WinnerIsRightful(cs, t, Places(cs)[i]);
    }
    forall p | p in Losers(cs, t) ensures Rightful(cs, t, p) {
      assert Exists(t, Candidate(p.from, p.to).from);
    }
  }

  /** A source that exists is planned as pending. */
  lemma NothingDropped(cs: seq<Candidate>, t: Tree, c: Candidate)
    requires DistinctSources(cs) && c in cs && Exists(t, c.from)
    ensures exists p :: p in Plan(cs, t) && p.from == c.from && p.to == c.to && p.pending
  {
    LosersAre(cs, t);
    var w := Winner(cs, t, c.to).value;
    if w.from == c.from {
      WinnersOfPlaces(cs, t);
      PlacesAre(cs, t, c.to);
      var i :| 0 <= i < |Places(cs)| && Places(cs)[i] == c.to;
      WinnerIsRightful(cs, t, c.to);
      assert Winners(Places(cs), cs, t)[i] == w && w in Plan(cs, t);
    } else {
      assert Planned(c.from, c.to, true, Some(w.from)) in Plan(cs, t);
    }
  }

  /** No source is planned twice, and of the pairs for one destination only the
      first, the winner, is not marked. */
  lemma PlannedOnce(cs: seq<Candidate>, t: Tree, i: nat, j: nat)
    requires DistinctSources(cs) && i < j < |Plan(cs, t)|
    ensures Plan(cs, t)[i].from != Plan(cs, t)[j].from
    ensures Plan(cs, t)[i].to == Plan(cs, t)[j].to ==> Plan(cs, t)[j].contendedBy.Some?
  {
    var p, q, n := Plan(cs, t)[i], Plan(cs, t)[j], |Places(cs)|;
    PlanIsRightful(cs, t);
    WinnersOfPlaces(cs, t);
    LosersAre(cs, t);
    PlacesAre(cs, t, p.to);
    assert p in Plan(cs, t) && q in Plan(cs, t);
    if j >= n {
      assert q == Losers(cs, t)[j - n];
      if i >= n {
        assert p == Losers(cs, t)[i - n];
      } else {
        assert p == Winners(Places(cs), cs, t)[i];
        OneCandidate(cs, Candidate(p.from, p.to), Candidate(q.from, q.to));
      }
    } else {
      assert p == Winners(Places(cs), cs, t)[i] && q == Winners(Places(cs), cs, t)[j];
      WinnerIsRightful(cs, t, Places(cs)[i]);
      WinnerIsRightful(cs, t, Places(cs)[j]);
      OneCandidate(cs, Candidate(p.from, p.to), Candidate(q.from, q.to));
    }
  }

  lemma OneCandidate(cs: seq<Candidate>, a: Candidate, b: Candidate)
    requires DistinctSources(cs) && a in cs && b in cs
    ensures a.from == b.from ==> a == b
  {
  }

  // ------------------------------------------------------------ the pairs do not get in each other's way

  /** Candidates are entries of the mapping, without the identity pairs. */
  ghost predicate Fits(c: Candidate, e: Entry, fromRoot: Path, toRoot: Path) {
    e in FLAT && c == Candidate(fromRoot + [e.name], toRoot + e.place) && c.from != c.to
  }

  lemma {:induction false} PairsFit(entries: seq<Entry>, fromRoot: Path, toRoot: Path)
    ensures forall c | c in PairsOf(entries, fromRoot, toRoot) :: exists e ::
              e in entries && c == Candidate(fromRoot + [e.name], toRoot + e.place) && c.from != c.to
    ensures forall e | e in entries && fromRoot + [e.name] != toRoot + e.place ::
              Candidate(fromRoot + [e.name], toRoot + e.place) in PairsOf(entries, fromRoot, toRoot)
  {
    if entries != [] {
      PairsFit(entries[1..], fromRoot, toRoot);
    }
  }

  lemma {:induction false} PairsDistinct(entries: seq<Entry>, fromRoot: Path, toRoot: Path)
    requires forall i, j | 0 <= i < j < |entries| :: entries[i].name != entries[j].name
    ensures DistinctSources(PairsOf(entries, fromRoot, toRoot))
  {
    if entries != [] {
      PairsDistinct(entries[1..], fromRoot, toRoot);
      PairsFit(entries[1..], fromRoot, toRoot);
      forall c | c in PairsOf(entries[1..], fromRoot, toRoot) ensures c.from != fromRoot + [entries[0].name] {
        var e :| e in entries[1..] && c == Candidate(fromRoot + [e.name], toRoot + e.place);
        assert (fromRoot + [e.name])[|fromRoot|] == e.name;
        assert (fromRoot + [entries[0].name])[|fromRoot|] == entries[0].name;
      }
    }
  }

  /** Source roots for one target: the target itself, or apart from it, and apart
      from each other. */
  ghost predicate GoodRoots(sources: seq<Path>, target: Path) {
    && (forall s | s in sources :: s == target || Apart(s, target))
    && (forall i, j | 0 <= i < j < |sources| :: Apart(sources[i], sources[j]))
  }

  lemma {:induction false} CandidatesFit(sources: seq<Path>, target: Path)
    ensures forall c | c in AllCandidates(sources, target) :: exists s, e :: s in sources && Fits(c, e, s, target)
  {
    if sources != [] {
      var n := |sources| - 1;
      CandidatesFit(sources[..n], target);
      forall c | c in AllCandidates(sources, target)
        ensures exists s, e :: s in sources && Fits(c, e, s, target)
      {
        if c in AllCandidates(sources[..n], target) {
          var s, e :| s in sources[..n] && Fits(c, e, s, target);
          assert s in sources;
        } else {
          PairsFit(FLAT, sources[n], target);
          var e :| e in FLAT && c == Candidate(sources[n] + [e.name], target + e.place) && c.from != c.to;
          assert sources[n] in sources && Fits(c, e, sources[n], target);
        }
      }
    }
  }

  lemma {:induction false} CandidateOf(sources: seq<Path>, target: Path, s: Path, e: Entry)
    requires s in sources && e in FLAT && s + [e.name] != target + e.place
    ensures Candidate(s + [e.name], target + e.place) in AllCandidates(sources, target)
  {
    var n := |sources| - 1;
    if s == sources[n] {
      PairsFit(FLAT, s, target);
    } else {
      CandidateOf(sources[..n], target, s, e);
    }
  }

  lemma {:induction false} CandidatesDistinct(sources: seq<Path>, target: Path)
    requires GoodRoots(sources, target)
    ensures DistinctSources(AllCandidates(sources, target))
  {
    if sources != [] {
      var n := |sources| - 1;
      CandidatesDistinct(sources[..n], target);
      CandidatesFit(sources[..n], target);
      FlatIsShaped();
      PairsDistinct(FLAT, sources[n], target);
      PairsFit(FLAT, sources[n], target);
      forall c, c' | c in AllCandidates(sources[..n], target) && c' in FlatToV2Pairs(sources[n], target)
        ensures c.from != c'.from
      {
        var s, e :| s in sources[..n] && Fits(c, e, s, target);
        var e' :| e' in FLAT && c' == Candidate(sources[n] + [e'.name], target + e'.place);
        ApartBelow(s, sources[n], [e.name], [e'.name]);
      }
    }
  }

  /** Sources are apart from all destinations and from each other. */
  lemma CandidatesApart(sources: seq<Path>, target: Path, c: Candidate, c': Candidate)
    requires GoodRoots(sources, target)
    requires c in AllCandidates(sources, target) && c' in AllCandidates(sources, target)
    ensures Apart(c.from, c'.to) && c.to != []
    ensures c.from != c'.from ==> Apart(c.from, c'.from)
    ensures c.to != c'.to ==> Apart(c.to, c'.to)
  {
    CandidatesFit(sources, target);
    var s, e :| s in sources && Fits(c, e, s, target);
    var s', e' :| s' in sources && Fits(c', e', s', target);
    EntryIsShaped(e);
    SourceApartFromPlace(s, e, target, e');
    SourcesApart(sources, s, e.name, s', e'.name);
    PlacesApart(e, e');
    if c.to != c'.to {
      ApartUnder(target, e.place, e'.place);
    }
  }

  /** No place lies in another. */
  lemma PlacesApart(e: Entry, e': Entry)
    requires e in FLAT && e' in FLAT
    ensures e.place == e'.place || Apart(e.place, e'.place)
  {
    EntryIsShaped(e);
    EntryIsShaped(e');
    if e.place != e'.place {
      assert e.place[0] != e'.place[0] || e.place[1] != e'.place[1];
    }
  }

  lemma SourceApartFromPlace(s: Path, e: Entry, target: Path, e': Entry)
    requires (s == target && [e.name] != e.place) || Apart(s, target)
    requires e in FLAT && e' in FLAT
    ensures Apart(s + [e.name], target + e'.place)
  {
    if Apart(s, target) {
      ApartBelow(s, target, [e.name], e'.place);
    } else {
      SourceIsNoPlace(e, e');
      ApartInside(target, [e.name], e'.place);
    }
  }

  lemma SourcesApart(sources: seq<Path>, s: Path, n: string, s': Path, n': string)
    requires forall i, j | 0 <= i < j < |sources| :: Apart(sources[i], sources[j])
    requires s in sources && s' in sources
    ensures s + [n] != s' + [n'] ==> Apart(s + [n], s' + [n'])
  {
    if s != s' {
      ApartBelow(s, s', [n], [n']);
    } else if n != n' {
      ApartInside(s, [n], [n']);
    }
  }

  lemma EntryIsShaped(e: Entry)
    requires e in FLAT
    ensures Shaped(e)
  {
    FlatIsShaped();
  }

  lemma NamesTell(e: Entry, k: Entry)
    requires e in FLAT && k in FLAT
    ensures e.name == k.name ==> e == k
  {
    FlatIsShaped();
    DistinctNamesTell(FLAT, e, k);
  }

  lemma DistinctNamesTell(entries: seq<Entry>, e: Entry, k: Entry)
    requires forall i, j | 0 <= i < j < |entries| :: entries[i].name != entries[j].name
    requires e in entries && k in entries
    ensures e.name == k.name ==> e == k
  {
  }

  lemma SourceIsNoPlace(e: Entry, e': Entry)
    requires e in FLAT && e' in FLAT && [e.name] != e.place
    ensures e'.place != [] && e.name != e'.place[0]
  {
    NamesTell(e, e');
    EntryIsShaped(e);
    EntryIsShaped(e');
  }

  // ------------------------------------------------------------ the plan feeds the mover

  function ToPairs(plan: seq<Planned>): (ps: seq<M.Pair>)
    ensures |ps| == |plan|
    ensures forall i | 0 <= i < |plan| :: ps[i] == M.Pair(plan[i].from, plan[i].to, plan[i].contendedBy.Some?)
  {
    seq(|plan|, i requires 0 <= i < |plan| => M.Pair(plan[i].from, plan[i].to, plan[i].contendedBy.Some?))
  }

  lemma PlanIsSafe(sources: seq<Path>, target: Path, t: Tree)
    requires GoodRoots(sources, target)
    ensures M.Separate(ToPairs(Plan(AllCandidates(sources, target), t)))
    ensures M.OneWinner(ToPairs(Plan(AllCandidates(sources, target), t)))
  {
    var cs := AllCandidates(sources, target);
    var plan := Plan(cs, t);
    CandidatesDistinct(sources, target);
    PlanIsRightful(cs, t);
    forall i, j | 0 <= i < |plan| && 0 <= j < |plan|
      ensures Apart(plan[i].from, plan[j].to) && plan[i].to != []
      ensures i < j ==> Apart(plan[i].from, plan[j].from)
      ensures plan[i].to == plan[j].to || Apart(plan[i].to, plan[j].to)
      ensures i < j && plan[i].to == plan[j].to ==> plan[j].contendedBy.Some?
    {
      assert Rightful(cs, t, plan[i]) && Rightful(cs, t, plan[j]);
      CandidatesApart(sources, target, Candidate(plan[i].from, plan[i].to), Candidate(plan[j].from, plan[j].to));
      if i < j {
        PlannedOnce(cs, t, i, j);
      }
    }
  }

  lemma RootsAreGood(r: Roots, t: Tree, override: Option<Path>)
    requires Apart(r.canonical, r.legacy)
    ensures var res := ResolveDataRoot(t, r, override);
            GoodRoots(SourceRoots(r, res.0, TargetRoot(r, res)), TargetRoot(r, res))
  {
  }

  // ------------------------------------------------------------ resuming

  /** The plan for a machine without an explicit data root. */
  ghost function DefaultPlan(t: Tree, r: Roots): seq<Planned> {
    var res := ResolveDataRoot(t, r, None);
    Plan(AllCandidates(SourceRoots(r, res.0, TargetRoot(r, res)), TargetRoot(r, res)), t)
  }

  ghost predicate PlannedPending(plan: seq<Planned>, from: Path) {
    exists p :: p in plan && p.from == from && p.pending
  }

  /** An entry of the flat layout sits in the canonical root itself. */
  ghost predicate Leftover(t: Tree, root: Path, e: Entry) {
    e in FLAT && e.place != [e.name] && Exists(t, root + [e.name])
  }

  ghost predicate SourceOf(sources: seq<Path>, target: Path, from: Path, s: Path, e: Entry) {
    s in sources && e in FLAT && from == s + [e.name] && from != target + e.place
  }

  lemma PendingSource(sources: seq<Path>, target: Path, t: Tree, from: Path)
    requires GoodRoots(sources, target)
    ensures PlannedPending(Plan(AllCandidates(sources, target), t), from) <==>
              Exists(t, from) && exists s, e :: SourceOf(sources, target, from, s, e)
  {
    var cs := AllCandidates(sources, target);
    CandidatesDistinct(sources, target);
    if PlannedPending(Plan(cs, t), from) {
      var p :| p in Plan(cs, t) && p.from == from && p.pending;
      PlanIsRightful(cs, t);
      CandidatesFit(sources, target);
      assert Rightful(cs, t, p);
      var s, e :| s in sources && Fits(Candidate(p.from, p.to), e, s, target);
      assert SourceOf(sources, target, from, s, e);
    } else if exists s, e :: SourceOf(sources, target, from, s, e) {
      var s, e :| SourceOf(sources, target, from, s, e);
      CandidateOf(sources, target, s, e);
      if Exists(t, from) {
        NothingDropped(cs, t, Candidate(s + [e.name], target + e.place));
      }
    }
  }

  ghost predicate LegacySource(t: Tree, r: Roots, from: Path) {
    Exists(t, from) && exists e :: e in FLAT && from == r.legacy + [e.name]
  }

  /** Whichever root resolution picks, what is pending is what exists in the
      legacy root, and, once it picks the canonical root, leftovers there. */
  lemma PendingIs(t: Tree, r: Roots, from: Path)
    requires Apart(r.canonical, r.legacy)
    ensures PlannedPending(DefaultPlan(t, r), from) <==>
              || LegacySource(t, r, from)
              || (!ResolveDataRoot(t, r, None).1
                  && exists e: Entry :: from == r.canonical + [e.name] && Leftover(t, r.canonical, e))
  {
    var res := ResolveDataRoot(t, r, None);
    var target := TargetRoot(r, res);
    var sources := SourceRoots(r, res.0, target);
    RootsAreGood(r, t, None);
    PendingSource(sources, target, t, from);
    SourcesAre(r, from, res.1, sources);
  }

  lemma SameBelow(root: Path, x: Path, y: Path)
    ensures root + x == root + y <==> x == y
  {
    assert (root + x)[|root|..] == x && (root + y)[|root|..] == y;
  }

  lemma SourcesAre(r: Roots, from: Path, legacyOnly: bool, sources: seq<Path>)
    requires Apart(r.canonical, r.legacy)
    requires sources == if legacyOnly then [r.legacy] else [r.canonical, r.legacy]
    ensures (exists s, e :: SourceOf(sources, r.canonical, from, s, e)) <==>
              || (exists e :: e in FLAT && from == r.legacy + [e.name])
              || (!legacyOnly && exists e :: e in FLAT && from == r.canonical + [e.name] && e.place != [e.name])
  {
    assert forall s :: s in sources <==> s == r.legacy || (s == r.canonical && !legacyOnly);
    forall e ensures SourceOf(sources, r.canonical, from, r.legacy, e) <==> e in FLAT && from == r.legacy + [e.name] {
      ApartBelow(r.legacy, r.canonical, [e.name], e.place);
    }
    forall e ensures SourceOf(sources, r.canonical, from, r.canonical, e)
                     <==> !legacyOnly && e in FLAT && from == r.canonical + [e.name] && e.place != [e.name]
    {
      SameBelow(r.canonical, [e.name], e.place);
    }
  }

  /** What is left over below the canonical root is planned, although it does not
      lie in the legacy root. */
  lemma LeftoverPending(t: Tree, r: Roots, e: Entry)
    requires Apart(r.canonical, r.legacy)
    requires !ResolveDataRoot(t, r, None).1 && Leftover(t, r.canonical, e)
    ensures PlannedPending(DefaultPlan(t, r), r.canonical + [e.name])
    ensures !LegacySource(t, r, r.canonical + [e.name])
  {
    PendingIs(t, r, r.canonical + [e.name]);
    forall k | k in FLAT ensures r.canonical + [e.name] != r.legacy + [k.name] {
      ApartBelow(r.legacy, r.canonical, [k.name], [e.name]);
    }
  }

  /** Exactly the entries of the legacy root are pending, unless the canonical root
      is in use and has entries of the flat layout in it. */
  lemma OnlyLegacyPendingIff(t: Tree, r: Roots)
    requires Apart(r.canonical, r.legacy)
    ensures (forall from :: PlannedPending(DefaultPlan(t, r), from) <==> LegacySource(t, r, from))
       <==> ResolveDataRoot(t, r, None).1 || forall e | e in FLAT :: !Leftover(t, r.canonical, e)
  {
    forall from ensures PlannedPending(DefaultPlan(t, r), from) <==>
                          || LegacySource(t, r, from)
                          || (!ResolveDataRoot(t, r, None).1
                              && exists e: Entry :: from == r.canonical + [e.name] && Leftover(t, r.canonical, e))
    {
      PendingIs(t, r, from);
    }
    if e :| e in FLAT && Leftover(t, r.canonical, e) && !ResolveDataRoot(t, r, None).1 {
      LeftoverPending(t, r, e);
    }
  }

  lemma OutboxIsFlat()
    ensures FLAT[4] == Entry("outbox", ["data", "outbox"]) && FLAT[4] in FLAT && FLAT[4].place != [FLAT[4].name]
  {
  }

  lemma QueueMakesTree(t: Tree, root: Path)
    requires Exists(t, root + ["queue"])
    ensures HasTree(t, root)
  {
    assert "queue" in ["queue", "data", "cache", "transcripts", "history"];
  }

  /** Such an entry: the queue has moved, an outbox is left beside it. */
  lemma LeftoverIsPlanned(r: Roots)
    requires Apart(r.canonical, r.legacy)
    ensures var t: Tree := map[r.canonical + ["queue"] := Dir, r.canonical + ["outbox"] := Dir];
            !ResolveDataRoot(t, r, None).1 && PlannedPending(DefaultPlan(t, r), r.canonical + ["outbox"])
            && !LegacySource(t, r, r.canonical + ["outbox"])
  {
    var t: Tree := map[r.canonical + ["queue"] := Dir, r.canonical + ["outbox"] := Dir];
    assert r.canonical + ["queue"] in t && r.canonical + ["outbox"] in t;
    QueueMakesTree(t, r.canonical);
    OutboxIsFlat();
    LeftoverPending(t, r, FLAT[4]);
  }

  /** The tree after some of the pairs have moved. */
  ghost function AfterMoves(t: Tree, moved: seq<Candidate>): Tree {
    if moved == [] then t
    else Renamed(AfterMoves(t, moved[..|moved| - 1]), moved[|moved| - 1].from, moved[|moved| - 1].to)
  }

  lemma RenameElsewhere(t: Tree, from: Path, to: Path, q: Path)
    requires Apart(q, from) && Apart(q, to)
    ensures Exists(Renamed(t, from, to), q) <==> Exists(t, q)
  {
  }

  lemma RenameTakesAll(t: Tree, from: Path, to: Path)
    requires Apart(from, to)
    ensures !Exists(Renamed(t, from, to), from)
  {
  }

  lemma AllButLast(moved: seq<Candidate>, c: Candidate)
    requires moved != []
    ensures c in moved <==> c in moved[..|moved| - 1] || c == moved[|moved| - 1]
    ensures moved[|moved| - 1] in moved && forall m | m in moved[..|moved| - 1] :: m in moved
  {
  }

  lemma {:induction false} MovesTakeOnlyTheirs(t: Tree, r: Roots, moved: seq<Candidate>, e: Entry)
    requires Apart(r.canonical, r.legacy) && e in FLAT
    requires forall c | c in moved :: c in FlatToV2Pairs(r.legacy, r.canonical)
    ensures Exists(AfterMoves(t, moved), r.legacy + [e.name])
       <==> Exists(t, r.legacy + [e.name]) && Candidate(r.legacy + [e.name], r.canonical + e.place) !in moved
    ensures e.place != [e.name] ==>
              (Exists(AfterMoves(t, moved), r.canonical + [e.name]) <==> Exists(t, r.canonical + [e.name]))
  {
    if moved != [] {
      var n := |moved| - 1;
      AllButLast(moved, Candidate(r.legacy + [e.name], r.canonical + e.place));
      MovesTakeOnlyTheirs(t, r, moved[..n], e);
      OneMove(AfterMoves(t, moved[..n]), r, moved[n], e);
    }
  }

  lemma OneMove(t: Tree, r: Roots, c: Candidate, e: Entry)
    requires Apart(r.canonical, r.legacy) && e in FLAT && c in FlatToV2Pairs(r.legacy, r.canonical)
    ensures Exists(Renamed(t, c.from, c.to), r.legacy + [e.name])
       <==> Exists(t, r.legacy + [e.name]) && c != Candidate(r.legacy + [e.name], r.canonical + e.place)
    ensures e.place != [e.name] ==>
              (Exists(Renamed(t, c.from, c.to), r.canonical + [e.name]) <==> Exists(t, r.canonical + [e.name]))
  {
    PairsFit(FLAT, r.legacy, r.canonical);
    var k :| k in FLAT && c == Candidate(r.legacy + [k.name], r.canonical + k.place);
    MoveInLegacy(t, r, k, e);
    if e.place != [e.name] {
      SourceIsNoPlace(e, k);
      ApartInside(r.canonical, [e.name], k.place);
      ApartBelow(r.canonical, r.legacy, [e.name], [k.name]);
      RenameElsewhere(t, c.from, c.to, r.canonical + [e.name]);
    }
  }

  lemma MoveInLegacy(t: Tree, r: Roots, k: Entry, e: Entry)
    requires Apart(r.canonical, r.legacy) && e in FLAT && k in FLAT
    ensures Exists(Renamed(t, r.legacy + [k.name], r.canonical + k.place), r.legacy + [e.name])
       <==> Exists(t, r.legacy + [e.name]) && e != k
    ensures e != k ==> r.legacy + [e.name] != r.legacy + [k.name]
  {
    ApartBelow(r.legacy, r.canonical, [k.name], k.place);
    ApartBelow(r.legacy, r.canonical, [e.name], k.place);
    NamesTell(e, k);
    if e == k {
      RenameTakesAll(t, r.legacy + [k.name], r.canonical + k.place);
    } else {
      ApartInside(r.legacy, [e.name], [k.name]);
      RenameElsewhere(t, r.legacy + [k.name], r.canonical + k.place, r.legacy + [e.name]);
    }
  }

  /** A migration cut short anywhere: although resolution may pick the other root
      now, of the legacy root the plan has exactly the pairs that have not moved;
      where the canonical root has no leftovers, it has nothing else. */
  lemma ResumeIsComplete(t: Tree, r: Roots, moved: seq<Candidate>, e: Entry)
    requires Apart(r.canonical, r.legacy) && e in FLAT
    requires forall c | c in moved :: c in FlatToV2Pairs(r.legacy, r.canonical)
    ensures PlannedPending(DefaultPlan(AfterMoves(t, moved), r), r.legacy + [e.name])
       <==> Exists(t, r.legacy + [e.name]) && Candidate(r.legacy + [e.name], r.canonical + e.place) !in moved
    ensures (forall k | k in FLAT :: !Leftover(t, r.canonical, k)) ==>
              forall p | p in DefaultPlan(AfterMoves(t, moved), r) && p.pending ::
                exists k :: k in FLAT && p.from == r.legacy + [k.name]
  {
    var u := AfterMoves(t, moved);
    MovesTakeOnlyTheirs(t, r, moved, e);
    PendingIs(u, r, r.legacy + [e.name]);
    forall k | k in FLAT ensures r.legacy + [e.name] != r.canonical + [k.name] {
      ApartBelow(r.legacy, r.canonical, [e.name], [k.name]);
    }
    if forall k | k in FLAT :: !Leftover(t, r.canonical, k) {
      ResumeIsAll(t, r, moved);
    }
  }

  lemma ResumeIsAll(t: Tree, r: Roots, moved: seq<Candidate>)
    requires Apart(r.canonical, r.legacy)
    requires forall c | c in moved :: c in FlatToV2Pairs(r.legacy, r.canonical)
    requires forall k | k in FLAT :: !Leftover(t, r.canonical, k)
    ensures forall p | p in DefaultPlan(AfterMoves(t, moved), r) && p.pending ::
              exists k :: k in FLAT && p.from == r.legacy + [k.name]
  {
    var u := AfterMoves(t, moved);
    forall k | k in FLAT ensures !Leftover(u, r.canonical, k) {
      MovesTakeOnlyTheirs(t, r, moved, k);
      assert !Leftover(t, r.canonical, k);
    }
    forall p | p in DefaultPlan(u, r) && p.pending ensures exists k :: k in FLAT && p.from == r.legacy + [k.name] {
      PendingIs(u, r, p.from);
      assert PlannedPending(DefaultPlan(u, r), p.from);
    }
  }
}
