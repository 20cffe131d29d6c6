/** The moves of the migrate command and the routes they make up: from the vault's
    queue, from old names, and from the flat layout to the current one. */
module MigrateRoutes {
  import opened FileTree
  import opened Mover
  import opened RootPlan
  import opened Wrappers
  import opened MigrateLaws
  import M = Migration

  const KEYS: seq<string> := ["inbox", "processing", "done", "failed"]

  /** The four queue directories, from an old vault to the data root. */
  function QueueSteps(vault: Path, target: Path): seq<Candidate> {
    seq(|KEYS|, i requires 0 <= i < |KEYS| => Candidate(vault + [KEYS[i]], target + ["queue"] + [KEYS[i]]))
  }

  /** Old names of a root and their places, in either layout. */
  function StateMoves(root: Path): set<Candidate> {
    set current: bool, i | 0 <= i < |M.OLD_NAMES| ::
      Candidate(root + [M.OLD_NAMES[i]], root + M.NewPlaces(current)[i])
  }

  function AllStateMoves(sources: seq<Path>): set<Candidate> {
    set s, c | s in sources && c in StateMoves(s) :: c
  }

  /** Two moves in a row. */
  function Joined(a: Candidate, b: Candidate): Candidate
    requires Under(a.to, b.from)
  {
    Candidate(a.from, Relocate(a.to, b.from, b.to))
  }

  /** Where every run ends: the root that is set, else the canonical one. */
  function Target(r: Roots, override: Option<Path>): Path {
    match override
    case Some(root) => root
    case None => r.canonical
  }

  function Sources(r: Roots, override: Option<Path>): seq<Path> {
    SourceRoots(r, Target(r, override), Target(r, override))
  }

  function RoutesOf(sources: seq<Path>, target: Path, vault: Path): set<Candidate> {
    (set k | k in QueueSteps(vault, target))
    + (set c | c in AllCandidates(sources, target))
    + AllStateMoves(sources)
    + set a, b | a in AllStateMoves(sources) && b in AllCandidates(sources, target) && Under(a.to, b.from) ::
        Joined(a, b)
  }

  /** Every route a file may take in any number of runs. */
  function Routes(r: Roots, override: Option<Path>, vault: Path): set<Candidate> {
    RoutesOf(Sources(r, override), Target(r, override), vault)
  }

  /** The vault, like any two roots, is a tree of its own. */
  ghost predicate GoodVault(r: Roots, override: Option<Path>, vault: Path) {
    Apart(r.canonical, r.legacy) && forall s | s in Sources(r, override) :: Apart(vault, s)
  }

  /** Roots and vault, each a tree of its own. */
  ghost predicate Forest(sources: seq<Path>, target: Path, vault: Path) {
    GoodRoots(sources, target) && target in sources && forall s | s in sources :: Apart(vault, s)
  }

  lemma SourcesAreForest(r: Roots, override: Option<Path>, vault: Path)
    requires GoodVault(r, override, vault)
    ensures Forest(Sources(r, override), Target(r, override), vault)
  {
  }

  // ------------------------------------------------------------ names

  /** The first names of the places of the current layout. */
  const TOPS: set<string> := {"queue", "review", "watchlist.json", "migrated.json", "data", "cache", "logs"}

  lemma KeysDiffer()
    ensures forall i, j | 0 <= i < j < |KEYS| :: KEYS[i] != KEYS[j]
  {
  }

  lemma OldIsNoTop()
    ensures forall n | n in M.OLD_NAMES :: n !in TOPS && n !in M.NEW_TOPS
  {
    M.NamesDiffer();
  }

  lemma FirstFourStay(i: nat)
    requires i < 4
    ensures FLAT[i].place == [FLAT[i].name] && FLAT[i].name in TOPS
  {
  }

  lemma OthersMove(i: nat)
    requires 4 <= i < |FLAT|
    ensures |FLAT[i].place| == 2
  {
  }

  lemma TopsAreThese(name: string)
    ensures name in TOPS <==> name in GROUPS || name in {FLAT[0].name, FLAT[1].name, FLAT[2].name, FLAT[3].name}
  {
  }

  /** A place begins with one of these, a name that moves does not. */
  lemma TopsAre(e: Entry)
    requires e in FLAT
    ensures e.place != [] && e.place[0] in TOPS
    ensures e.name in TOPS ==> e.place == [e.name]
  {
    var i :| 0 <= i < |FLAT| && FLAT[i] == e;
    if i < 4 {
      FirstFourStay(i);
    } else {
      OthersMove(i);
      EntryIsShaped(e);
      TopsAreThese(e.name);
      TopsAreThese(e.place[0]);
      NotFirstFour(i);
    }
  }

  lemma NotFirstFour(i: nat)
    requires 4 <= i < |FLAT|
    ensures FLAT[i].name !in {FLAT[0].name, FLAT[1].name, FLAT[2].name, FLAT[3].name}
  {
    FlatIsShaped();
  }

  /** Where a route begins: below the vault, at an old name, or at a flat name that
      moves. */
  ghost predicate Begins(b: Candidate, sources: seq<Path>, target: Path, vault: Path, root: Path, name: string) {
    && b.from == root + [name]
    && (if root == vault then b in QueueSteps(vault, target) && name in KEYS
        else root in sources && (name in M.OLD_NAMES || b in AllCandidates(sources, target))
             && (root == target ==> name !in TOPS))
  }

  /** A route that ends in the current layout of the target. */
  ghost predicate EndsInside(c: Candidate, target: Path) {
    exists below: Path :: below != [] && below[0] in TOPS && c.to == target + below
  }

  ghost predicate BeginsSomewhere(b: Candidate, sources: seq<Path>, target: Path, vault: Path) {
    exists root, name :: Begins(b, sources, target, vault, root, name)
  }

  lemma CandidateEnds(sources: seq<Path>, target: Path, c: Candidate) returns (s: Path, e: Entry)
    requires c in AllCandidates(sources, target)
    ensures s in sources && Fits(c, e, s, target) && e.place != [] && e.place[0] in TOPS
    ensures s == target ==> e.name !in TOPS
  {
    CandidatesFit(sources, target);
    s, e :| s in sources && Fits(c, e, s, target);
    TopsAre(e);
  }

  lemma QueueEnds(sources: seq<Path>, target: Path, vault: Path, k: Candidate) returns (key: string)
    requires Forest(sources, target, vault) && k in QueueSteps(vault, target)
    ensures key in KEYS && k == Candidate(vault + [key], target + ["queue"] + [key])
    ensures Begins(k, sources, target, vault, vault, key) && vault !in sources
    ensures EndsInside(k, target)
  {
    var i: nat :| i < |KEYS| && k == QueueSteps(vault, target)[i];
    key := KEYS[i];
    assert k.to == target + ["queue", key];
  }

  lemma FirstNames(a: Path, b: Path, x: string, y: string)
    requires Apart(a, b)
    ensures Apart(a + [x], b + [y]) && a + [x] != b + [y]
  {
    ApartBelow(a, b, [x], [y]);
  }

  lemma StateEnds(sources: seq<Path>, c: Candidate) returns (s: Path, name: string, place: Path)
    requires c in AllStateMoves(sources)
    ensures s in sources && name in M.OLD_NAMES && c == Candidate(s + [name], s + place)
    ensures place != [] && place[0] in M.NEW_TOPS
  {
    s :| s in sources && c in StateMoves(s);
    var current: bool, i :| 0 <= i < |M.OLD_NAMES|
      && c == Candidate(s + [M.OLD_NAMES[i]], s + M.NewPlaces(current)[i]);
    name, place := M.OLD_NAMES[i], M.NewPlaces(current)[i];
    assert place in M.NewPlaces(current);
  }

  lemma BelowPlace(target: Path, place: Path, rest: Path)
    requires place != []
    ensures target + place + rest == target + (place + rest) && (place + rest)[0] == place[0]
  {
  }

  lemma CandidateEndsInside(sources: seq<Path>, target: Path, c: Candidate)
    requires c in AllCandidates(sources, target)
    ensures EndsInside(c, target)
  {
    var s, e := CandidateEnds(sources, target, c);
  }

  lemma JoinedEndsInside(target: Path, a: Candidate, b: Candidate)
    requires EndsInside(b, target) && Under(a.to, b.from)
    ensures EndsInside(Joined(a, b), target)
  {
    var below: Path :| below != [] && below[0] in TOPS && b.to == target + below;
    BelowPlace(target, below, a.to[|b.from|..]);
  }

  /** All but the moves of old names end in the current layout of the target. */
  lemma RouteEnds(sources: seq<Path>, target: Path, vault: Path, c: Candidate)
    requires Forest(sources, target, vault) && c in RoutesOf(sources, target, vault)
    ensures c in AllStateMoves(sources) || EndsInside(c, target)
  {
    if c in QueueSteps(vault, target) {
      var key := QueueEnds(sources, target, vault, c);
    } else if c in AllCandidates(sources, target) {
      CandidateEndsInside(sources, target, c);
    } else if c !in AllStateMoves(sources) {
      var a, b :| a in AllStateMoves(sources) && b in AllCandidates(sources, target) && Under(a.to, b.from)
                  && c == Joined(a, b);
      CandidateEndsInside(sources, target, b);
      JoinedEndsInside(target, a, b);
    }
  }

  lemma RouteBegins(sources: seq<Path>, target: Path, vault: Path, c: Candidate)
    requires Forest(sources, target, vault) && c in RoutesOf(sources, target, vault)
    ensures BeginsSomewhere(c, sources, target, vault)
  {
    if c in QueueSteps(vault, target) {
      var key := QueueEnds(sources, target, vault, c);
    } else if c in AllCandidates(sources, target) {
      var s, e := CandidateEnds(sources, target, c);
      assert Begins(c, sources, target, vault, s, e.name);
    } else {
      var a := c;
      if c !in AllStateMoves(sources) {
        var b;
        a, b :| a in AllStateMoves(sources) && b in AllCandidates(sources, target) && Under(a.to, b.from)
                && c == Joined(a, b);
      }
      var s, name, place := StateEnds(sources, a);
      OldIsNoTop();
      assert Begins(c, sources, target, vault, s, name);
    }
  }

  /** Which entry of the flat layout holds the place of the i-th old name. */
  function EntryOfOld(i: nat): nat
    requires i < |M.OLD_NAMES|
  {
    if i < 2 then 1 else if i == 2 then 4 else if i == 4 then 2 else 13
  }

  lemma EntriesOfOld()
    ensures FLAT[1] == Entry("review", ["review"]) && FLAT[2] == Entry("watchlist.json", ["watchlist.json"])
    ensures FLAT[4] == Entry("outbox", ["data", "outbox"]) && FLAT[13] == Entry("clones", ["cache", "clones"])
  {
  }

  lemma OldPlacesFit(i: nat)
    requires i < |M.OLD_NAMES|
    ensures M.NewPlaces(false)[i] != [] && FLAT[EntryOfOld(i)].name == M.NewPlaces(false)[i][0]
    ensures M.NewPlaces(true)[i] == FLAT[EntryOfOld(i)].place + M.NewPlaces(false)[i][1..]
  {
    EntriesOfOld();
    M.OldNamesGo(true);
    M.OldNamesGo(false);
    if i == 0 {
      assert ["review"] + ["review", "assess"][1..] == ["review", "assess"];
    } else if i == 1 {
      assert ["review"] + ["review", "comments"][1..] == ["review", "comments"];
    } else if i == 2 {
      assert ["data", "outbox"] + ["outbox"][1..] == ["data", "outbox"];
    } else if i == 3 {
      assert ["cache", "clones"] + ["clones", "watched"][1..] == ["cache", "clones", "watched"];
    } else if i == 4 {
      assert ["watchlist.json"] + ["watchlist.json"][1..] == ["watchlist.json"];
    } else {
      assert ["cache", "clones"] + ["clones", "external"][1..] == ["cache", "clones", "external"];
    }
  }

  lemma RelocateName(root: Path, flat: Path, target: Path, place: Path)
    requires flat != []
    ensures Under(root + flat, root + [flat[0]])
    ensures Relocate(root + flat, root + [flat[0]], target + place) == target + (place + flat[1..])
  {
    assert root + flat == root + [flat[0]] + flat[1..];
  }

  /** An old name, brought up to date in the flat layout, goes on from there to the place
      that the current layout has for it. */
  lemma OldNamesMeet(root: Path, target: Path, i: nat)
    requires i < |M.OLD_NAMES|
    ensures exists e :: e in FLAT && Under(root + M.NewPlaces(false)[i], root + [e.name])
                        && Relocate(root + M.NewPlaces(false)[i], root + [e.name], target + e.place)
                           == target + M.NewPlaces(true)[i]
  {
    var e := FLAT[EntryOfOld(i)];
    OldPlacesFit(i);
    RelocateName(root, M.NewPlaces(false)[i], target, e.place);
    assert e in FLAT;
  }

  // ------------------------------------------------------------ no move gets in another's way

  lemma InsideApart(target: Path, below: Path, root: Path, name: string)
    requires below != [] && (Apart(target, root) || (target == root && below[0] != name))
    ensures Apart(target + below, root + [name])
  {
    if Apart(target, root) {
      ApartBelow(target, root, below, [name]);
    } else {
      ApartInside(target, below, [name]);
    }
  }

  lemma TwoRoots(sources: seq<Path>, target: Path, vault: Path, a: Path, b: Path)
    requires Forest(sources, target, vault) && a in sources && (b in sources || b == vault)
    ensures a == b || Apart(a, b)
  {
  }

  /** Nothing begins where a route ends, but for flat names at places of old ones. */
  lemma RoutesCompose(sources: seq<Path>, target: Path, vault: Path, c: Candidate, b: Candidate)
    requires Forest(sources, target, vault) && c in RoutesOf(sources, target, vault)
    requires b in RoutesOf(sources, target, vault)
    ensures Composes(c, b, RoutesOf(sources, target, vault))
  {
    RouteEnds(sources, target, vault, c);
    RouteBegins(sources, target, vault, b);
    var root, name :| Begins(b, sources, target, vault, root, name);
    if c in AllStateMoves(sources) {
      StateComposes(sources, target, vault, c, b, root, name);
    } else {
      var below: Path :| below != [] && below[0] in TOPS && c.to == target + below;
      TwoRoots(sources, target, vault, target, root);
      InsideApart(target, below, root, name);
    }
  }

  lemma JoinedIsRoute(sources: seq<Path>, target: Path, vault: Path, a: Candidate, b: Candidate)
    requires a in AllStateMoves(sources) && b in AllCandidates(sources, target) && Under(a.to, b.from)
    ensures Composes(a, b, RoutesOf(sources, target, vault))
  {
    assert Joined(a, b) in set a, b | a in AllStateMoves(sources) && b in AllCandidates(sources, target)
                                      && Under(a.to, b.from) :: Joined(a, b);
  }

  lemma PlaceUnderName(s: Path, place: Path)
    requires place != []
    ensures Under(s + place, s + [place[0]])
  {
    assert s + place == s + [place[0]] + place[1..];
  }

  lemma StateComposes(sources: seq<Path>, target: Path, vault: Path, c: Candidate, b: Candidate,
                      root: Path, name: string)
    requires Forest(sources, target, vault) && c in AllStateMoves(sources)
    requires Begins(b, sources, target, vault, root, name)
    ensures Composes(c, b, RoutesOf(sources, target, vault))
  {
    var s, old_, place := StateEnds(sources, c);
    TwoRoots(sources, target, vault, s, root);
    OldIsNoTop();
    if s == root && place[0] == name {
      PlaceUnderName(s, place);
      JoinedIsRoute(sources, target, vault, c, b);
    } else {
      InsideApart(s, place, root, name);
    }
  }

  lemma StepBesideStep(vault: Path, target: Path, a: Candidate, b: Candidate)
    requires Apart(vault, target) && a in QueueSteps(vault, target) && b in QueueSteps(vault, target)
    ensures Beside(a, b) && TwoPlaces(a, b)
  {
    var i: nat :| i < |KEYS| && a == QueueSteps(vault, target)[i];
    var j: nat :| j < |KEYS| && b == QueueSteps(vault, target)[j];
    KeysDiffer();
    BelowPlace(target, ["queue"], [KEYS[j]]);
    ApartBelow(vault, target, [KEYS[i]], ["queue"] + [KEYS[j]]);
    if i != j {
      ApartInside(vault, [KEYS[i]], [KEYS[j]]);
      ApartInside(target + ["queue"], [KEYS[i]], [KEYS[j]]);
    }
  }

  /** Of a route that does not begin in the vault. */
  lemma OtherBesideStep(sources: seq<Path>, target: Path, vault: Path, c: Candidate, key: string,
                        root: Path, name: string)
    requires Forest(sources, target, vault) && Begins(c, sources, target, vault, root, name) && root != vault
    ensures Apart(c.from, vault + [key]) && c.from != vault + [key] && Apart(c.from, target + ["queue", key])
  {
    OldIsNoTop();
    TwoRoots(sources, target, vault, target, root);
    InsideApart(target, ["queue", key], root, name);
    FirstNames(root, vault, name, key);
  }

  lemma StepBesideRoute(sources: seq<Path>, target: Path, vault: Path, c: Candidate, k: Candidate)
    requires Forest(sources, target, vault) && c in RoutesOf(sources, target, vault) && k in QueueSteps(vault, target)
    ensures Beside(c, k) && Beside(k, c)
  {
    RouteBegins(sources, target, vault, c);
    var root, name :| Begins(c, sources, target, vault, root, name);
    if root == vault {
      StepBesideStep(vault, target, c, k);
      StepBesideStep(vault, target, k, c);
    } else {
      var key := QueueEnds(sources, target, vault, k);
      BelowPlace(target, ["queue"], [key]);
      OtherBesideStep(sources, target, vault, c, key, root, name);
      QueueApartFromEnd(sources, target, vault, c, key);
    }
  }

  lemma QueueApartFromEnd(sources: seq<Path>, target: Path, vault: Path, c: Candidate, key: string)
    requires Forest(sources, target, vault) && c in RoutesOf(sources, target, vault)
    ensures Apart(vault + [key], c.to) && c.to != []
  {
    RouteEnds(sources, target, vault, c);
    if c in AllStateMoves(sources) {
      var s, _, place := StateEnds(sources, c);
      ApartBelow(vault, s, [key], place);
    } else {
      var below: Path :| below != [] && below[0] in TOPS && c.to == target + below;
      ApartBelow(vault, target, [key], below);
    }
  }

  /** No move gets in the way of another; two in a row are a route. */
  lemma RoutesAreClean(r: Roots, override: Option<Path>, vault: Path)
    requires GoodVault(r, override, vault)
    ensures Clean(Routes(r, override, vault), QueueSteps(vault, Target(r, override)))
  {
    var target, sources := Target(r, override), Sources(r, override);
    SourcesAreForest(r, override, vault);
    var routes, queue := RoutesOf(sources, target, vault), QueueSteps(vault, target);
    forall c, k | c in routes && k in queue ensures Beside(c, k) && Beside(k, c) {
      StepBesideRoute(sources, target, vault, c, k);
    }
    forall a, b | a in queue && b in queue ensures TwoPlaces(a, b) {
      StepBesideStep(vault, target, a, b);
    }
    forall c, b | c in routes && b in routes ensures Composes(c, b, routes) {
      RoutesCompose(sources, target, vault, c, b);
    }
  }
}
