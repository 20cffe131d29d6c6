/** Filing the findings of a parked batch: live when the network answers, into the
    outbox when it does not, with a stamp per finding. */
module Filing {
  import opened OutboxModel
  import opened OutboxLaws
  import opened OutboxFlush

  datatype Entry = Entry(fingerprint: string, labels: seq<string>)

  /** The parked batch; its stamps live in the store of the outbox model. */
  datatype Batch = Batch(id: string, nwo: string, external: bool, findings: seq<Entry>)

  datatype FileResult = FileResult(created: nat, queuedOffline: nat, deduped: nat, failed: nat)

  function Total(r: FileResult): nat {
    r.created + r.queuedOffline + r.deduped + r.failed
  }

  /** The labels of all findings, each once. */
  function Union(entries: seq<Entry>): seq<string> {
    if entries == [] then []
    else
      var u := Union(entries[..|entries| - 1]);
      u + Unseen(entries[|entries| - 1].labels, u)
  }

  function Unseen(labels: seq<string>, seen: seq<string>): seq<string> {
    if labels == [] then []
    else if labels[0] in seen then Unseen(labels[1..], seen)
    else [labels[0]] + Unseen(labels[1..], seen + [labels[0]])
  }

  predicate Labelled(nwo: string, labels: seq<string>, repoLabels: set<(string, string)>) {
    forall l | l in labels :: (nwo, l) in repoLabels
  }

  lemma {:induction false} UnseenHas(labels: seq<string>, seen: seq<string>)
    ensures forall l | l in labels :: l in seen || l in Unseen(labels, seen)
    ensures forall l | l in Unseen(labels, seen) :: l in labels
  {
    if labels != [] {
      if labels[0] in seen {
        UnseenHas(labels[1..], seen);
      } else {
        UnseenHas(labels[1..], seen + [labels[0]]);
      }
    }
  }

  lemma {:induction false} UnionHas(entries: seq<Entry>)
    ensures forall l :: l in Union(entries) <==> exists e :: e in entries && l in e.labels
  {
    if entries != [] {
      var n := |entries| - 1;
      UnionHas(entries[..n]);
      UnseenHas(entries[n].labels, Union(entries[..n]));
      forall l ensures (exists e :: e in entries && l in e.labels)
                  <==> l in entries[n].labels || exists e :: e in entries[..n] && l in e.labels
      {
        assert entries[n] in entries && forall e | e in entries :: e in entries[..n] || e == entries[n];
      }
    }
  }

  lemma UnionCovers(nwo: string, entries: seq<Entry>, repoLabels: set<(string, string)>)
    requires Labelled(nwo, Union(entries), repoLabels)
    ensures forall e | e in entries :: Labelled(nwo, e.labels, repoLabels)
  {
    UnionHas(entries);
  }

  function Selected(entries: seq<Entry>, selected: set<string>): seq<Entry> {
    if entries == [] then []
    else if entries[0].fingerprint in selected then [entries[0]] + Selected(entries[1..], selected)
    else Selected(entries[1..], selected)
  }

  /** Exactly the findings asked for are filed, in the order of the batch. */
  lemma {:induction false} SelectedAre(entries: seq<Entry>, selected: set<string>, more: seq<Entry>)
    ensures forall e :: e in Selected(entries, selected) <==> e in entries && e.fingerprint in selected
    ensures Selected(entries + more, selected) == Selected(entries, selected) + Selected(more, selected)
  {
    if entries == [] {
      assert entries + more == more;
    } else {
      SelectedAre(entries[1..], selected, more);
      assert (entries + more)[1..] == entries[1..] + more;
    }
  }

  ghost predicate Distinct(entries: seq<Entry>) {
    forall i, j | 0 <= i < j < |entries| :: entries[i].fingerprint != entries[j].fingerprint
  }

  // ------------------------------------------------------------ outcomes

  /** What comes of one finding: on GitHub already, filed, put into the outbox, not
      filed; or the machine died. */
  datatype Outcome = Known | Posted | Postponed | Missed | Cut

  /** By the scan, the answer to the live call and, where that is network-shaped, what
      comes of the write of the op file. */
  function OutcomeOf(known: bool, live: Exec, disk: LocalReply): Outcome {
    if known then Known
    else
      match live
      case Ok => Posted
      case Failed => Missed
      case Crashed => Cut
      case Net => if disk.Kept? then Postponed else if disk.Faulty? then Missed else Cut
  }

  /** How many calls that takes. */
  function Calls(known: bool, live: Exec): nat {
    if known then 0 else if live.Net? then 2 else 1
  }

  /** One more finding in the counts. */
  ghost predicate Counted(how: Outcome, r: FileResult, r': FileResult) {
    match how
    case Known => r' == FileResult(r.created, r.queuedOffline, r.deduped + 1, r.failed)
    case Posted => r' == FileResult(r.created + 1, r.queuedOffline, r.deduped, r.failed)
    case Postponed => r' == FileResult(r.created, r.queuedOffline + 1, r.deduped, r.failed)
    case Missed => r' == FileResult(r.created, r.queuedOffline, r.deduped, r.failed + 1)
    case Cut => true
  }

  /** A stamp is left or set; a known finding keeps the stamp it has. */
  function Stamped(how: Outcome, stamps: map<(string, Finding), How>, p: (string, Finding))
    : map<(string, Finding), How>
  {
    match how
    case Known => if p in stamps then stamps else stamps[p := Deduped]
    case Posted => stamps[p := Created]
    case Postponed => stamps[p := Queued]
    case _ => stamps
  }

  /** What one finding does to the outbox and to GitHub. */
  ghost predicate Placed(how: Outcome, f: Finding, labels: seq<string>, id: nat, before: seq<StoredOp>,
                         after: seq<StoredOp>, v: World, w: World)
  {
    && after == before + (if how.Postponed? then [StoredOp(id, 0, IssueCreate(f, labels))] else [])
    && (how.Posted? ==> w == AddIssue(v, f, labels))
    && (how.Known? ==> w == v)
    && (w == v || w == AddIssue(v, f, labels))
  }

  /** Writes the op file instead. */
  method QueueIssue(o: Outbox, f: Finding, labels: seq<string>) returns (x: Exec)
    requires o.Inv() && o.StampsBacked()
    modifies o`tick, o`world, o`newer, o`nextId
    ensures o.Inv() && o.StampsBacked() && o.world == old(o.world)
    ensures x == DiskVerdict(o.local(old(o.tick))) && o.tick == old(o.tick) + 1
    ensures o.newer == old(o.newer) + if Saved(o.local(old(o.tick)))
                                      then [StoredOp(old(o.nextId), 0, IssueCreate(f, labels))] else []
    ensures o.nextId == old(o.nextId) + if Saved(o.local(old(o.tick))) then 1 else 0
    ensures (x.Ok? ==> WillCreate(o.newer, f)) && forall g | WillCreate(old(o.newer), g) :: WillCreate(o.newer, g)
  {
    var landed;
    landed, x := o.Disk();
    if landed {
      WillCreateGrows(o.newer, StoredOp(o.nextId, 0, IssueCreate(f, labels)));
      o.Enqueue(IssueCreate(f, labels));
      assert o.newer[|o.newer| - 1].op.IssueCreate?;
    }
  }

  /** The live call; exactly a network-shaped failure puts the op into the outbox. */
  method TryOrEnqueue(o: Outbox, f: Finding, labels: seq<string>) returns (x: Exec, queued: bool)
    requires o.Inv() && o.StampsBacked()
    modifies o`tick, o`world, o`newer, o`nextId
    ensures o.Inv() && o.StampsBacked()
    ensures !x.Net? && (queued ==> x.Ok? && WillCreate(o.newer, f))
    ensures var live := Answer(o.remote(old(o.tick)), LabelsExist(old(o.world), f.nwo, labels));
            var saved := live.Net? && Saved(o.local(old(o.tick) + 1));
            && x == (if live.Net? then DiskVerdict(o.local(old(o.tick) + 1)) else live)
            && queued == (live.Net? && x.Ok?) && o.tick == old(o.tick) + Calls(false, live)
            && o.newer == old(o.newer) + (if saved then [StoredOp(old(o.nextId), 0, IssueCreate(f, labels))] else [])
            && o.nextId == old(o.nextId) + if saved then 1 else 0
    ensures o.world == if Landed(o.remote(old(o.tick))) && LabelsExist(old(o.world), f.nwo, labels)
                       then AddIssue(old(o.world), f, labels) else old(o.world)
    ensures forall g | WillCreate(old(o.newer), g) :: WillCreate(o.newer, g)
  {
    queued := false;
    x := o.GhIssueCreate(f, labels);
    if x.Net? {
      x := QueueIssue(o, f, labels);
      queued := x.Ok?;
    }
  }

  /** The labels are created first; when that is refused, the findings go without. */
  method PrepareLabels(o: Outbox, batch: Batch, toFile: seq<Entry>) returns (x: Exec, labelFree: bool)
    requires o.Inv() && toFile != []
    modifies o`tick, o`world
    ensures o.Inv() && Evolves(old(o.world), o.world) && o.world.issues == old(o.world).issues
    ensures (x.Ok? || x.Crashed?) && old(o.tick) <= o.tick
    ensures o.world == old(o.world).(repoLabels := o.world.repoLabels)
    ensures o.world.repoLabels <= EnsureLabels(old(o.world), batch.nwo, Union(toFile)).repoLabels
    ensures batch.external ==> labelFree && o.world == old(o.world) && o.tick == old(o.tick)
    ensures x.Ok? ==> (labelFree <==> batch.external
                                      || (o.tick > old(o.tick) && Verdict(o.remote(o.tick - 1)).Failed?))
    ensures x.Ok? && !batch.external && (forall k | old(o.tick) <= k < o.tick :: Verdict(o.remote(k)).Ok?) ==>
              forall e | e in toFile :: Labelled(batch.nwo, e.labels, o.world.repoLabels)
  {
    labelFree := batch.external;
    x := Ok;
    if !batch.external && Union(toFile) != [] {
      x := o.EnsureFindingLabels(Finding(batch.nwo, toFile[0].fingerprint), Union(toFile));
      assert x.Ok? ==> Labelled(batch.nwo, Union(toFile), o.world.repoLabels);
      assert !x.Ok? ==> !Verdict(o.remote(o.tick - 1)).Ok?;
      if x.Crashed? { return; }
      labelFree := x.Failed?;
      x := Ok;
    }
    if Labelled(batch.nwo, Union(toFile), o.world.repoLabels) {
      UnionCovers(batch.nwo, toFile, o.world.repoLabels);
    }
  }

  /** One finding: known already, filed live, queued, or failed. */
  method FileOne(o: Outbox, batch: Batch, e: Entry, known: set<string>, labels: seq<string>,
                 stamps: map<(string, Finding), How>, r: FileResult)
    returns (x: Exec, stamps': map<(string, Finding), How>, r': FileResult, ghost how: Outcome)
    requires o.Inv() && o.StampsBacked()
    requires Backed(stamps, o.files, o.newer, o.dead, o.stranded)
    modifies o`tick, o`world, o`newer, o`nextId
    ensures o.Inv() && o.StampsBacked()
    ensures Backed(stamps', o.files, o.newer, o.dead, o.stranded)
    ensures var f := Finding(batch.nwo, e.fingerprint);
            var live := Answer(o.remote(old(o.tick)), LabelsExist(old(o.world), batch.nwo, labels));
            && how == OutcomeOf(e.fingerprint in known, live, o.local(old(o.tick) + 1))
            && o.tick == old(o.tick) + Calls(e.fingerprint in known, live)
            && x == (if how.Cut? then Crashed else Ok)
            && stamps' == Stamped(how, stamps, (batch.id, f)) && Counted(how, r, r')
            && (!how.Cut? ==> o.nextId == old(o.nextId) + if how.Postponed? then 1 else 0)
            && (!how.Cut? ==> Placed(how, f, labels, old(o.nextId), old(o.newer), o.newer, old(o.world), o.world))
    ensures o.world == old(o.world)
            || (e.fingerprint !in known && o.world == AddIssue(old(o.world), Finding(batch.nwo, e.fingerprint), labels))
  {
    var f := Finding(batch.nwo, e.fingerprint);
    x, stamps', r' := Ok, stamps, r;
    how := Known;
    if e.fingerprint in known {
      r' := r.(deduped := r.deduped + 1);
      if (batch.id, f) !in stamps {
        stamps' := stamps[(batch.id, f) := Deduped];
      }
    } else {
      ghost var live := Answer(o.remote(o.tick), LabelsExist(o.world, batch.nwo, labels));
      how := OutcomeOf(false, live, o.local(o.tick + 1));
      var queued;
      x, queued := TryOrEnqueue(o, f, labels);
      if x.Crashed? { return; }
      if x.Failed? {
        x := Ok;
        r' := r.(failed := r.failed + 1);
      } else if queued {
        r' := r.(queuedOffline := r.queuedOffline + 1);
        stamps' := stamps[(batch.id, f) := Queued];
      } else {
        r' := r.(created := r.created + 1);
        stamps' := stamps[(batch.id, f) := Created];
      }
    }
  }

  // ------------------------------------------------------------ a whole pass

  /** The labels a finding is filed with. */
  function LabelsFor(e: Entry, labelFree: bool): seq<string> {
    if labelFree then [] else e.labels
  }

  /** What a pass went by and what came of each finding: the fingerprints known, whether
      labels are left out, the labels there are, and the tick before each finding. */
  datatype Pass = Pass(known: set<string>, labelFree: bool, repoLabels: set<(string, string)>,
                       hows: seq<Outcome>, ticks: seq<nat>)

  /** The i-th finding came out as the calls from its tick on say. */
  ghost predicate CameOut(o: Outbox, nwo: string, toFile: seq<Entry>, p: Pass, i: nat)
    requires i < |toFile| && i < |p.hows| && i + 1 < |p.ticks|
  {
    var known := toFile[i].fingerprint in p.known;
    var live := Answer(o.remote(p.ticks[i]), Labelled(nwo, LabelsFor(toFile[i], p.labelFree), p.repoLabels));
    && p.hows[i] == OutcomeOf(known, live, o.local(p.ticks[i] + 1))
    && p.ticks[i + 1] == p.ticks[i] + Calls(known, live)
  }

  /** One after the other, each came out as its calls say. */
  ghost predicate AllCameOut(o: Outbox, nwo: string, toFile: seq<Entry>, p: Pass) {
    && |p.hows| <= |toFile| && |p.ticks| == |p.hows| + 1
    && forall i | 0 <= i < |p.hows| :: CameOut(o, nwo, toFile, p, i)
  }

  function CountOf(hows: seq<Outcome>, how: Outcome): nat {
    if hows == [] then 0 else CountOf(hows[..|hows| - 1], how) + if hows[|hows| - 1] == how then 1 else 0
  }

  ghost predicate Tallied(hows: seq<Outcome>, r: FileResult) {
    && r.created == CountOf(hows, Posted) && r.queuedOffline == CountOf(hows, Postponed)
    && r.deduped == CountOf(hows, Known) && r.failed == CountOf(hows, Missed)
  }

  /** The stamps after these outcomes. */
  function StampedAll(hows: seq<Outcome>, stamps: map<(string, Finding), How>, batch: Batch, toFile: seq<Entry>)
    : map<(string, Finding), How>
    requires |hows| <= |toFile|
  {
    if hows == [] then stamps
    else
      var n := |hows| - 1;
      Stamped(hows[n], StampedAll(hows[..n], stamps, batch, toFile),
              (batch.id, Finding(batch.nwo, toFile[n].fingerprint)))
  }

  /** The ops that go into the outbox, in order. */
  function PostponedOps(hows: seq<Outcome>, nwo: string, toFile: seq<Entry>, labelFree: bool): seq<Op>
    requires |hows| <= |toFile|
  {
    if hows == [] then []
    else
      var n := |hows| - 1;
      PostponedOps(hows[..n], nwo, toFile, labelFree)
      + if hows[n].Postponed? then
          [IssueCreate(Finding(nwo, toFile[n].fingerprint), LabelsFor(toFile[n], labelFree))]
        else []
  }

  /** With no finding twice, the stamp of each is that of its own outcome. */
  lemma {:induction false} StampIsItsOwn(hows: seq<Outcome>, stamps: map<(string, Finding), How>, batch: Batch,
                                         toFile: seq<Entry>, i: nat)
    requires |hows| <= |toFile| && i < |toFile| && Distinct(toFile)
    ensures var p := (batch.id, Finding(batch.nwo, toFile[i].fingerprint));
            var after := StampedAll(hows, stamps, batch, toFile);
            if i >= |hows| then (p in after <==> p in stamps) && (p in stamps ==> after[p] == stamps[p])
            else
              && (p in after <==> p in stamps || hows[i] in {Known, Posted, Postponed})
              && (p in after ==> after[p] == match hows[i]
                                             case Posted => Created
                                             case Postponed => Queued
                                             case _ => if p in stamps then stamps[p] else Deduped)
  {
    if hows != [] {
      StampIsItsOwn(hows[..|hows| - 1], stamps, batch, toFile, i);
    }
  }

  lemma NextTallied(hows: seq<Outcome>, r: FileResult, how: Outcome, r': FileResult)
    requires Tallied(hows, r) && Counted(how, r, r') && !how.Cut?
    ensures Tallied(hows + [how], r') && Total(r') == Total(r) + 1
  {
  }

  lemma NextCameOut(o: Outbox, nwo: string, toFile: seq<Entry>, p: Pass, how: Outcome, tick: nat, q: Pass)
    requires AllCameOut(o, nwo, toFile, p) && |p.hows| < |toFile|
    requires q == p.(hows := p.hows + [how], ticks := p.ticks + [tick]) && CameOut(o, nwo, toFile, q, |p.hows|)
    ensures AllCameOut(o, nwo, toFile, q)
  {
    forall i | 0 <= i < |q.hows| ensures CameOut(o, nwo, toFile, q, i) {
      if i < |p.hows| {
        assert CameOut(o, nwo, toFile, p, i);
      }
    }
  }

  lemma NextStamped(hows: seq<Outcome>, how: Outcome, stamps: map<(string, Finding), How>, batch: Batch,
                    toFile: seq<Entry>, labelFree: bool)
    requires |hows| < |toFile|
    ensures StampedAll(hows + [how], stamps, batch, toFile)
         == Stamped(how, StampedAll(hows, stamps, batch, toFile),
                    (batch.id, Finding(batch.nwo, toFile[|hows|].fingerprint)))
    ensures PostponedOps(hows + [how], batch.nwo, toFile, labelFree)
         == PostponedOps(hows, batch.nwo, toFile, labelFree)
            + if how.Postponed? then
                [IssueCreate(Finding(batch.nwo, toFile[|hows|].fingerprint), LabelsFor(toFile[|hows|], labelFree))]
              else []
  {
    assert (hows + [how])[..|hows|] == hows;
  }

  /** The findings still to come that the scan did not know are not on GitHub. */
  ghost predicate StillNew(nwo: string, toFile: seq<Entry>, i: nat, known: set<string>, w: World) {
    forall j | i <= j < |toFile| && toFile[j].fingerprint !in known ::
      Finding(nwo, toFile[j].fingerprint) !in w.issues
  }

  /** New files for these ops, numbered from `id` on. */
  function FilesFor(ops: seq<Op>, id: nat): seq<StoredOp> {
    seq(|ops|, i requires 0 <= i < |ops| => StoredOp(id + i, 0, ops[i]))
  }

  lemma OneMoreFile(ops: seq<Op>, id: nat, op: Op)
    ensures FilesFor(ops + [op], id) == FilesFor(ops, id) + [StoredOp(id + |ops|, 0, op)]
  {
  }

  /** Where a pass starts: the tick, the next id, the files and the stamps. */
  datatype Start = Start(tick: nat, id: nat, newer: seq<StoredOp>, stamps: map<(string, Finding), How>)

  /** The accounts of a pass so far: counts, stamps and new files are those of the
      outcomes, and the outcomes are those of the calls. */
  ghost predicate Accounted(o: Outbox, batch: Batch, toFile: seq<Entry>, s: Start, p: Pass, tick: nat, id: nat,
                            newer: seq<StoredOp>, stamps: map<(string, Finding), How>, r: FileResult)
  {
    && AllCameOut(o, batch.nwo, toFile, p) && p.ticks[0] == s.tick && p.ticks[|p.hows|] == tick && Cut !in p.hows
    && Tallied(p.hows, r) && Total(r) == |p.hows| && stamps == StampedAll(p.hows, s.stamps, batch, toFile)
    && newer == s.newer + FilesFor(PostponedOps(p.hows, batch.nwo, toFile, p.labelFree), s.id)
    && id == s.id + |PostponedOps(p.hows, batch.nwo, toFile, p.labelFree)|
  }

  lemma NextAccounted(o: Outbox, batch: Batch, toFile: seq<Entry>, s: Start, p: Pass, tick: nat, id: nat,
                      newer: seq<StoredOp>, stamps: map<(string, Finding), How>, r: FileResult,
                      how: Outcome, q: Pass, newer': seq<StoredOp>, r': FileResult)
    requires Accounted(o, batch, toFile, s, p, tick, id, newer, stamps, r) && |p.hows| < |toFile| && !how.Cut?
    requires |q.ticks| == |p.ticks| + 1
    requires q == p.(hows := p.hows + [how], ticks := p.ticks + [q.ticks[|p.hows| + 1]])
    requires CameOut(o, batch.nwo, toFile, q, |p.hows|) && Counted(how, r, r')
    requires newer' == newer + if how.Postponed? then
                                 [StoredOp(id, 0, IssueCreate(Finding(batch.nwo, toFile[|p.hows|].fingerprint),
                                                              LabelsFor(toFile[|p.hows|], p.labelFree)))]
                               else []
    ensures Accounted(o, batch, toFile, s, q, q.ticks[|p.hows| + 1], id + if how.Postponed? then 1 else 0, newer',
                      Stamped(how, stamps, (batch.id, Finding(batch.nwo, toFile[|p.hows|].fingerprint))), r')
  {
    var ops := PostponedOps(p.hows, batch.nwo, toFile, p.labelFree);
    NextCameOut(o, batch.nwo, toFile, p, how, q.ticks[|p.hows| + 1], q);
    NextStamped(p.hows, how, s.stamps, batch, toFile, p.labelFree);
    NextTallied(p.hows, r, how, r');
    OneMoreFile(ops, s.id, IssueCreate(Finding(batch.nwo, toFile[|p.hows|].fingerprint),
                                       LabelsFor(toFile[|p.hows|], p.labelFree)));
    assert ops + [] == ops;
  }

  /** There is an issue about `f` with these labels. */
  ghost predicate HasIssue(w: World, f: Finding, labels: seq<string>) {
    f in w.issues && f in w.issueLabels && w.issueLabels[f] == set l | l in labels
  }

  /** Each finding that was filed has an issue, with its labels unless the pass goes
      without. */
  ghost predicate PostedHaveIssues(nwo: string, toFile: seq<Entry>, hows: seq<Outcome>, labelFree: bool, w: World) {
    && |hows| <= |toFile|
    && forall i | 0 <= i < |hows| && hows[i].Posted? ::
         && Finding(nwo, toFile[i].fingerprint) in w.issues
         && (Distinct(toFile) ==>
               HasIssue(w, Finding(nwo, toFile[i].fingerprint), if labelFree then [] else toFile[i].labels))
  }

  lemma NextPosted(nwo: string, toFile: seq<Entry>, hows: seq<Outcome>, how: Outcome, labelFree: bool,
                   v: World, w: World)
    requires PostedHaveIssues(nwo, toFile, hows, labelFree, v) && |hows| < |toFile|
    requires w == v
             || w == AddIssue(v, Finding(nwo, toFile[|hows|].fingerprint), LabelsFor(toFile[|hows|], labelFree))
    requires how.Posted? ==>
               w == AddIssue(v, Finding(nwo, toFile[|hows|].fingerprint), LabelsFor(toFile[|hows|], labelFree))
    ensures PostedHaveIssues(nwo, toFile, hows + [how], labelFree, w)
  {
  }

  /** The ops put off are those of the findings put off, with their labels. */
  lemma {:induction false} PostponedAre(hows: seq<Outcome>, nwo: string, toFile: seq<Entry>, labelFree: bool, op: Op)
    requires |hows| <= |toFile|
    ensures op in PostponedOps(hows, nwo, toFile, labelFree)
       <==> exists i :: 0 <= i < |hows| && hows[i].Postponed?
                        && op == IssueCreate(Finding(nwo, toFile[i].fingerprint),
                                             if labelFree then [] else toFile[i].labels)
  {
    if hows != [] {
      PostponedAre(hows[..|hows| - 1], nwo, toFile, labelFree, op);
    }
  }

  /** The next finding of the loop, with the accounts. */
  method FileNext(o: Outbox, batch: Batch, toFile: seq<Entry>, known: set<string>, labelFree: bool, i: nat,
                  stamps: map<(string, Finding), How>, r: FileResult, ghost s: Start, ghost p: Pass)
    returns (x: Exec, stamps': map<(string, Finding), How>, r': FileResult, ghost p': Pass)
    requires o.Inv() && o.StampsBacked() && i == |p.hows| < |toFile|
    requires p.known == known && p.labelFree == labelFree && p.repoLabels == o.world.repoLabels
    requires Accounted(o, batch, toFile, s, p, o.tick, o.nextId, o.newer, stamps, r)
    requires PostedHaveIssues(batch.nwo, toFile, p.hows, labelFree, o.world)
    requires Backed(stamps, o.files, o.newer, o.dead, o.stranded)
    modifies o`tick, o`world, o`newer, o`nextId
    ensures o.Inv() && o.StampsBacked() && (x.Ok? || x.Crashed?)
    ensures p' == p.(hows := p'.hows, ticks := p'.ticks) && |p'.hows| == i + 1
    ensures AllCameOut(o, batch.nwo, toFile, p') && p'.ticks[0] == p.ticks[0] && (Cut in p'.hows <==> x.Crashed?)
    ensures x.Ok? ==> Accounted(o, batch, toFile, s, p', o.tick, o.nextId, o.newer, stamps', r')
    ensures x.Ok? ==> PostedHaveIssues(batch.nwo, toFile, p'.hows, labelFree, o.world)
    ensures Backed(stamps', o.files, o.newer, o.dead, o.stranded)
    ensures o.world == old(o.world)
            || (toFile[i].fingerprint !in known
                && o.world == AddIssue(old(o.world), Finding(batch.nwo, toFile[i].fingerprint),
                                       LabelsFor(toFile[i], labelFree)))
    ensures forall q | q in stamps' && q.0 != batch.id :: q in stamps && stamps'[q] == stamps[q]
  {
    ghost var how;
    x, stamps', r', how := FileOne(o, batch, toFile[i], known, LabelsFor(toFile[i], labelFree), stamps, r);
    p' := p.(hows := p.hows + [how], ticks := p.ticks + [o.tick]);
    assert CameOut(o, batch.nwo, toFile, p', i);
    NextCameOut(o, batch.nwo, toFile, p, how, o.tick, p');
    assert p'.hows[i] == how && p'.hows[..i] == p.hows;
    if x.Ok? {
      assert p'.ticks[i + 1] == o.tick && p.ticks[i] == old(o.tick);
      NextAccounted(o, batch, toFile, s, p, old(o.tick), old(o.nextId), old(o.newer), stamps, r, how, p', o.newer, r');
      NextPosted(batch.nwo, toFile, p.hows, how, labelFree, old(o.world), o.world);
    }
  }

  /** The loop over the findings; the stamps are only collected. */
  method FileEach(o: Outbox, batch: Batch, toFile: seq<Entry>, known: set<string>, labelFree: bool, ghost scanned: bool)
    returns (x: Exec, stamps: map<(string, Finding), How>, r: FileResult, ghost p: Pass)
    requires o.Inv() && o.StampsBacked()
    requires scanned ==> StillNew(batch.nwo, toFile, 0, known, o.world)
    modifies o`tick, o`world, o`newer, o`nextId
    ensures o.Inv() && o.StampsBacked()
    ensures Backed(stamps, o.files, o.newer, o.dead, o.stranded)
    ensures x.Ok? || x.Crashed?
    ensures p.known == known && p.labelFree == labelFree && p.repoLabels == old(o.world).repoLabels
    ensures AllCameOut(o, batch.nwo, toFile, p) && p.ticks[0] == old(o.tick)
    ensures x.Ok? <==> |p.hows| == |toFile| && Cut !in p.hows
    ensures x.Ok? ==> Accounted(o, batch, toFile, Start(old(o.tick), old(o.nextId), old(o.newer), o.filed), p,
                                o.tick, o.nextId, o.newer, stamps, r)
    ensures x.Ok? ==> PostedHaveIssues(batch.nwo, toFile, p.hows, labelFree, o.world)
    ensures scanned && Distinct(toFile) ==> Evolves(old(o.world), o.world)
    ensures forall q | q in stamps && q.0 != batch.id :: q in o.filed && stamps[q] == o.filed[q]
  {
    x, stamps, r := Ok, o.filed, FileResult(0, 0, 0, 0);
    p := Pass(known, labelFree, o.world.repoLabels, [], [o.tick]);
    ghost var s := Start(o.tick, o.nextId, o.newer, o.filed);
    for i := 0 to |toFile|
      invariant o.Inv() && o.StampsBacked() && x.Ok? && |p.hows| == i
      invariant p.known == known && p.labelFree == labelFree && p.repoLabels == old(o.world).repoLabels
      invariant Accounted(o, batch, toFile, s, p, o.tick, o.nextId, o.newer, stamps, r)
      invariant o.world.repoLabels == p.repoLabels && PostedHaveIssues(batch.nwo, toFile, p.hows, labelFree, o.world)
      invariant Backed(stamps, o.files, o.newer, o.dead, o.stranded)
      invariant scanned && Distinct(toFile) ==>
                  Evolves(old(o.world), o.world) && StillNew(batch.nwo, toFile, i, known, o.world)
      invariant forall q | q in stamps && q.0 != batch.id :: q in o.filed && stamps[q] == o.filed[q]
    {
      ghost var w := o.world;
      x, stamps, r, p := FileNext(o, batch, toFile, known, labelFree, i, stamps, r, s, p);
      if scanned && Distinct(toFile) {
        NextIsNew(batch.nwo, toFile, i, known, LabelsFor(toFile[i], labelFree), w, o.world);
        EvolvesChains(old(o.world), w, o.world);
      }
      if x.Crashed? { return; }
    }
  }

  lemma NextIsNew(nwo: string, toFile: seq<Entry>, i: nat, known: set<string>, labels: seq<string>, v: World, w: World)
    requires i < |toFile| && Distinct(toFile) && StillNew(nwo, toFile, i, known, v)
    requires w == v
             || (toFile[i].fingerprint !in known && w == AddIssue(v, Finding(nwo, toFile[i].fingerprint), labels))
    ensures StillNew(nwo, toFile, i + 1, known, w) && Evolves(v, w)
  {
  }

  /** The findings of a repository that have issues. */
  function Fingerprints(w: World, nwo: string): set<string> {
    set f | f in w.issues && f.nwo == nwo :: f.fingerprint
  }

  lemma OthersAreNew(nwo: string, toFile: seq<Entry>, w: World)
    ensures StillNew(nwo, toFile, 0, Fingerprints(w, nwo), w)
  {
  }

  /** What a pass goes by, from tick `a` on: a refusal to create the labels means that
      the findings go without. */
  ghost predicate GoesBy(o: Outbox, batch: Batch, p: Pass, a: nat) {
    && p.ticks != [] && a <= p.ticks[0]
    && (p.labelFree <==> batch.external || (p.ticks[0] > a && Verdict(o.remote(p.ticks[0] - 1)).Failed?))
  }

  /** The accounts of a whole pass. */
  ghost predicate AccountedAll(o: Outbox, batch: Batch, toFile: seq<Entry>, id: nat, newer: seq<StoredOp>,
                               stamps: map<(string, Finding), How>, p: Pass, id': nat, newer': seq<StoredOp>,
                               stamps': map<(string, Finding), How>, r: FileResult)
  {
    && |p.hows| == |toFile| && |p.ticks| == |p.hows| + 1
    && Accounted(o, batch, toFile, Start(p.ticks[0], id, newer, stamps), p, p.ticks[|p.hows|], id', newer', stamps', r)
  }

  /** The labels, then the findings. */
  method FileAll(o: Outbox, batch: Batch, toFile: seq<Entry>, known: set<string>, ghost scanned: bool)
    returns (x: Exec, stamps: map<(string, Finding), How>, r: FileResult, ghost p: Pass)
    requires o.Inv() && o.StampsBacked() && toFile != []
    requires scanned ==> StillNew(batch.nwo, toFile, 0, known, o.world)
    modifies o`tick, o`world, o`newer, o`nextId
    ensures o.Inv() && o.StampsBacked()
    ensures Backed(stamps, o.files, o.newer, o.dead, o.stranded)
    ensures x.Ok? || x.Crashed?
    ensures x.Ok? ==> p.known == known && GoesBy(o, batch, p, old(o.tick))
    ensures x.Ok? ==> AccountedAll(o, batch, toFile, old(o.nextId), old(o.newer), o.filed, p,
                                   o.nextId, o.newer, stamps, r)
    ensures x.Ok? ==> o.tick == p.ticks[|p.hows|]
    ensures x.Ok? ==> PostedHaveIssues(batch.nwo, toFile, p.hows, p.labelFree, o.world) && Total(r) == |toFile|
    ensures scanned && Distinct(toFile) ==> Evolves(old(o.world), o.world)
    ensures forall q | q in stamps && q.0 != batch.id :: q in o.filed && stamps[q] == o.filed[q]
  {
    stamps, r, p := o.filed, FileResult(0, 0, 0, 0), Pass(known, false, {}, [], []);
    var labelFree;
    x, labelFree := PrepareLabels(o, batch, toFile);
    if x.Crashed? { return; }
    label prepared:
    x, stamps, r, p := FileEach(o, batch, toFile, known, labelFree, scanned);
    if scanned && Distinct(toFile) {
      EvolvesChains(old(o.world), old@prepared(o.world), o.world);
    }
  }

  /** Files the selected findings and stamps them with one write at the end, if there is
      anything to stamp. However the pass ends, whatever fails, it stamps nothing
      "queued" that has no op to back it. `scanned` tells whether the scan for known
      findings succeeded: only then is no finding filed twice. */
  method FileFindings(o: Outbox, batch: Batch, selected: set<string>)
    returns (r: FileResult, x: Exec, ghost scanned: bool, ghost p: Pass)
    requires o.Inv() && o.StampsBacked()
    modifies o`tick, o`world, o`newer, o`nextId, o`filed
    ensures o.Inv() && o.StampsBacked()
    ensures Selected(batch.findings, selected) == [] ==>
              && x.Ok? && Total(r) == 0 && o.newer == old(o.newer) && o.world == old(o.world)
              && o.filed == old(o.filed) && o.tick == old(o.tick)
    ensures Selected(batch.findings, selected) != [] && Verdict(o.remote(old(o.tick))) in {Failed, Crashed} ==>
              x == Verdict(o.remote(old(o.tick))) && o.newer == old(o.newer) && o.world == old(o.world)
    ensures x.Ok? && Selected(batch.findings, selected) != [] ==>
              && (!scanned ==> Verdict(o.remote(old(o.tick))).Net?)
              && p.known == (if scanned then Fingerprints(old(o.world), batch.nwo) else {})
              && GoesBy(o, batch, p, old(o.tick) + 1)
              && AccountedAll(o, batch, Selected(batch.findings, selected), old(o.nextId), old(o.newer), old(o.filed),
                              p, o.nextId, o.newer, o.filed, r)
              && PostedHaveIssues(batch.nwo, Selected(batch.findings, selected), p.hows, p.labelFree, o.world)
              && o.tick == p.ticks[|p.hows|]
                           + if r.created + r.queuedOffline > 0 || o.filed != old(o.filed) then 1 else 0
    ensures x.Ok? ==> Total(r) == |Selected(batch.findings, selected)|
    ensures scanned <==> Selected(batch.findings, selected) != [] && Verdict(o.remote(old(o.tick))).Ok?
    ensures scanned && Distinct(Selected(batch.findings, selected)) ==> Evolves(old(o.world), o.world)
    ensures forall q | q in o.filed && q.0 != batch.id :: q in old(o.filed) && o.filed[q] == old(o.filed)[q]
  {
    r, scanned := FileResult(0, 0, 0, 0), false;
    p := Pass({}, false, {}, [], []);
    x := Ok;
    var toFile := Selected(batch.findings, selected);
    if toFile == [] { return; }
    var _, scan := o.Ask();
    if scan.Failed? || scan.Crashed? {
      x := scan;
      return;
    }
    scanned := scan.Ok?;
    OthersAreNew(batch.nwo, toFile, o.world);
    var stamps;
    x, stamps, r, p := FileAll(o, batch, toFile, if scan.Ok? then Fingerprints(o.world, batch.nwo) else {}, scanned);
    if x.Ok? && (r.created + r.queuedOffline > 0 || stamps != o.filed) {
      x := Stamp(o, batch, stamps);
    }
  }

  /** The one write of the batch. */
  method Stamp(o: Outbox, batch: Batch, stamps: map<(string, Finding), How>) returns (x: Exec)
    requires o.Inv() && o.StampsBacked() && Backed(stamps, o.files, o.newer, o.dead, o.stranded)
    modifies o`tick, o`filed
    ensures o.Inv() && o.StampsBacked()
    ensures x == DiskVerdict(o.local(old(o.tick))) && o.tick == old(o.tick) + 1
    ensures o.filed == if Saved(o.local(old(o.tick))) then stamps else old(o.filed)
  {
    var landed;
    landed, x := o.Disk();
    if landed {
      o.filed := stamps;
    }
  }
}
