/** The flush: replays the outbox over a network that may fail at every call, on
    a machine that may die at every step. */
module OutboxFlush {
  import opened OutboxModel
  import opened Wrappers
  import opened OutboxLaws

  class Outbox {
    const trigger: string
    const remote: nat -> Reply
    const local: nat -> LocalReply
    /** Whether ops of kinds unknown to this build turn up. */
    const skew: bool
    /** Whether another flusher holds the lock at the k-th flush. */
    const busy: nat -> bool
    /** Ops put into the directory by anyone after the k-th listing and up to the next. */
    const arrivals: nat -> seq<Op>

    var tick: nat
    var round: nat
    var nextId: nat
    /** The call that told our login, asked for once in a flush. */
    var login: Option<nat>

    /** Files the last listing saw, and files that appeared since, in id order. */
    var files: seq<StoredOp>
    var newer: seq<StoredOp>
    var dead: seq<StoredOp>
    var world: World
    /** Per batch and finding: how the parked finding was filed. */
    var filed: map<(string, Finding), How>
    /** Stamps that a failed write left at "queued" although the finding was filed. */
    ghost var stranded: set<(string, Finding)>

    constructor (trigger: string, remote: nat -> Reply, local: nat -> LocalReply, skew: bool, busy: nat -> bool,
                 arrivals: nat -> seq<Op>, world: World)
      ensures this.trigger == trigger && this.remote == remote && this.local == local
      ensures this.skew == skew && this.busy == busy && this.arrivals == arrivals
      ensures Inv() && StampsBacked() && files == newer == dead == [] && filed == map[] && stranded == {}
      ensures round == tick == 0 && this.world == world
    {
      this.trigger, this.remote, this.local := trigger, remote, local;
      this.skew, this.busy, this.arrivals := skew, busy, arrivals;
      tick, round, nextId, login := 0, 0, 0, None;
      files, newer, dead, filed, stranded := [], [], [], map[], {};
      this.world := world;
    }

    /** Every failure is network-shaped: no connection, a lost answer, or death. */
    ghost predicate NetworkOnly() {
      !skew && forall k :: !remote(k).Refused? && !remote(k).RefusedLate? && !local(k).Faulty?
    }

    /** The network answers, the disk works and the machine lives. */
    ghost predicate Steady() {
      forall k :: (remote(k).Ack? || remote(k).Refused? || remote(k).RefusedLate?) && local(k).Kept?
    }

    /** Nothing fails at all. */
    ghost predicate Smooth() {
      !skew && forall k :: remote(k).Ack? && local(k).Kept?
    }

    /** No write of the disk fails in between. */
    ghost predicate Faultless(a: nat, b: nat) {
      forall k | a <= k < b :: !local(k).Faulty?
    }

    /** The network says yes and the machine lives in between. */
    ghost predicate Answering(a: nat, b: nat) {
      forall k | a <= k < b :: remote(k).Ack? && (local(k).Kept? || local(k).Faulty?)
    }

    /** Stamps are stranded only by a write that failed in between. */
    ghost predicate Strands(before: set<(string, Finding)>, since: nat, after: set<(string, Finding)>, now: nat) {
      since <= now && before <= after && (Faultless(since, now) ==> after == before)
    }

    lemma StrandsChain(s0: set<(string, Finding)>, t0: nat, s1: set<(string, Finding)>, t1: nat,
                       s2: set<(string, Finding)>, t2: nat)
      requires Strands(s0, t0, s1, t1) && Strands(s1, t1, s2, t2)
      ensures Strands(s0, t0, s2, t2)
    {
    }

    ghost predicate Plausible(x: Exec) {
      && (NetworkOnly() ==> !x.Failed?)
      && (Steady() ==> x.Ok? || x.Failed?)
      && (Smooth() ==> x.Ok?)
    }

    /** Every remote call in between was answered. */
    ghost predicate Heard(a: nat, b: nat) {
      forall k | a <= k < b :: Verdict(remote(k)).Ok?
    }

    /** The login is as known before, or was learnt in between. */
    ghost predicate Knows(before: Option<nat>, a: nat, now: Option<nat>, b: nat) {
      now == before || (now.Some? && a <= now.value < b && Verdict(remote(now.value)).Ok?)
    }

    method Ask() returns (landed: bool, x: Exec)
      modifies `tick
      ensures tick == old(tick) + 1 && landed == Landed(remote(old(tick))) && x == Verdict(remote(old(tick)))
      ensures Plausible(x)
    {
      landed, x := Landed(remote(tick)), Verdict(remote(tick));
      tick := tick + 1;
    }

    method Disk() returns (landed: bool, x: Exec)
      modifies `tick
      ensures tick == old(tick) + 1 && landed == Saved(local(old(tick))) && x == DiskVerdict(local(old(tick)))
      ensures Plausible(x) && (Steady() ==> x.Ok?)
    {
      landed, x := Saved(local(tick)), DiskVerdict(local(tick));
      tick := tick + 1;
    }

    /** Posts the comment unless the scan of our own comments finds its key. */
    method PostComment(key: Key) returns (x: Exec)
      modifies `tick, `login, `world
      ensures old(tick) <= tick
      ensures Plausible(x)
      ensures world == old(world) || world == PostOnce(old(world), key)
      ensures x.Ok? ==> world == PostOnce(old(world), key) && login.Some? && Heard(old(tick), tick)
      ensures Knows(old(login), old(tick), login, tick)
    {
      if login.None? {
        var _, known := Ask();
        if !known.Ok? { return known; }
        login := Some(tick - 1);
      }
      var _, scan := Ask();
      if !scan.Ok? || Delivered(world, key) { return scan; }
      var landed;
      landed, x := Ask();
      if landed {
        world := AddComment(world, key);
      }
    }

    method EditLabels(issue: Issue, add: set<string>, remove: set<string>) returns (x: Exec)
      modifies `tick, `world
      ensures old(tick) <= tick
      ensures Plausible(x)
      ensures world == old(world) || world == Edit(old(world), issue, add, remove)
      ensures x.Ok? ==> world == Edit(old(world), issue, add, remove) && Heard(old(tick), tick)
    {
      var landed;
      landed, x := Ask();
      if landed {
        world := Edit(world, issue, add, remove);
      }
    }

    method GitPush(ref: Ref) returns (x: Exec)
      modifies `tick, `world
      ensures old(tick) <= tick
      ensures Plausible(x)
      ensures world == old(world) || world == PushRef(old(world), ref)
      ensures x.Ok? ==> world == PushRef(old(world), ref) && Heard(old(tick), tick)
    {
      var landed;
      landed, x := Ask();
      if landed {
        world := PushRef(world, ref);
      }
    }

    /** Opens the pull request, or finds the open one. GitHub refuses a head that
        was never pushed and answers "already exists" for a head that has one. */
    method CreatePr(ref: Ref, head: Head) returns (x: Exec, url: Url)
      modifies `tick, `world
      ensures old(tick) <= tick
      ensures ref in old(world).branches ==> Plausible(x)
      ensures world == old(world) || world == OpenPr(old(world), head)
      ensures x.Ok? ==> world == OpenPr(old(world), head) && url == world.prs[head] && Heard(old(tick), tick)
      ensures ref !in old(world).branches ==> world == old(world) && !x.Ok?
      ensures remote(old(tick)).Ack? && ref in old(world).branches && head in old(world).prs ==>
                tick == old(tick) + 2 && x == Verdict(remote(old(tick) + 1))
      ensures remote(old(tick)).Ack? && ref in old(world).branches && head !in old(world).prs ==> x.Ok?
      ensures !remote(old(tick)).Ack? ==> tick == old(tick) + 1 && x == Verdict(remote(old(tick)))
    {
      url := 0;
      var landed;
      landed, x := Ask();
      if landed {
        if ref !in world.branches {
          return if x.Ok? then Failed else x, url;
        }
        var known := head in world.prs;
        world := OpenPr(world, head);
        url := world.prs[head];
        if x.Ok? && known {
          var _, view := Ask();
          x := view;
        }
      }
    }

    /** Writes bookkeeping back to the k-th listed file. */
    method Rewrite(k: nat, s: StoredOp) returns (x: Exec)
      requires k < |files|
      modifies `tick, `files
      ensures tick == old(tick) + 1 && x == DiskVerdict(local(old(tick)))
      ensures Plausible(x) && !x.Net? && (Steady() ==> x.Ok?)
      ensures files == old(files) || files == old(files)[k := s]
      ensures x.Ok? ==> files == old(files)[k := s]
    {
      var landed;
      landed, x := Disk();
      if landed {
        files := files[k := s];
      }
    }

    /** First checkpoint of a pull-request op: the branch is on the remote. */
    method EnsurePushed(k: nat, s: StoredOp) returns (x: Exec, s': StoredOp)
      requires k < |files| && files[k] == s && s.op.Pr? && Sound(s.op, world)
      modifies `tick, `world, `files
      ensures old(tick) <= tick
      ensures Plausible(x)
      ensures SameFile(s, s') && Sound(s'.op, world) && Towards(trigger, s.op, old(world), world)
      ensures files == old(files) || files == old(files)[k := s']
      ensures x.Ok? ==> files[k] == s' && s'.op.pushed
      ensures !x.Crashed? && Faultless(old(tick), tick) ==> files[k] == s'
    {
      s' := s;
      x := Ok;
      if !s.op.pushed {
        PushStep(trigger, s.op, world);
        x := GitPush(s.op.ref);
        if !x.Ok? { return; }
        s' := s.(op := s.op.(pushed := true));
        x := Rewrite(k, s');
      }
    }

    /** Second checkpoint: the pull request is open and its URL is known. */
    method EnsureOpened(k: nat, s: StoredOp, ghost goal: Op) returns (x: Exec, s': StoredOp)
      requires k < |files| && files[k] == s && s.op.Pr? && Sound(s.op, world) && s.op.pushed
      requires SameOp(goal, s.op)
      modifies `tick, `world, `files
      ensures old(tick) <= tick
      ensures Plausible(x)
      ensures SameFile(s, s') && Sound(s'.op, world) && Towards(trigger, goal, old(world), world)
      ensures files == old(files) || files == old(files)[k := s']
      ensures x.Ok? ==> files[k] == s' && s'.op.pushed && s'.op.prUrl.Some?
      ensures !x.Crashed? && Faultless(old(tick), tick) ==> files[k] == s'
    {
      s' := s;
      x := Ok;
      if s.op.prUrl.None? {
        OpenStep(trigger, goal, world);
        var url;
        x, url := CreatePr(s.op.ref, s.op.head);
        if !x.Ok? { return; }
        s' := s.(op := s.op.(prUrl := Some(url)));
        x := Rewrite(k, s');
      }
    }

    /** Third part: the finished ticket learns the URL; a failing disk is ignored. */
    method WriteBack(op: Op, ghost goal: Op) returns (x: Exec)
      requires op.Pr? && Sound(op, world) && op.prUrl.Some? && SameOp(goal, op)
      modifies `tick, `world
      ensures old(tick) <= tick
      ensures x.Ok? || x.Crashed?
      ensures Plausible(x) && Towards(trigger, goal, old(world), world) && world.prs == old(world).prs
      ensures x.Ok? && Faultless(old(tick), tick) ==> world == LinkDone(old(world), op.ticket, op.prUrl.value)
    {
      x := Ok;
      if op.ticket.Some? {
        var landed, y := Disk();
        LinkStep(trigger, goal, world);
        if landed {
          world := LinkDone(world, op.ticket, op.prUrl.value);
        }
        if y.Crashed? { return Crashed; }
      }
    }

    /** Last part: the issue gets its comment, then its label. */
    method FinalizeIssue(op: Op, ghost goal: Op) returns (x: Exec)
      requires Finalizes(op) && Sound(op, world) && op.prUrl.Some? && SameOp(goal, op)
      modifies `tick, `login, `world
      ensures old(tick) <= tick && Knows(old(login), old(tick), login, tick)
      ensures Plausible(x) && Towards(trigger, goal, old(world), world)
      ensures world.prs == old(world).prs && world.done == old(world).done && world.branches == old(world).branches
      ensures x.Ok? ==> Delivered(world, FinalKey(op, op.prUrl.value)) && FinalEdit(trigger, op, world) == world
    {
      CommentStep(trigger, goal, world);
      x := PostComment(FinalKey(op, op.prUrl.value));
      if !x.Ok? { return; }
      FlipStep(trigger, goal, world);
      EditTwice(world, op.target.value, {FinalLabel(trigger, op.finalize.value.status)}, {WorkingLabel(trigger)});
      x := EditLabels(op.target.value, {FinalLabel(trigger, op.finalize.value.status)}, {WorkingLabel(trigger)});
    }

    /** Both checkpoints. */
    method ReachPr(k: nat, s: StoredOp) returns (x: Exec, s': StoredOp)
      requires k < |files| && files[k] == s && s.op.Pr? && Sound(s.op, world)
      modifies `tick, `world, `files
      ensures old(tick) <= tick
      ensures Plausible(x)
      ensures SameFile(s, s') && Sound(s'.op, world) && Towards(trigger, s.op, old(world), world)
      ensures |files| == |old(files)| && files == old(files)[k := files[k]]
      ensures SameFile(s, files[k]) && Sound(files[k].op, world)
      ensures x.Ok? ==> s'.op.pushed && s'.op.prUrl.Some?
      ensures !x.Crashed? && Faultless(old(tick), tick) ==> files[k] == s'
    {
      x, s' := EnsurePushed(k, s);
      if !x.Ok? { return; }
      label pushed:
      x, s' := EnsureOpened(k, s', s.op);
      TowardsChains(trigger, s.op, old(world), old@pushed(world), world);
    }

    /** Everything after the checkpoints. */
    method FinishPr(op: Op, ghost goal: Op) returns (x: Exec)
      requires op.Pr? && Sound(op, world) && op.prUrl.Some? && SameOp(goal, op)
      modifies `tick, `login, `world
      ensures old(tick) <= tick && Knows(old(login), old(tick), login, tick)
      ensures Plausible(x) && Towards(trigger, goal, old(world), world)
      ensures x.Ok? && Faultless(old(tick), tick) ==> Apply(trigger, goal, world) == world
    {
      x := WriteBack(op, goal);
      if !x.Ok? { return; }
      if Finalizes(op) {
        label linked:
        x := FinalizeIssue(op, goal);
        TowardsChains(trigger, goal, old(world), old@linked(world), world);
        if !x.Ok? { return; }
      }
      if Faultless(old(tick), tick) {
        FinishedPr(trigger, goal, op, old(world), world);
      }
    }

    /** The composite op; each part resumes at its checkpoint. */
    method ExecutePr(k: nat, s: StoredOp) returns (x: Exec, s': StoredOp)
      requires k < |files| && files[k] == s && s.op.Pr? && Sound(s.op, world)
      modifies `tick, `login, `world, `files
      ensures old(tick) <= tick && Knows(old(login), old(tick), login, tick)
      ensures Plausible(x)
      ensures SameFile(s, s') && Sound(s'.op, world) && Towards(trigger, s.op, old(world), world)
      ensures |files| == |old(files)| && files == old(files)[k := files[k]]
      ensures SameFile(s, files[k]) && Sound(files[k].op, world)
      ensures !x.Crashed? && Faultless(old(tick), tick) ==> files[k] == s'
      ensures x.Ok? && Faultless(old(tick), tick) ==> Apply(trigger, s.op, world) == world
    {
      x, s' := ReachPr(k, s);
      if !x.Ok? { return; }
      label reached:
      x := FinishPr(s'.op, s.op);
      TowardsChains(trigger, s.op, old(world), old@reached(world), world);
    }

    /** Creates the labels an issue needs, one call each. */
    method EnsureFindingLabels(f: Finding, labels: seq<string>) returns (x: Exec)
      modifies `tick, `world
      ensures old(tick) <= tick
      ensures Plausible(x) && Towards(trigger, IssueCreate(f, labels), old(world), world)
      ensures world == old(world).(repoLabels := world.repoLabels)
      ensures old(world).repoLabels <= world.repoLabels <= EnsureLabels(old(world), f.nwo, labels).repoLabels
      ensures x.Ok? ==> world == EnsureLabels(old(world), f.nwo, labels) && tick == old(tick) + |labels|
      ensures x.Ok? ==> Heard(old(tick), tick)
      ensures !x.Ok? ==> tick > old(tick) && x == Verdict(remote(tick - 1)) && Heard(old(tick), tick - 1)
    {
      x := Ok;
      for i := 0 to |labels|
        invariant Plausible(x) && x.Ok? && tick == old(tick) + i
        invariant Heard(old(tick), tick)
        invariant world == EnsureLabels(old(world), f.nwo, labels[..i])
      {
        var landed;
        landed, x := Ask();
        LabelsGrow(old(world), f.nwo, labels, i);
        if landed {
          world := EnsureLabel(world, f.nwo, labels[i]);
        }
        LabelStep(trigger, f, labels, i, old(world));
        if !x.Ok? { return; }
      }
      assert labels[..|labels|] == labels;
      LabelStep(trigger, f, labels, |labels|, old(world));
    }

    /** GitHub refuses an issue whose labels do not all exist. */
    method GhIssueCreate(f: Finding, labels: seq<string>) returns (x: Exec)
      modifies `tick, `world
      ensures old(tick) <= tick
      ensures LabelsExist(old(world), f.nwo, labels) ==> Plausible(x)
      ensures x == Answer(remote(old(tick)), LabelsExist(old(world), f.nwo, labels)) && tick == old(tick) + 1
      ensures world == if Landed(remote(old(tick))) && LabelsExist(old(world), f.nwo, labels)
                       then AddIssue(old(world), f, labels) else old(world)
    {
      var landed;
      landed, x := Ask();
      if landed {
        if !LabelsExist(world, f.nwo, labels) {
          return if x.Ok? then Failed else x;
        }
        world := AddIssue(world, f, labels);
      }
    }

    method UpgradeOne(p: (string, Finding), how: How) returns (y: Exec)
      modifies `tick, `filed
      ensures tick == old(tick) + 1 && y == DiskVerdict(local(old(tick))) && Plausible(y)
      ensures filed == if Saved(local(old(tick))) then old(filed)[p := how] else old(filed)
    {
      var landed;
      landed, y := Disk();
      if landed {
        filed := filed[p := how];
      }
    }

    /** The batches `ids` were read between ticks `a` and `b`; `seen` are those that
        could be. */
    ghost predicate AreRead(ids: set<string>, a: nat, b: nat, seen: set<string>, readAt: map<string, nat>) {
      && readAt.Keys == ids && b == a + |ids| && seen <= ids
      && forall id | id in ids :: a <= readAt[id] < b && (id in seen <==> !local(readAt[id]).Faulty?)
    }

    lemma OneMoreRead(ids: set<string>, a: nat, b: nat, seen: set<string>, readAt: map<string, nat>, id: string)
      requires AreRead(ids, a, b, seen, readAt) && id !in ids
      ensures AreRead(ids + {id}, a, b + 1, if local(b).Faulty? then seen else seen + {id}, readAt[id := b])
    {
    }

    /** What a listing of the batches between ticks `a` and `b` has seen: nothing when
        the directory cannot be read, else every batch that can. */
    ghost predicate Listing(ids: set<string>, a: nat, b: nat, seen: set<string>, readAt: map<string, nat>) {
      if local(a).Faulty? then seen == {} && b == a + 1 else AreRead(ids, a + 1, b, seen, readAt)
    }

    /** Reads one batch more. */
    method ReadBatch(id: string, seen: set<string>, ghost done: set<string>, ghost since: nat,
                     ghost readAt: map<string, nat>)
      returns (x: Exec, seen': set<string>)
      requires AreRead(done, since, tick, seen, readAt) && id !in done
      modifies `tick
      ensures x.Ok? || x.Crashed?
      ensures Plausible(x) && tick == old(tick) + 1 && (Answering(old(tick), tick) ==> x.Ok?)
      ensures x.Ok? ==> AreRead(done + {id}, since, tick, seen', readAt[id := old(tick)])
    {
      OneMoreRead(done, since, tick, seen, readAt, id);
      var _, read := Disk();
      x := if read.Crashed? then Crashed else Ok;
      seen' := if read.Ok? then seen + {id} else seen;
    }

    method ReadBatches(ids: set<string>) returns (x: Exec, seen: set<string>, ghost readAt: map<string, nat>)
      modifies `tick
      ensures x.Ok? || x.Crashed?
      ensures Plausible(x) && old(tick) <= tick && (Answering(old(tick), tick) ==> x.Ok?)
      ensures x.Ok? ==> AreRead(ids, old(tick), tick, seen, readAt)
    {
      x, seen, readAt := Ok, {}, map[];
      var todo := ids;
      assert ids - todo == {};
      while x.Ok? && todo != {}
        invariant x.Ok? || x.Crashed?
        invariant Plausible(x) && todo <= ids && old(tick) <= tick && (Answering(old(tick), tick) ==> x.Ok?)
        invariant x.Ok? ==> AreRead(ids - todo, old(tick), tick, seen, readAt)
      {
        var id :| id in todo;
        assert ids - todo + {id} == ids - (todo - {id});
        ghost var now := tick;
        x, seen := ReadBatch(id, seen, ids - todo, old(tick), readAt);
        todo, readAt := todo - {id}, readAt[id := now];
      }
      assert ids - {} == ids;
    }

    /** Lists the parked batches; what cannot be read is left out without a word. */
    method ListBatches() returns (x: Exec, seen: set<string>, ghost readAt: map<string, nat>)
      modifies `tick
      ensures x.Ok? || x.Crashed?
      ensures Plausible(x) && old(tick) < tick && (Answering(old(tick), tick) ==> x.Ok?)
      ensures x.Ok? ==> Listing(BatchIds(filed), old(tick), tick, seen, readAt)
    {
      seen, readAt := {}, map[];
      var _, y := Disk();
      if !y.Ok? {
        return if y.Crashed? then Crashed else Ok, seen, readAt;
      }
      x, seen, readAt := ReadBatches(BatchIds(filed));
    }

    /** The stamps of `f` in the batches `seen` learn the outcome, one by one, up to
        the first write that fails. */
    method UpgradeSeen(f: Finding, how: How, seen: set<string>) returns (x: Exec)
      requires !how.Queued?
      modifies `tick, `filed
      ensures old(tick) <= tick && StampsMove(old(filed), filed, f, how)
      ensures Plausible(x) && !x.Net? && (Answering(old(tick), tick) ==> !x.Crashed?)
      ensures x.Failed? <==> !Faultless(old(tick), tick)
      ensures !x.Crashed? ==> (NoneQueued(filed, f) <==> x.Ok? && AllIn(old(filed), f, seen))
      ensures Reached(old(filed), f, seen) ==> old(tick) < tick
    {
      x := Ok;
      var ids := seen;
      while ids != {}
        invariant ids <= seen && StampsMove(old(filed), filed, f, how)
        invariant old(tick) <= tick && Faultless(old(tick), tick) && x.Ok?
        invariant forall p | p in filed && p.1 == f && filed[p].Queued? :: p.0 in ids || p.0 !in seen
        invariant forall p | p in filed && p.0 !in seen :: filed[p] == old(filed)[p]
        invariant filed == old(filed) || old(tick) < tick
      {
        var id :| id in ids;
        ids := ids - {id};
        if (id, f) in filed && filed[(id, f)].Queued? {
          x := UpgradeOne((id, f), how);
          if !x.Ok? { return; }
        }
      }
    }

    /** Queued stamps of `f` learn the outcome, batch by batch; a failing disk ends
        the scan but not the op, and strands what is still queued. They have all
        learned it exactly if their batches could be read and no write failed. */
    method UpgradeRecords(f: Finding, how: How) returns (x: Exec, ghost up: Upgrade)
      requires !how.Queued?
      modifies `tick, `filed, `stranded
      ensures Strands(old(stranded), old(tick), stranded, tick)
      ensures x.Ok? || x.Crashed?
      ensures Plausible(x) && StampsMove(old(filed), filed, f, how) && (Answering(old(tick), tick) ==> x.Ok?)
      ensures x.Ok? ==> Upgraded(up, old(filed), filed, f, tick) && Stranded(filed, f, stranded)
      ensures x.Ok? ==> up.start == old(tick)
    {
      var seen;
      ghost var readAt;
      up := Upgrade(tick, 0, {}, map[]);
      x, seen, readAt := ListBatches();
      if !x.Ok? { return; }
      up := Upgrade(up.start, tick, seen, readAt);
      var y := UpgradeSeen(f, how, seen);
      if y.Crashed? { return Crashed, up; }
      if Faultless(up.start, up.writes) {
        UnlistedIsFault(BatchIds(old(filed)), up);
      }
      if !NoneQueued(filed, f) {
        stranded := stranded + QueuedAbout(filed, f);
      }
    }

    /** The outcome of an upgrade of the stamps of `f`, at tick `now`. */
    ghost predicate Upgraded(up: Upgrade, before: map<(string, Finding), How>, after: map<(string, Finding), How>,
                             f: Finding, now: nat)
    {
      && Listing(BatchIds(before), up.start, up.writes, up.seen, up.readAt)
      && (NoneQueued(after, f) <==> Faultless(up.writes, now) && AllIn(before, f, up.seen))
      && up.writes <= now && (Reached(before, f, up.seen) ==> up.writes < now)
    }

    lemma UnlistedIsFault(ids: set<string>, up: Upgrade)
      requires Listing(ids, up.start, up.writes, up.seen, up.readAt) && Faultless(up.start, up.writes)
      ensures up.seen == ids
    {
    }

    /** Labels first, then a fresh scan for the fingerprint, then the issue. */
    method FileIssue(f: Finding, labels: seq<string>) returns (x: Exec, how: How)
      modifies `tick, `world
      ensures old(tick) <= tick && !how.Queued?
      ensures Plausible(x) && Towards(trigger, IssueCreate(f, labels), old(world), world)
      ensures x.Ok? ==> Apply(trigger, IssueCreate(f, labels), world) == world
      ensures x.Ok? ==> tick == old(tick) + |labels| + if f in old(world).issues then 1 else 2
      ensures x.Ok? ==> Heard(old(tick), tick) && how == (if f in old(world).issues then Deduped else Created)
      ensures !Heard(old(tick), old(tick) + |labels| + 1) ==> world.issues == old(world).issues
      ensures Answering(old(tick), tick) ==> x.Ok?
    {
      how := Deduped;
      x := EnsureFindingLabels(f, labels);
      if !x.Ok? { return; }
      label ensured:
      var _, scan := Ask();
      x := scan;
      if x.Ok? && f !in world.issues {
        x := GhIssueCreate(f, labels);
        IssueStep(trigger, f, labels, old@ensured(world));
        TowardsChains(trigger, IssueCreate(f, labels), old(world), old@ensured(world), world);
        how := Created;
      }
    }

    /** The issue; then the accounting of parked batches is brought up to date, before
        the op goes. */
    method CreateIssue(f: Finding, labels: seq<string>) returns (x: Exec, ghost up: Upgrade)
      modifies `tick, `world, `filed, `stranded
      ensures Strands(old(stranded), old(tick), stranded, tick)
      ensures Plausible(x) && Towards(trigger, IssueCreate(f, labels), old(world), world)
      ensures x.Ok? ==> Apply(trigger, IssueCreate(f, labels), world) == world
      ensures StampsMove(old(filed), filed, f, if f in old(world).issues then Deduped else Created)
      ensures x.Ok? ==> Upgraded(up, old(filed), filed, f, tick) && Stranded(filed, f, stranded)
      ensures x.Ok? ==> up.start == old(tick) + |labels| + if f in old(world).issues then 1 else 2
      ensures Answering(old(tick), tick) ==> x.Ok?
    {
      up := Upgrade(0, 0, {}, map[]);
      var how;
      x, how := FileIssue(f, labels);
      if x.Ok? {
        x, up := UpgradeRecords(f, how);
      }
    }

    method Execute(k: nat, s: StoredOp) returns (x: Exec, s': StoredOp)
      requires k < |files| && files[k] == s && Sound(s.op, world)
      modifies `tick, `login, `world, `files, `filed, `stranded
      ensures Strands(old(stranded), old(tick), stranded, tick)
      ensures old(tick) <= tick && Knows(old(login), old(tick), login, tick)
      ensures s.op.Unknown? || Plausible(x)
      ensures s.op.Unknown? ==> x.Failed?
      ensures SameFile(s, s') && Sound(s'.op, world) && Towards(trigger, s.op, old(world), world)
      ensures |files| == |old(files)| && files == old(files)[k := files[k]]
      ensures SameFile(s, files[k]) && Sound(files[k].op, world)
      ensures !x.Crashed? && Faultless(old(tick), tick) ==> files[k] == s'
      ensures x.Ok? && Faultless(old(tick), tick) ==> Apply(trigger, s.op, world) == world
      ensures filed == old(filed)
              || (s.op.IssueCreate?
                  && StampsMove(old(filed), filed, s.op.finding,
                                if s.op.finding in old(world).issues then Deduped else Created))
      ensures x.Ok? && s.op.IssueCreate? ==> Stranded(filed, s.op.finding, stranded)
    {
      s' := s;
      match s.op
      case Labels(issue, add, remove) =>
        x := Ok;
        if add != {} || remove != {} {
          EditTwice(world, issue, add, remove);
          x := EditLabels(issue, add, remove);
        }
      case Post(issue, text) =>
        x := PostComment(Key(issue, Plain(text)));
      case Push(ref) =>
        x := GitPush(ref);
      case Pr(_, _, _, _, _, _, _, _) =>
        x, s' := ExecutePr(k, s);
      case IssueCreate(finding, labels) =>
        ghost var up;
        x, up := CreateIssue(finding, labels);
      case Unknown =>
        x := Failed;
    }

    // ---------------------------------------------------------- one listed op

    /** Files are in the order of enqueueing, their attempts stay below the limit, and
        checkpoints tell the truth. A dead file keeps the attempts it had on disk. */
    ghost predicate Inv()
      reads `files, `newer, `dead, `world, `nextId
    {
      && InOrder(files + newer, nextId)
      && (forall s | s in files :: s.attempts < 3 && Sound(s.op, world) && (s.op.Unknown? ==> skew))
      && (forall s | s in newer :: s.attempts < 3 && Sound(s.op, world) && (s.op.Unknown? ==> skew))
      && (forall s | s in dead :: s.attempts == 2 && Sound(s.op, world))
    }

    /** Every stamp that still says "queued" has its op in the outbox or in dead, or
        is stranded. */
    ghost predicate StampsBacked()
      reads `files, `newer, `dead, `filed, `stranded
    {
      Backed(filed, files, newer, dead, stranded)
    }

    /** A new file behind all others. */
    method NewFile(op: Op)
      requires Inv() && Sound(op, world) && (op.Unknown? ==> skew)
      modifies `newer, `nextId
      ensures Inv() && (old(StampsBacked()) ==> StampsBacked())
      ensures newer == old(newer) + [StoredOp(old(nextId), 0, op)] && nextId == old(nextId) + 1
    {
      var s := StoredOp(nextId, 0, op);
      OrderSurvivesAppend(files, newer, s, nextId);
      WillCreateGrows(newer, s);
      newer := newer + [s];
      nextId := nextId + 1;
    }

    /** After a dead-letter: keep the finalize tail, free waiting dependents. */
    method AfterDeath(s: StoredOp) returns (x: Exec)
      requires Inv() && Sound(s.op, world)
      modifies `tick, `newer, `nextId, `world
      ensures old(tick) <= tick
      ensures x.Ok? || x.Crashed?
      ensures Steady() ==> x.Ok?
      ensures Inv() && Evolves(old(world), world) && OnlyFrees(s.op, old(world), world)
      ensures x.Ok? && Faultless(old(tick), tick) ==> Released(s.op, world)
      ensures old(newer) <= newer && (forall f | WillCreate(old(newer), f) :: WillCreate(newer, f))
      ensures x.Ok? ==> |newer| == |old(newer)| + if NeedsTail(s.op) then 1 else 0
      ensures x.Ok? && NeedsTail(s.op) ==> newer[|old(newer)|] == StoredOp(old(nextId), 0, Tail(s.op))
      ensures x.Ok? && Finalizes(s.op) && s.op.prUrl.Some? && !s.op.finalizeOnly ==> |newer| > |old(newer)|
    {
      x := Ok;
      if NeedsTail(s.op) {
        var landed, y := Disk();
        if landed {
          WillCreateGrows(newer, StoredOp(nextId, 0, Tail(s.op)));
          NewFile(Tail(s.op));
        }
        if !y.Ok? { return Crashed; }
      }
      if s.op.Pr? && s.op.prUrl.None? && s.op.ticket.Some? {
        var landed, y := Disk();
        var t := s.op.ticket.value;
        if landed && t in world.done && world.done[t].Waiting? {
          world := world.(done := world.done[t := Cleared]);
        }
        if y.Crashed? { return Crashed; }
      }
    }

    /** The k-th file becomes a dead letter. */
    method Bury(k: nat) returns (x: Exec)
      requires k < |files| && Inv() && StampsBacked() && files[k].attempts == 2
      modifies `tick, `files, `dead
      ensures old(tick) <= tick && (Steady() ==> x.Ok?)
      ensures Inv() && StampsBacked()
      ensures x.Ok? ==> files == RemoveAt(old(files), k) && dead == old(dead) + [old(files)[k]]
    {
      var landed;
      landed, x := Disk();
      if landed {
        forall f | WillCreate(files, f) || WillCreate(dead, f)
          ensures WillCreate(RemoveAt(files, k), f) || WillCreate(dead + [files[k]], f)
        {
          WillCreateConcat(dead, [files[k]], f);
          assert files[k] in [files[k]];
          if WillCreate(files, f) {
            RemoveKeepsOthers(files, k, f);
          }
        }
        OrderSurvivesRemove(files, newer, k, nextId);
        dead := dead + [files[k]];
        files := RemoveAt(files, k);
      }
    }

    /** A failure that is not the network's: one attempt more, or death at the third. */
    method Fail(k: nat, s: StoredOp) returns (fate: Fate, x: Exec)
      requires k < |files| && Inv() && Sound(s.op, world) && SameFile(files[k], s)
      requires StampsBacked()
      modifies `tick, `files, `dead, `newer, `nextId, `world
      ensures old(tick) <= tick
      ensures x.Ok? || x.Crashed?
      ensures Steady() ==> x.Ok?
      ensures Inv() && Evolves(old(world), world) && StampsBacked() && OnlyFrees(s.op, old(world), world)
      ensures x.Ok? && fate.Retry? ==> world == old(world)
      ensures x.Ok? && fate.Buried? && Faultless(old(tick), tick) ==> Released(s.op, world)
      ensures x.Ok? ==> fate.Retry? || fate.Buried?
      ensures fate.Retry? && x.Ok? ==>
                && files == old(files)[k := s.(attempts := s.attempts + 1)]
                && dead == old(dead) && newer == old(newer)
      ensures fate.Buried? && x.Ok? ==>
                && s.attempts == 2 && files == RemoveAt(old(files), k) && dead == old(dead) + [old(files)[k]]
                && old(newer) <= newer && |newer| == |old(newer)| + (if NeedsTail(s.op) then 1 else 0)
                && (NeedsTail(s.op) ==> newer[|old(newer)|] == StoredOp(old(nextId), 0, Tail(s.op)))
    {
      if s.attempts + 1 >= 3 {
        fate := Buried;
        x := Bury(k);
        if !x.Ok? { return Buried, Crashed; }
        x := AfterDeath(s);
      } else {
        fate := Retry;
        forall f | WillCreate(files, f) ensures WillCreate(files[k := s.(attempts := s.attempts + 1)], f) {
          ReplaceKeeps(files, k, s.(attempts := s.attempts + 1), f);
        }
        OrderSurvivesReplace(files, newer, k, s.(attempts := s.attempts + 1), nextId);
        x := Rewrite(k, s.(attempts := s.attempts + 1));
        if !x.Ok? { x := Crashed; }
      }
    }

    /** Execution, with the promise of the queue and the stamps kept. */
    method Deliver(k: nat) returns (x: Exec, s: StoredOp)
      requires k < |files| && Inv() && StampsBacked()
      modifies `tick, `login, `files, `world, `filed, `stranded
      ensures Strands(old(stranded), old(tick), stranded, tick) && Knows(old(login), old(tick), login, tick)
      ensures Inv() && Evolves(old(world), world) && StampsBacked()
      ensures Towards(trigger, old(files)[k].op, old(world), world)
      ensures old(files)[k].op.Unknown? || Plausible(x)
      ensures old(files)[k].op.Unknown? ==> x.Failed?
      ensures |files| == |old(files)| && files == old(files)[k := files[k]]
      ensures SameFile(old(files)[k], files[k]) && SameFile(files[k], s) && Sound(s.op, world)
      ensures !x.Crashed? && Faultless(old(tick), tick) ==> files[k] == s
      ensures k == 0 ==> Carried(trigger, files, world) == Carried(trigger, old(files), old(world))
      ensures x.Ok? && Faultless(old(tick), tick) ==> Apply(trigger, files[k].op, world) == world
      ensures x.Ok? && files[k].op.IssueCreate? ==> Stranded(filed, files[k].op.finding, stranded)
    {
      s := files[k];
      x, s := Execute(k, s);
      OrderSurvivesReplace(old(files), newer, k, files[k], nextId);
      if k == 0 {
        FoldAfterHead(trigger, old(files), files, old(world), world);
      }
      SameOpAppliesAlike(trigger, old(files)[k].op, files[k].op, world);
      forall f | WillCreate(old(files), f) ensures WillCreate(files, f) {
        ReplaceKeeps(old(files), k, files[k], f);
      }
    }

    /** Deletes the file of an op that was carried out. */
    method Remove(k: nat, ghost complete: bool) returns (x: Exec)
      requires k < |files| && Inv() && StampsBacked()
      requires complete ==> Apply(trigger, files[k].op, world) == world
      requires files[k].op.IssueCreate? ==> Stranded(filed, files[k].op.finding, stranded)
      modifies `tick, `files
      ensures old(tick) <= tick
      ensures Inv() && StampsBacked()
      ensures !x.Net? && (Steady() ==> x.Ok?) && (x.Failed? <==> !Faultless(old(tick), tick))
      ensures Answering(old(tick), tick) ==> !x.Crashed?
      ensures x.Ok? ==> files == RemoveAt(old(files), k)
      ensures x.Failed? ==> files == old(files)
      ensures k == 0 && complete ==>
                Carried(trigger, files, world) == Carried(trigger, old(files), world)
    {
      var landed;
      landed, x := Disk();
      if landed {
        OrderSurvivesRemove(files, newer, k, nextId);
        if k == 0 && complete {
          FoldWithoutHead(trigger, files, world);
        }
        forall f | WillCreate(files, f)
          ensures WillCreate(RemoveAt(files, k), f) || (files[k].op.IssueCreate? && files[k].op.finding == f)
        {
          RemoveKeepsOthers(files, k, f);
        }
        files := RemoveAt(files, k);
      }
    }

    /** After an execution that was not cut short: delete, retry or bury. */
    method Conclude(k: nat, s: StoredOp, executed: Exec, ghost complete: bool) returns (fate: Fate, x: Exec)
      requires k < |files| && Inv() && StampsBacked()
      requires SameFile(files[k], s) && Sound(s.op, world) && (executed.Ok? || executed.Failed?)
      requires complete ==> executed.Ok? && Apply(trigger, files[k].op, world) == world
      requires executed.Ok? && files[k].op.IssueCreate? ==> Stranded(filed, files[k].op.finding, stranded)
      modifies `tick, `files, `dead, `newer, `nextId, `world
      ensures old(tick) <= tick
      ensures Inv() && Evolves(old(world), world) && StampsBacked() && OnlyFrees(s.op, old(world), world)
      ensures x.Ok? && !fate.Buried? ==> world == old(world)
      ensures x.Ok? && fate.Buried? && Faultless(old(tick), tick) ==> Released(s.op, world)
      ensures x.Ok? && fate.Buried? ==> dead == old(dead) + [old(files)[k]]
      ensures x.Ok? || x.Crashed?
      ensures Steady() ==> x.Ok?
      ensures x.Ok? ==> !fate.Waits? && Meets(fate, k, old(files), old(dead), old(newer), files, dead, newer)
      ensures executed.Ok? && Faultless(old(tick), tick) ==> fate.Sent? && world == old(world) && newer == old(newer)
      ensures complete && Faultless(old(tick), tick) && k == 0 ==>
                Carried(trigger, files, world) == Carried(trigger, old(files), world)
    {
      x := Failed;
      fate := Sent;
      if executed.Ok? {
        x := Remove(k, complete);
      }
      if x.Failed? {
        fate, x := Fail(k, s);
      }
    }

    /** One listed op, from its execution to its fate. */
    method FlushOne(k: nat) returns (fate: Fate, x: Exec, ghost last: Op)
      requires k < |files| && Inv() && StampsBacked()
      modifies `tick, `login, `files, `dead, `newer, `nextId, `world, `filed, `stranded
      ensures Strands(old(stranded), old(tick), stranded, tick) && Knows(old(login), old(tick), login, tick)
      ensures Inv() && Evolves(old(world), world) && StampsBacked()
      ensures !x.Failed? && (Steady() ==> x.Ok?)
      ensures !x.Crashed? ==> (x.Net? <==> fate.Waits?)
      ensures !x.Crashed? ==> Meets(fate, k, old(files), old(dead), old(newer), files, dead, newer)
      ensures NetworkOnly() ==>
                newer == old(newer) && (!x.Crashed? ==> fate.Sent? || fate.Waits?)
      ensures NetworkOnly() && k == 0 ==>
                Carried(trigger, files, world) == Carried(trigger, old(files), old(world))
      ensures Smooth() ==> x.Ok? && fate.Sent?
      ensures SameOp(old(files)[k].op, last) && Steps(trigger, old(files)[k].op, last, old(world), world)
      ensures !x.Crashed? && !fate.Buried? ==> Towards(trigger, old(files)[k].op, old(world), world)
      ensures !x.Crashed? && fate.Buried? && Faultless(old(tick), tick) ==>
                Released(last, world) && dead[|old(dead)|].op == last
    {
      fate := Waits;
      var s;
      x, s := Deliver(k);
      last := s.op;
      ghost var mid := world;
      assert OnlyFrees(last, mid, mid);
      if x.Ok? || x.Failed? {
        label delivered:
        fate, x := Conclude(k, s, x, x.Ok? && Faultless(old(tick), tick));
        EvolvesChains(old(world), old@delivered(world), world);
        assert Towards(trigger, old(files)[k].op, old(world), mid) && OnlyFrees(last, mid, world);
        if !x.Crashed? {
          MeetsAfter(fate, k, old(files), old@delivered(files), old(dead), old(newer), files, dead, newer);
        }
      }
    }

    /** What holds whether or not the machine lives on. */
    ghost predicate Safe(start: World)
      reads this
    {
      Inv() && StampsBacked() && Evolves(start, world)
    }

    /** The replay has dealt with `i` of the listed `ops`; `b` dead files, `t` newer
        ones and the world `start` were there before. */
    ghost predicate Replayed(ops: seq<StoredOp>, i: nat, fates: seq<Fate>, k: nat, r: FlushResult,
                             b: nat, t: nat, start: World)
      reads this
    {
      && Safe(start) && !r.crashed && !r.skipped && i <= |ops| && k <= i && |files| == k + |ops| - i
      && Books(ops, i, fates, files, k, dead, b, newer, t, r)
      && (Steady() ==> !r.offline)
      && (NetworkOnly() ==>
            && |newer| == t && (k == 0 || r.offline)
            && Carried(trigger, files, world) == Carried(trigger, ops, start))
      && (Smooth() ==> k == 0 && !r.offline)
    }

    /** The k-th file, unless the replay has halted. */
    method Turn(k: nat, halted: bool, ghost b: nat) returns (fate: Fate, x: Exec)
      requires k < |files| && Inv() && StampsBacked()
      modifies `tick, `login, `files, `dead, `newer, `nextId, `world, `filed, `stranded
      ensures Strands(old(stranded), old(tick), stranded, tick) && Knows(old(login), old(tick), login, tick)
      ensures Inv() && Evolves(old(world), world) && StampsBacked()
      ensures !x.Failed? && (Steady() && !halted ==> x.Ok?)
      ensures !x.Crashed? ==> (x.Net? <==> fate.Waits?)
      ensures !x.Crashed? ==> Meets(fate, k, old(files), old(dead), old(newer), files, dead, newer)
      ensures halted ==> fate.Waits? && x.Net? && world == old(world)
      ensures NetworkOnly() ==> newer == old(newer) && (!x.Crashed? ==> fate.Sent? || fate.Waits?)
      ensures NetworkOnly() && (k == 0 || halted) ==>
                Carried(trigger, files, world) == Carried(trigger, old(files), old(world))
      ensures Smooth() && !halted ==> x.Ok? && fate.Sent?
      ensures !x.Crashed? && b <= |old(dead)| && AllReleased(old(dead), b, old(world)) && Faultless(old(tick), tick) ==>
                AllReleased(dead, b, world)
    {
      fate, x := Waits, Net;
      if !halted {
        ghost var last;
        fate, x, last := FlushOne(k);
        if !x.Crashed? && b <= |old(dead)| && AllReleased(old(dead), b, old(world)) && Faultless(old(tick), tick) {
          ReleasedAfter(old(dead), b, old(world), world, dead);
        }
      }
    }

    /** The i-th listed op, now the k-th file: its fate and the tally. */
    method ReplayNext(k: nat, r: FlushResult, ghost ops: seq<StoredOp>, ghost i: nat, ghost fates: seq<Fate>,
                      ghost b: nat, ghost t: nat, ghost start: World)
      returns (fate: Fate, k': nat, r': FlushResult)
      requires Replayed(ops, i, fates, k, r, b, t, start) && i < |ops|
      modifies `tick, `login, `files, `dead, `newer, `nextId, `world, `filed, `stranded
      ensures Strands(old(stranded), old(tick), stranded, tick) && Knows(old(login), old(tick), login, tick)
      ensures Safe(start) && !r'.skipped && (Steady() ==> !r'.crashed)
      ensures NetworkOnly() ==>
                Carried(trigger, files, world) == Carried(trigger, ops, start) && newer == old(newer)
      ensures r'.crashed || Replayed(ops, i + 1, fates + [fate], k', r', b, t, start)
      ensures !r'.crashed && b <= |old(dead)| && AllReleased(old(dead), b, old(world)) && Faultless(old(tick), tick) ==>
                AllReleased(dead, b, world)
      ensures r'.crashed || (dead[..b] == old(dead)[..b] && newer[..t] == old(newer)[..t])
    {
      assert files[k] == files[k..][0] == ops[i];
      k' := k;
      var x;
      fate, x := Turn(k, r.offline, b);
      EvolvesChains(start, old(world), world);
      if x.Crashed? {
        return fate, k, r.(crashed := true);
      }
      BooksNext(ops, i, fates, old(files), k, old(dead), b, old(newer), t, r, fate, files, dead, newer);
      r' := Tally(r, fate);
      if fate.Retry? || fate.Waits? {
        k' := k + 1;
      }
    }

    /** The replay of one listing, in order, halting at the first network failure.
        Returns what became of each listed op. */
    method FlushLocked() returns (r: FlushResult, ghost fates: seq<Fate>)
      requires Inv() && StampsBacked()
      modifies `tick, `login, `files, `dead, `newer, `nextId, `world, `filed, `stranded
      ensures Strands(old(stranded), old(tick), stranded, tick)
      ensures login.Some? ==> old(tick) <= login.value && Verdict(remote(login.value)).Ok?
      ensures Safe(old(world)) && !r.skipped
      ensures r.crashed
              || Books(old(files), |old(files)|, fates, files, |files|, dead, |old(dead)|, newer, |old(newer)|, r)
      ensures r.crashed || (old(dead) <= dead && old(newer) <= newer)
      ensures !r.crashed && Faultless(old(tick), tick) ==> AllReleased(dead, |old(dead)|, world)
      ensures Steady() ==> !r.crashed && !r.offline
      ensures NetworkOnly() ==>
                newer == old(newer)
                && Carried(trigger, files, world) == Carried(trigger, old(files), old(world))
      ensures Smooth() ==> files == []
    {
      r := FlushResult(0, 0, 0, false, false, false);
      fates := [];
      login := None;
      ghost var ops, b, t := files, |dead|, |newer|;
      var n, k: nat := |files|, 0;
      for i := 0 to n
        invariant r.crashed || Replayed(ops, i, fates, k, r, b, t, old(world))
        invariant !r.crashed && dead[..b] == old(dead) && newer[..t] == old(newer)
        invariant Strands(old(stranded), old(tick), stranded, tick) && Knows(None, old(tick), login, tick)
        invariant Faultless(old(tick), tick) ==> AllReleased(dead, |old(dead)|, world)
      {
        var fate;
        ghost var before, since := stranded, tick;
        fate, k, r := ReplayNext(k, r, ops, i, fates, b, t, old(world));
        StrandsChain(old(stranded), old(tick), before, since, stranded, tick);
        if r.crashed { return; }
        fates := fates + [fate];
      }
    }

    // ---------------------------------------------------------- whole flushes

    /** The world once everything queued is carried out. */
    ghost function Promise(): World
      reads `files, `newer, `world
    {
      Carried(trigger, files + newer, world)
    }

    /** An op as callers queue it: nothing checkpointed but, perhaps, a push that
        already went through. */
    ghost predicate Enqueueable(op: Op) {
      (op.Pr? ==> op.prUrl.None? && !op.finalizeOnly) && (op.Unknown? ==> skew)
    }

    ghost predicate Calls() {
      forall k :: forall op | op in arrivals(k) :: Enqueueable(op)
    }

    /** The push that went through before. */
    method PushedLive(op: Op)
      requires Inv() && StampsBacked() && Enqueueable(op)
      modifies `world
      ensures Inv() && StampsBacked() && Evolves(old(world), world) && Sound(op, world)
      ensures world == if op.Pr? && op.pushed then PushRef(old(world), op.ref) else old(world)
    {
      if op.Pr? && op.pushed {
        PushKeepsSound(files, op.ref, world);
        PushKeepsSound(newer, op.ref, world);
        PushKeepsSound(dead, op.ref, world);
        world := PushRef(world, op.ref);
      }
    }

    /** A pull-request op that says pushed was pushed live before it was queued. */
    method Enqueue(op: Op)
      requires Inv() && StampsBacked() && Enqueueable(op)
      modifies `newer, `nextId, `world
      ensures Inv() && StampsBacked() && Evolves(old(world), world)
      ensures newer == old(newer) + [StoredOp(old(nextId), 0, op)] && nextId == old(nextId) + 1
      ensures op.Pr? || world == old(world)
      ensures Promise() == Apply(trigger, op, old(Promise()))
    {
      PushedLive(op);
      NewFile(op);
      PromiseGrows(trigger, files + old(newer), StoredOp(old(nextId), 0, op), old(world), world);
      assert files + newer == files + old(newer) + [StoredOp(old(nextId), 0, op)];
    }

    /** Callers queue `ops`, one after the other. */
    method EnqueueAll(ops: seq<Op>)
      requires Inv() && StampsBacked() && forall op | op in ops :: Enqueueable(op)
      modifies `newer, `nextId, `world
      ensures Inv() && StampsBacked() && Evolves(old(world), world)
      ensures |newer| == |old(newer)| + |ops| && old(newer) <= newer
      ensures Promise() == Fold(trigger, ops, old(Promise()))
    {
      for i := 0 to |ops|
        invariant Inv() && StampsBacked() && Evolves(old(world), world)
        invariant |newer| == |old(newer)| + i && old(newer) <= newer
        invariant Promise() == Fold(trigger, ops[..i], old(Promise()))
      {
        ghost var w := world;
        Enqueue(ops[i]);
        EvolvesChains(old(world), w, world);
        FoldAppend(trigger, ops[..i], [ops[i]], old(Promise()));
        assert ops[..i + 1] == ops[..i] + [ops[i]];
      }
      assert ops[..|ops|] == ops;
    }

    /** Reads the directory: everything that is there now. */
    method List()
      requires Inv() && StampsBacked() && Calls()
      modifies `files, `newer, `nextId, `world, `round
      ensures Inv() && StampsBacked() && Evolves(old(world), world)
      ensures round == old(round) + 1 && newer == []
      ensures |files| == |old(files)| + |old(newer)| + |arrivals(old(round))|
      ensures old(files) + old(newer) <= files
      ensures Promise() == Fold(trigger, arrivals(old(round)), old(Promise()))
    {
      EnqueueAll(arrivals(round));
      forall f ensures WillCreate(files + newer, f) <==> WillCreate(files, f) || WillCreate(newer, f) {
        WillCreateConcat(files, newer, f);
      }
      assert files + newer + [] == files + newer;
      files := files + newer;
      newer := [];
      round := round + 1;
    }

    /** The replay, its books and the promise. */
    method FlushListed() returns (r: FlushResult, ghost fates: seq<Fate>)
      requires Inv() && StampsBacked() && newer == []
      modifies `tick, `login, `files, `dead, `newer, `nextId, `world, `filed, `stranded
      ensures Safe(old(world)) && !r.skipped && Strands(old(stranded), old(tick), stranded, tick)
      ensures NetworkOnly() ==> Promise() == old(Promise())
      ensures r.crashed
              || Books(old(files), |old(files)|, fates, files, |files|, dead, |old(dead)|, newer, 0, r)
      ensures r.crashed || (r.sent + r.dead + r.remaining == |old(files)| && r.remaining == |files|
                            && r.dead == |dead| - |old(dead)|)
      ensures !r.crashed && Faultless(old(tick), tick) ==> AllReleased(dead, |old(dead)|, world)
      ensures Steady() ==> !r.crashed && !r.offline
      ensures Smooth() ==> files == [] && newer == []
    {
      r, fates := FlushLocked();
      if !r.crashed {
        BooksBalance(old(files), fates, files, dead, |old(dead)|, newer, 0, r);
      }
      assert old(files) + [] == old(files) && (newer == [] ==> files + newer == files);
    }

    /** One flush: list, take the lock, replay. `listed` is what was found, `fates`
        what became of it. */
    method Flush() returns (r: FlushResult, ghost listed: seq<StoredOp>, ghost fates: seq<Fate>)
      requires Inv() && StampsBacked() && Calls()
      modifies this
      ensures Safe(old(world)) && round == old(round) + 1 && Strands(old(stranded), old(tick), stranded, tick)
      ensures NetworkOnly() ==> Promise() == Fold(trigger, arrivals(old(round)), old(Promise()))
      ensures |listed| == |old(files)| + |old(newer)| + |arrivals(old(round))| && old(files) + old(newer) <= listed
      ensures r.crashed || r.skipped || Books(listed, |listed|, fates, files, |files|, dead, |old(dead)|, newer, 0, r)
      ensures r.crashed || (r.sent + r.dead + r.remaining == |listed| && r.remaining == |files|
                            && r.dead == |dead| - |old(dead)|)
      ensures !r.crashed && Faultless(old(tick), tick) ==> AllReleased(dead, |old(dead)|, world)
      ensures r.skipped <==> busy(old(round)) && listed != []
      ensures r.skipped ==> files == listed && newer == []
      ensures Steady() ==> !r.crashed && !r.offline
      ensures Smooth() && !r.skipped ==> files == [] && newer == []
    {
      List();
      label listing:
      listed, fates := files, [];
      r := FlushResult(0, 0, 0, false, false, false);
      if files == [] { return; }
      if busy(round - 1) {
        r := r.(remaining := |files|, skipped := true);
        return;
      }
      r, fates := FlushListed();
      EvolvesChains(old(world), old@listing(world), world);
    }
  }
}
