/** Whole runs of the outbox: what any number of flushes amounts to, and how soon
    the outbox is empty. */
module OutboxRuns {
  import opened Wrappers
  import opened OutboxModel
  import opened OutboxLaws
  import opened OutboxFlush

  // ------------------------------------------------------------ exactly once

  /** All ops queued between the listings `from` and `to`, in order. */
  ghost function Arrived(arrivals: nat -> seq<Op>, from: nat, to: nat): seq<Op>
    requires from <= to
  {
    if from == to then [] else Arrived(arrivals, from, to - 1) + arrivals(to - 1)
  }

  /** What they amount to. */
  ghost function Owed(trigger: string, arrivals: nat -> seq<Op>, from: nat, to: nat, w: World): World
    requires from <= to
  {
    Fold(trigger, Arrived(arrivals, from, to), w)
  }

  lemma OwedNext(trigger: string, arrivals: nat -> seq<Op>, from: nat, to: nat, w: World)
    requires from <= to
    ensures Fold(trigger, arrivals(to), Owed(trigger, arrivals, from, to, w))
         == Owed(trigger, arrivals, from, to + 1, w)
  {
    FoldAppend(trigger, Arrived(arrivals, from, to), arrivals(to), w);
  }

  /** Any number of flushes, whatever the network does: if all failures are
      network-shaped, then what the queue promises is what everything ever queued
      amounts to, each op once and in order. In particular that is the state of
      the world as soon as the outbox is empty. */
  method Run(o: Outbox, n: nat)
    requires o.Inv() && o.StampsBacked() && o.Calls()
    modifies o
    ensures o.Safe(old(o.world)) && o.round == old(o.round) + n
    ensures o.Strands(old(o.stranded), old(o.tick), o.stranded, o.tick)
    ensures o.NetworkOnly() ==>
              o.Promise() == Fold(o.trigger, Arrived(o.arrivals, old(o.round), o.round), old(o.Promise()))
    ensures o.NetworkOnly() && o.files == [] && o.newer == [] ==>
              o.world == Fold(o.trigger, Arrived(o.arrivals, old(o.round), o.round), old(o.Promise()))
  {
    for i := 0 to n
      invariant o.Safe(old(o.world)) && o.round == old(o.round) + i
      invariant o.Strands(old(o.stranded), old(o.tick), o.stranded, o.tick)
      invariant o.NetworkOnly() ==>
                  o.Promise() == Owed(o.trigger, o.arrivals, old(o.round), o.round, old(o.Promise()))
    {
      ghost var w, before, since := o.world, o.stranded, o.tick;
      OwedNext(o.trigger, o.arrivals, old(o.round), o.round, old(o.Promise()));
      var _, _, _ := o.Flush();
      EvolvesChains(old(o.world), w, o.world);
      o.StrandsChain(old(o.stranded), old(o.tick), before, since, o.stranded, o.tick);
    }
    assert o.files == [] && o.newer == [] ==> OpsOf(o.files + o.newer) == [];
  }

  const NOTHING := World(map[], multiset{}, multiset{}, map[], {}, {}, map[], 0, map[])

  /** Only the disk access of one tick fails. */
  ghost predicate OneFault(o: Outbox, fault: nat) {
    forall k :: o.remote(k) == Ack && o.local(k) == if k == fault then Faulty else Kept
  }

  /** One op to file a finding, and its stamp. */
  ghost predicate Stamped(o: Outbox, f: Finding)
    reads o
  {
    && o.Inv() && o.StampsBacked() && o.tick == 0 && o.world == NOTHING
    && |o.files| == 1 && o.files[0].op == IssueCreate(f, []) && o.newer == o.dead == []
    && o.filed == map[("batch", f) := Queued] && o.stranded == {}
  }

  method QueueStamped(f: Finding, fault: nat) returns (o: Outbox)
    ensures fresh(o) && OneFault(o, fault) && Stamped(o, f)
  {
    o := new Outbox("junco", _ => Ack, k => if k == fault then Faulty else Kept, false, _ => false, _ => [], NOTHING);
    o.Enqueue(IssueCreate(f, []));
    assert o.newer[0] in o.newer;
    assert o.newer + [] == [] + o.newer;
    o.filed := map[("batch", f) := Queued];
    o.files, o.newer := o.newer, [];
    assert WillCreate(o.files, f);
  }

  /** Everything goes well but one access of the upgrade: the read of the directory,
      the read of the batch, or its write. The issue is created, its op is gone, and
      the stamp says "queued" for good. */
  method StrandedStamp(f: Finding, fault: nat) returns (o: Outbox)
    requires 2 <= fault <= 4
    ensures fresh(o) && o.files == o.newer == o.dead == [] && f in o.world.issues
    ensures ("batch", f) in o.filed && o.filed[("batch", f)].Queued? && ("batch", f) in o.stranded
  {
    o := QueueStamped(f, fault);
    var x := CarryOut(o, f, fault);
    x := o.Remove(0, false);
  }

  /** Why it is not upgraded. */
  lemma NotUpgraded(o: Outbox, f: Finding, fault: nat, up: Upgrade, filed: map<(string, Finding), How>, now: nat)
    requires OneFault(o, fault) && 2 <= fault <= 4 && up.start == 2
    requires o.Upgraded(up, map[("batch", f) := Queued], filed, f, now)
    ensures !NoneQueued(filed, f) && now > fault
  {
    var before: map<(string, Finding), How> := map[("batch", f) := Queued];
    assert o.local(2).Faulty? <==> fault == 2;
    assert ("batch", f) in QueuedAbout(before, f);
    assert ("batch", f) in before && BatchIds(before) == {"batch"};
    if fault > 2 {
      assert o.AreRead({"batch"}, 3, up.writes, up.seen, up.readAt);
      assert "batch" in {"batch"} && up.readAt["batch"] == 3;
      assert o.local(fault).Faulty?;
    }
  }

  lemma FaultIsNoSilence(o: Outbox, fault: nat, a: nat, b: nat)
    requires OneFault(o, fault)
    ensures o.Answering(a, b)
  {
  }

  lemma StampStays(filed: map<(string, Finding), How>, files: seq<StoredOp>, f: Finding)
    requires (exists how :: StampsMove(map[("batch", f) := Queued], filed, f, how)) && !NoneQueued(filed, f)
    requires |files| == 1 && files[0].op == IssueCreate(f, [])
    ensures ("batch", f) in filed && filed[("batch", f)].Queued?
    ensures forall stranded :: Backed(filed, files, [], [], stranded)
  {
    assert files[0] in files;
    assert WillCreate(files, f);
  }

  /** Carries it out and fails to upgrade the stamp. */
  method CarryOut(o: Outbox, f: Finding, fault: nat) returns (x: Exec)
    requires OneFault(o, fault) && 2 <= fault <= 4 && Stamped(o, f)
    modifies o`tick, o`world, o`filed, o`stranded
    ensures o.Inv() && o.StampsBacked() && x.Ok? && o.tick > fault && f in o.world.issues
    ensures ("batch", f) in o.filed && o.filed[("batch", f)].Queued? && Stranded(o.filed, f, o.stranded)
  {
    ghost var up;
    x, up := o.CreateIssue(f, []);
    FaultIsNoSilence(o, fault, 0, o.tick);
    NotUpgraded(o, f, fault, up, o.filed, o.tick);
    StampStays(o.filed, o.files, f);
    assert Evolves(NOTHING, o.world);
  }

  // What everything ever queued amounts to.

  /** The statuses that count as done. */
  predicate EndedWell(status: string) {
    status == "completed" || status == "completed_no_changes" || status == "aborted_partial"
    || status == "timeout_partial"
  }

  /** The labels of one issue after one queued op. */
  function LabelsAfter(trigger: string, op: Op, issue: Issue, s: set<string>): set<string> {
    if op.Labels? && op.issue == issue then s + op.add - op.remove
    else if op.Pr? && op.target == Some(issue) && op.finalize.Some? then
      s + {trigger + (if EndedWell(op.finalize.value.status) then ":done" else ":failed")} - {trigger + ":working"}
    else s
  }

  /** The queued edits of one issue's labels, folded in order. */
  function LabelFold(trigger: string, ops: seq<Op>, issue: Issue, s: set<string>): set<string> {
    if ops == [] then s else LabelFold(trigger, ops[1..], issue, LabelsAfter(trigger, ops[0], issue, s))
  }

  lemma LabelsOfOne(trigger: string, op: Op, issue: Issue, w: World)
    ensures LabelsOf(Apply(trigger, op, w).labels, issue)
         == LabelsAfter(trigger, op, issue, LabelsOf(w.labels, issue))
  {
    match op
    case Labels(_, add, remove) =>
      assert add == {} && remove == {} ==> LabelsOf(w.labels, issue) + add - remove == LabelsOf(w.labels, issue);
    case Pr(_, _, _, _, _, _, _, _) =>
      PrEffects(trigger, op, w);
      FlipIs(trigger, op, issue, w);
    case _ =>
  }

  lemma FlipIs(trigger: string, op: Op, issue: Issue, w: World)
    requires op.Pr?
    ensures LabelsOf((if Finalizes(op) then FinalEdit(trigger, op, w) else w).labels, issue)
         == LabelsAfter(trigger, op, issue, LabelsOf(w.labels, issue))
  {
    if Finalizes(op) {
      assert EndedWell(op.finalize.value.status) <==> op.finalize.value.status in TERMINAL_DONE;
    }
  }

  lemma {:induction false} LabelsAreFolded(trigger: string, ops: seq<Op>, issue: Issue, w: World)
    ensures LabelsOf(Fold(trigger, ops, w).labels, issue)
         == LabelFold(trigger, ops, issue, LabelsOf(w.labels, issue))
  {
    if ops != [] {
      LabelsOfOne(trigger, ops[0], issue, w);
      LabelsAreFolded(trigger, ops[1..], issue, Apply(trigger, ops[0], w));
    }
  }

  lemma CommentsOfOne(trigger: string, op: Op, issue: Issue, text: string, w: World)
    ensures Apply(trigger, op, w).comments[Comment(true, Key(issue, Plain(text)))]
         == if w.comments[Comment(true, Key(issue, Plain(text)))] == 0 && op == Post(issue, text) then 1
            else w.comments[Comment(true, Key(issue, Plain(text)))]
  {
    if op.Pr? {
      PrEffects(trigger, op, w);
    }
  }

  /** A queued comment is there exactly once, unless it already was; no plain
      comment appears that was not queued. */
  lemma {:induction false} CommentsAppearOnce(trigger: string, ops: seq<Op>, issue: Issue, text: string, w: World)
    ensures Fold(trigger, ops, w).comments[Comment(true, Key(issue, Plain(text)))]
         == if w.comments[Comment(true, Key(issue, Plain(text)))] == 0 && Post(issue, text) in ops then 1
            else w.comments[Comment(true, Key(issue, Plain(text)))]
  {
    if ops != [] {
      CommentsOfOne(trigger, ops[0], issue, text, w);
      CommentsAppearOnce(trigger, ops[1..], issue, text, Apply(trigger, ops[0], w));
      assert Post(issue, text) in ops <==> ops[0] == Post(issue, text) || Post(issue, text) in ops[1..];
    }
  }

  /** Some op asks for an issue about `f`. */
  predicate Asks(ops: seq<Op>, f: Finding) {
    exists op | op in ops :: op.IssueCreate? && op.finding == f
  }

  lemma IssuesOfOne(trigger: string, op: Op, f: Finding, w: World)
    ensures Apply(trigger, op, w).issues[f]
         == if w.issues[f] == 0 && op.IssueCreate? && op.finding == f then 1 else w.issues[f]
  {
    if op.Pr? {
      PrEffects(trigger, op, w);
    }
  }

  lemma {:induction false} IssuesAppearOnce(trigger: string, ops: seq<Op>, f: Finding, w: World)
    ensures Fold(trigger, ops, w).issues[f] == if w.issues[f] == 0 && Asks(ops, f) then 1 else w.issues[f]
  {
    if ops != [] {
      IssuesOfOne(trigger, ops[0], f, w);
      IssuesAppearOnce(trigger, ops[1..], f, Apply(trigger, ops[0], w));
      assert Asks(ops, f) <==> (ops[0].IssueCreate? && ops[0].finding == f) || Asks(ops[1..], f);
    }
  }

  predicate Wants(ops: seq<Op>, head: Head) {
    exists op | op in ops :: op.Pr? && op.head == head
  }

  lemma OpeningAddsOne(w: World, head: Head)
    ensures OpenPr(w, head).prCount - |OpenPr(w, head).prs| == w.prCount - |w.prs|
  {
  }

  lemma PullRequestsOfOther(trigger: string, op: Op, w: World)
    requires !op.Pr?
    ensures Apply(trigger, op, w).prs == w.prs && Apply(trigger, op, w).prCount == w.prCount
  {
  }

  lemma PullRequestsOfOne(trigger: string, op: Op, w: World)
    ensures Apply(trigger, op, w).prs == if op.Pr? then OpenPr(w, op.head).prs else w.prs
    ensures Apply(trigger, op, w).prCount - |Apply(trigger, op, w).prs| == w.prCount - |w.prs|
  {
    if op.Pr? {
      PrEffects(trigger, op, w);
      OpeningAddsOne(w, op.head);
    } else {
      PullRequestsOfOther(trigger, op, w);
    }
  }

  /** Exactly the wanted heads get a pull request, none gets a second one, and
      known pull requests keep their URL. */
  lemma {:induction false} PullRequestsAppearOnce(trigger: string, ops: seq<Op>, head: Head, w: World)
    ensures head in Fold(trigger, ops, w).prs <==> head in w.prs || Wants(ops, head)
    ensures head in w.prs ==> Fold(trigger, ops, w).prs[head] == w.prs[head]
    ensures Fold(trigger, ops, w).prCount - |Fold(trigger, ops, w).prs| == w.prCount - |w.prs|
  {
    if ops != [] {
      PullRequestsOfOne(trigger, ops[0], w);
      PullRequestsAppearOnce(trigger, ops[1..], head, Apply(trigger, ops[0], w));
      assert Wants(ops, head) <==> (ops[0].Pr? && ops[0].head == head) || Wants(ops[1..], head);
    }
  }

  /** The URLs of pull requests tell them apart. */
  ghost predicate Numbered(w: World) {
    && (forall h | h in w.prs :: w.prs[h] < w.prCount)
    && forall g, h | g in w.prs && h in w.prs && g != h :: w.prs[g] != w.prs[h]
  }

  lemma {:induction false} UrlsStayDistinct(trigger: string, ops: seq<Op>, w: World)
    requires Numbered(w)
    ensures Numbered(Fold(trigger, ops, w))
  {
    if ops != [] {
      PullRequestsOfOne(trigger, ops[0], w);
      assert Apply(trigger, ops[0], w).prs == w.prs || ops[0].Pr?;
      UrlsStayDistinct(trigger, ops[1..], Apply(trigger, ops[0], w));
    }
  }

  /** Some op pushes `ref`. */
  predicate Pushes(ops: seq<Op>, ref: Ref) {
    exists op | op in ops :: op == Push(ref) || (op.Pr? && op.ref == ref)
  }

  lemma BranchesOfOne(trigger: string, op: Op, w: World)
    ensures Apply(trigger, op, w).branches
         == w.branches + match op case Push(ref) => {ref} case Pr(ref, _, _, _, _, _, _, _) => {ref} case _ => {}
  {
    if op.Pr? {
      PrEffects(trigger, op, w);
    }
  }

  /** Exactly the branches that were pushed before or are queued are on the remote. */
  lemma {:induction false} BranchesArePushed(trigger: string, ops: seq<Op>, ref: Ref, w: World)
    ensures ref in Fold(trigger, ops, w).branches <==> ref in w.branches || Pushes(ops, ref)
  {
    if ops != [] {
      BranchesOfOne(trigger, ops[0], w);
      BranchesArePushed(trigger, ops[1..], ref, Apply(trigger, ops[0], w));
      assert Pushes(ops, ref) <==> Pushes([ops[0]], ref) || Pushes(ops[1..], ref);
    }
  }

  /** Some op files a finding of the repository `nwo` with this label. */
  predicate NeedsLabel(ops: seq<Op>, nwo: string, name: string) {
    exists op | op in ops :: op.IssueCreate? && op.finding.nwo == nwo && name in op.labels
  }

  lemma RepoLabelsOfOne(trigger: string, op: Op, nwo: string, name: string, w: World)
    ensures (nwo, name) in Apply(trigger, op, w).repoLabels
       <==> (nwo, name) in w.repoLabels || (op.IssueCreate? && op.finding.nwo == nwo && name in op.labels)
  {
    if op.Pr? {
      PrEffects(trigger, op, w);
    }
  }

  /** A repository has a label exactly if it had it or a queued finding needs it. */
  lemma {:induction false} RepoLabelsAppear(trigger: string, ops: seq<Op>, nwo: string, name: string, w: World)
    ensures (nwo, name) in Fold(trigger, ops, w).repoLabels
       <==> (nwo, name) in w.repoLabels || NeedsLabel(ops, nwo, name)
  {
    if ops != [] {
      RepoLabelsOfOne(trigger, ops[0], nwo, name, w);
      RepoLabelsAppear(trigger, ops[1..], nwo, name, Apply(trigger, ops[0], w));
      assert NeedsLabel(ops, nwo, name) <==> NeedsLabel([ops[0]], nwo, name) || NeedsLabel(ops[1..], nwo, name);
    }
  }

  lemma IssueLabelsOfOne(trigger: string, op: Op, f: Finding, w: World)
    requires f in w.issues || !(op.IssueCreate? && op.finding == f)
    ensures f in Apply(trigger, op, w).issueLabels <==> f in w.issueLabels
    ensures f in w.issueLabels ==> Apply(trigger, op, w).issueLabels[f] == w.issueLabels[f]
  {
    if op.Pr? {
      PrEffects(trigger, op, w);
    }
  }

  /** Once there is an issue, no queued op gives it other labels; and nothing but an op
      that files the finding gives it any. */
  lemma {:induction false} IssueLabelsStay(trigger: string, ops: seq<Op>, f: Finding, w: World)
    requires f in w.issues || !Asks(ops, f)
    ensures f in Fold(trigger, ops, w).issueLabels <==> f in w.issueLabels
    ensures f in w.issueLabels ==> Fold(trigger, ops, w).issueLabels[f] == w.issueLabels[f]
  {
    if ops != [] {
      IssuesOfOne(trigger, ops[0], f, w);
      IssueLabelsOfOne(trigger, ops[0], f, w);
      IssueLabelsStay(trigger, ops[1..], f, Apply(trigger, ops[0], w));
    }
  }

  /** A finding without an issue gets one with the labels of the first op that asks for
      it. */
  lemma IssueIsLabelled(trigger: string, before: seq<Op>, f: Finding, labels: seq<string>, more: seq<Op>, w: World)
    requires f !in w.issues && !Asks(before, f)
    ensures f in Fold(trigger, before + [IssueCreate(f, labels)] + more, w).issueLabels
    ensures Fold(trigger, before + [IssueCreate(f, labels)] + more, w).issueLabels[f] == set l | l in labels
  {
    var ops, i := before + [IssueCreate(f, labels)] + more, |before|;
    assert ops[..i] == before && ops[i + 1..] == more;
    FoldAround(trigger, ops, i, w);
    IssuesAppearOnce(trigger, before, f, w);
    IssueLabelsStay(trigger, more, f, Apply(trigger, ops[i], Fold(trigger, before, w)));
  }

  /** Some op waits to link the finished ticket `t`. */
  predicate Links(ops: seq<Op>, t: string) {
    exists op | op in ops :: op.Pr? && op.ticket == Some(t)
  }

  lemma DoneOfOne(trigger: string, op: Op, t: string, w: World)
    ensures t in Apply(trigger, op, w).done <==> t in w.done
    ensures t in w.done ==>
              Apply(trigger, op, w).done[t]
              == if op.Pr? && op.ticket == Some(t) then Linked(Apply(trigger, op, w).prs[op.head]) else w.done[t]
  {
    if op.Pr? {
      PrEffects(trigger, op, w);
    }
  }

  lemma {:induction false} DoneStays(trigger: string, ops: seq<Op>, t: string, w: World)
    requires !Links(ops, t)
    ensures t in Fold(trigger, ops, w).done <==> t in w.done
    ensures t in w.done ==> Fold(trigger, ops, w).done[t] == w.done[t]
  {
    if ops != [] {
      DoneOfOne(trigger, ops[0], t, w);
      DoneStays(trigger, ops[1..], t, Apply(trigger, ops[0], w));
    }
  }

  lemma {:induction false} DoneKeysStay(trigger: string, ops: seq<Op>, t: string, w: World)
    ensures t in Fold(trigger, ops, w).done <==> t in w.done
  {
    if ops != [] {
      DoneOfOne(trigger, ops[0], t, w);
      DoneKeysStay(trigger, ops[1..], t, Apply(trigger, ops[0], w));
    }
  }

  /** A finished ticket ends up linked to the pull request of the last op that names
      it; one that none names stays as it is. */
  lemma TicketIsLinked(trigger: string, ops: seq<Op>, i: nat, t: string, w: World)
    requires i < |ops| && ops[i].Pr? && ops[i].ticket == Some(t) && !Links(ops[i + 1..], t) && t in w.done
    ensures t in Fold(trigger, ops, w).done && ops[i].head in Fold(trigger, ops, w).prs
    ensures Fold(trigger, ops, w).done[t] == Linked(Fold(trigger, ops, w).prs[ops[i].head])
  {
    var v := Fold(trigger, ops[..i], w);
    FoldAround(trigger, ops, i, w);
    DoneKeysStay(trigger, ops[..i], t, w);
    DoneOfOne(trigger, ops[i], t, v);
    PrEffects(trigger, ops[i], v);
    DoneStays(trigger, ops[i + 1..], t, Apply(trigger, ops[i], v));
    PullRequestsAppearOnce(trigger, ops[i + 1..], ops[i].head, Apply(trigger, ops[i], v));
  }

  lemma DeliveredStaysOne(trigger: string, op: Op, key: Key, w: World)
    requires Delivered(w, key)
    ensures Delivered(Apply(trigger, op, w), key)
  {
    if op.Pr? {
      PrEffects(trigger, op, w);
    }
  }

  lemma {:induction false} DeliveredStays(trigger: string, ops: seq<Op>, key: Key, w: World)
    requires Delivered(w, key)
    ensures Delivered(Fold(trigger, ops, w), key)
  {
    if ops != [] {
      DeliveredStaysOne(trigger, ops[0], key, w);
      DeliveredStays(trigger, ops[1..], key, Apply(trigger, ops[0], w));
    }
  }

  lemma PrTellsIssue(trigger: string, op: Op, w: World)
    requires Finalizes(op)
    ensures op.head in Apply(trigger, op, w).prs
    ensures Delivered(Apply(trigger, op, w), FinalKey(op, Apply(trigger, op, w).prs[op.head]))
  {
  }

  /** The op in the middle of a queue. */
  lemma FoldAround(trigger: string, ops: seq<Op>, i: nat, w: World)
    requires i < |ops|
    ensures Fold(trigger, ops, w)
         == Fold(trigger, ops[i + 1..], Apply(trigger, ops[i], Fold(trigger, ops[..i], w)))
  {
    assert ops == ops[..i] + ops[i..];
    FoldAppend(trigger, ops[..i], ops[i..], w);
    assert ops[i..][1..] == ops[i + 1..];
  }

  /** Every issue with a queued pull request is told its URL. */
  lemma FinalizeCommentAppears(trigger: string, ops: seq<Op>, i: nat, w: World)
    requires i < |ops| && ops[i].Pr? && ops[i].target.Some? && ops[i].finalize.Some?
    ensures ops[i].head in Fold(trigger, ops, w).prs
    ensures Comment(true, Key(ops[i].target.value,
                              Opened(Fold(trigger, ops, w).prs[ops[i].head], ops[i].finalize.value.text)))
            in Fold(trigger, ops, w).comments
  {
    FoldAround(trigger, ops, i, w);
    TellsIssueAndMore(trigger, ops[i], ops[i + 1..], Fold(trigger, ops[..i], w));
  }

  lemma TellsIssueAndMore(trigger: string, op: Op, more: seq<Op>, w: World)
    requires Finalizes(op)
    ensures op.head in Fold(trigger, more, Apply(trigger, op, w)).prs
    ensures Delivered(Fold(trigger, more, Apply(trigger, op, w)),
                      FinalKey(op, Fold(trigger, more, Apply(trigger, op, w)).prs[op.head]))
  {
    PrTellsIssue(trigger, op, w);
    PullRequestsAppearOnce(trigger, more, op.head, Apply(trigger, op, w));
    DeliveredStays(trigger, more, FinalKey(op, Apply(trigger, op, w).prs[op.head]), Apply(trigger, op, w));
  }

  // ------------------------------------------------------------ termination

  ghost predicate RanksUpTo(fs: seq<StoredOp>, bound: int) {
    forall s | s in fs :: Rank(s) <= bound
  }

  /** Whatever is retried comes back with a smaller rank. */
  lemma {:induction false} RanksDrop(ops: seq<StoredOp>, fates: seq<Fate>, left: seq<StoredOp>, gone: seq<StoredOp>,
                                     bound: int)
    requires |ops| == |fates| && Settled(ops, fates, left, gone) && Waits !in fates && RanksUpTo(ops, bound)
    ensures RanksUpTo(left, bound - 1)
  {
    if ops != [] {
      var n := |ops| - 1;
      assert ops[n] in ops && fates[n] in fates;
      match fates[n]
      case Sent => RanksDrop(ops[..n], fates[..n], left, gone, bound);
      case Buried => RanksDrop(ops[..n], fates[..n], left, gone[..|gone| - 1], bound);
      case Waits =>
      case Retry =>
        RanksDrop(ops[..n], fates[..n], left[..|left| - 1], gone, bound);
        assert left == left[..|left| - 1] + [left[|left| - 1]];
    }
  }

  /** A tail ranks below the op that left it. */
  lemma TailsRankLower(ops: seq<StoredOp>, tails: seq<StoredOp>, bound: int)
    requires TailsFrom(ops, tails) && RanksUpTo(ops, bound) && forall s | s in ops :: s.attempts < 3
    ensures RanksUpTo(tails, bound - 1)
  {
  }

  lemma SomethingRanks(fs: seq<StoredOp>)
    requires forall s | s in fs :: s.attempts < 3
    ensures fs == [] || exists s | s in fs :: Rank(s) > 0
  {
    if fs != [] {
      assert fs[0] in fs && Rank(fs[0]) > 0;
    }
  }

  /** Each flush lowers every rank. */
  method FlushLowers(o: Outbox, ghost bound: int)
    requires o.Inv() && o.StampsBacked() && o.Calls() && o.Steady()
    requires !o.busy(o.round) && o.arrivals(o.round) == []
    requires RanksUpTo(o.files + o.newer, bound)
    modifies o
    ensures o.Safe(old(o.world)) && o.round == old(o.round) + 1
    ensures RanksUpTo(o.files + o.newer, bound - 1)
  {
    ghost var before, d := o.files + o.newer, |o.dead|;
    var r, listed, fates := o.Flush();
    assert listed == before;
    assert o.files[..|o.files|] == o.files && o.newer[0..] == o.newer && listed[..|listed|] == listed;
    RanksDrop(listed, fates, o.files, o.dead[d..], bound);
    TailsRankLower(listed, o.newer, bound);
  }

  /** With nothing new queued and a network that answers (be it "no"), six flushes
      empty the outbox: an op fails at most three times, a pull-request op leaves
      at most one tail, and that tail fails at most three times. */
  method Drain(o: Outbox)
    requires o.Inv() && o.StampsBacked() && o.Calls() && o.Steady()
    requires forall k | k >= o.round :: !o.busy(k) && o.arrivals(k) == []
    modifies o
    ensures o.files == [] && o.newer == [] && o.Safe(old(o.world)) && o.round == old(o.round) + 6
  {
    for i := 0 to 6
      invariant o.Safe(old(o.world)) && o.round == old(o.round) + i
      invariant RanksUpTo(o.files + o.newer, 6 - i)
    {
      ghost var w := o.world;
      FlushLowers(o, 6 - i);
      EvolvesChains(old(o.world), w, o.world);
    }
    SomethingRanks(o.files + o.newer);
  }
}
