/** What the flush is built from: outcomes of single calls, steps towards an op,
    the books of a replay, and the order of the queue. */
module OutboxLaws {
  import opened OutboxModel
  import opened Wrappers

  /** What comes of one remote call: success; no connection and no effect; the
      effect but no answer; a permanent error, without or with the effect; the
      machine dies before or after the effect. */
  datatype Reply = Ack | Offline | LostAck | Refused | RefusedLate | Died | DiedLate

  /** What comes of one change of the local disk. */
  datatype LocalReply = Kept | Faulty | Lost | KeptAndLost

  /** How a step ended: success, network-shaped failure, other failure, death. */
  datatype Exec = Ok | Net | Failed | Crashed

  function Verdict(r: Reply): Exec {
    match r
    case Ack => Ok
    case Offline => Net
    case LostAck => Net
    case Refused => Failed
    case RefusedLate => Failed
    case Died => Crashed
    case DiedLate => Crashed
  }

  /** GitHub refuses an issue whose labels do not all exist. */
  function Answer(r: Reply, labelled: bool): Exec {
    if r.Ack? && !labelled then Failed else Verdict(r)
  }

  predicate Landed(r: Reply) {
    r.Ack? || r.LostAck? || r.RefusedLate? || r.DiedLate?
  }

  predicate Saved(r: LocalReply) {
    r.Kept? || r.KeptAndLost?
  }

  function DiskVerdict(r: LocalReply): Exec {
    match r
    case Kept => Ok
    case Faulty => Failed
    case Lost => Crashed
    case KeptAndLost => Crashed
  }

  // ------------------------------------------------------------ what never changes

  /** Branches stay pushed, labels stay created, pull requests keep their URL, and no
      finished ticket comes to wait for one. */
  ghost predicate Grows(v: World, w: World) {
    && v.branches <= w.branches && v.repoLabels <= w.repoLabels
    && (forall h | h in v.prs :: h in w.prs && w.prs[h] == v.prs[h])
    && w.done.Keys == v.done.Keys && forall t | t in w.done && w.done[t].Waiting? :: v.done[t].Waiting?
  }

  /** No own comment and no finding issue is added where one already was, and
      nobody else's comments are touched. */
  ghost predicate AddsOnce(v: World, w: World) {
    && (forall k: Key ::
          w.comments[Comment(true, k)] <= 1 || w.comments[Comment(true, k)] <= v.comments[Comment(true, k)])
    && (forall k: Key :: w.comments[Comment(false, k)] == v.comments[Comment(false, k)])
    && (forall f: Finding :: w.issues[f] <= 1 || w.issues[f] <= v.issues[f])
  }

  ghost predicate Evolves(v: World, w: World) {
    Grows(v, w) && AddsOnce(v, w)
  }

  /** Checkpoints tell the truth. */
  ghost predicate Sound(op: Op, w: World) {
    op.Pr? ==>
      && (op.pushed ==> op.ref in w.branches)
      && (op.prUrl.Some? ==> op.pushed && op.head in w.prs && w.prs[op.head] == op.prUrl.value)
      && (op.finalizeOnly ==> op.prUrl.Some?)
  }

  /** The same op up to its checkpoints. */
  ghost predicate SameOp(p: Op, q: Op) {
    p == q || (p.Pr? && q.Pr? && q == p.(pushed := q.pushed, prUrl := q.prUrl))
  }

  ghost predicate SameFile(a: StoredOp, b: StoredOp) {
    a.id == b.id && a.attempts == b.attempts && SameOp(a.op, b.op)
  }

  lemma SameOpAppliesAlike(trigger: string, p: Op, q: Op, w: World)
    requires SameOp(p, q)
    ensures Apply(trigger, p, w) == Apply(trigger, q, w)
  {
  }

  /** A pull-request op with nothing left to do. */
  lemma PrSatisfied(trigger: string, op: Op, w: World)
    requires op.Pr? && op.ref in w.branches && op.head in w.prs
    requires LinkDone(w, op.ticket, w.prs[op.head]) == w
    requires Finalizes(op) ==> Delivered(w, FinalKey(op, w.prs[op.head])) && FinalEdit(trigger, op, w) == w
    ensures ApplyPr(trigger, op, w) == w
  {
  }

  /** The parts of the composite op behind its checkpoints are done. */
  lemma FinishedPr(trigger: string, goal: Op, op: Op, u: World, w: World)
    requires op.Pr? && Sound(op, u) && op.prUrl.Some? && SameOp(goal, op)
    requires w.prs == u.prs && u.branches <= w.branches && w.done == LinkDone(u, op.ticket, op.prUrl.value).done
    requires Finalizes(op) ==> Delivered(w, FinalKey(op, op.prUrl.value)) && FinalEdit(trigger, op, w) == w
    ensures Apply(trigger, goal, w) == w
  {
    assert w.prs[goal.head] == op.prUrl.value;
    PrSatisfied(trigger, goal, w);
  }

  lemma PushKeepsSound(ss: seq<StoredOp>, ref: Ref, w: World)
    requires forall s | s in ss :: Sound(s.op, w)
    ensures forall s | s in ss :: Sound(s.op, PushRef(w, ref))
  {
  }

  // Each effect of an op is a step towards it.

  /** From `v` to `w` part of `op` may have been done, and nothing else. */
  ghost predicate Towards(trigger: string, op: Op, v: World, w: World) {
    Apply(trigger, op, w) == Apply(trigger, op, v) && Evolves(v, w)
  }

  lemma TowardsChains(trigger: string, op: Op, u: World, v: World, w: World)
    requires Towards(trigger, op, u, v) && Towards(trigger, op, v, w)
    ensures Towards(trigger, op, u, w)
  {
  }

  lemma PushStep(trigger: string, op: Op, w: World)
    requires op.Pr?
    ensures Towards(trigger, op, w, PushRef(w, op.ref))
  {
  }

  lemma OpenStep(trigger: string, op: Op, w: World)
    requires op.Pr?
    ensures Towards(trigger, op, w, OpenPr(w, op.head))
  {
    OpenIsPartOfPr(trigger, op, w);
  }

  lemma LinkStep(trigger: string, op: Op, w: World)
    requires op.Pr? && op.head in w.prs
    ensures Towards(trigger, op, w, LinkDone(w, op.ticket, w.prs[op.head]))
  {
    LinkIsPartOfPr(trigger, op, w);
  }

  lemma CommentStep(trigger: string, op: Op, w: World)
    requires Finalizes(op) && op.head in w.prs
    ensures Towards(trigger, op, w, PostOnce(w, FinalKey(op, w.prs[op.head])))
  {
    CommentIsPartOfPr(trigger, op, w);
  }

  lemma FlipStep(trigger: string, op: Op, w: World)
    requires Finalizes(op) && op.head in w.prs
    ensures Towards(trigger, op, w, FinalEdit(trigger, op, w))
  {
    FlipIsPartOfPr(trigger, op, w);
  }

  /** The k-th label done early changes nothing; `k == |labels|` means all done. */
  lemma LabelStep(trigger: string, f: Finding, labels: seq<string>, k: nat, w: World)
    requires k <= |labels|
    ensures Towards(trigger, IssueCreate(f, labels), w, EnsureLabels(w, f.nwo, labels[..k]))
    ensures k < |labels| ==>
              Towards(trigger, IssueCreate(f, labels), w, EnsureLabels(w, f.nwo, labels[..k + 1]))
  {
    forall j | 0 <= j <= |labels| ensures EnsureLabels(EnsureLabels(w, f.nwo, labels[..j]), f.nwo, labels)
                                       == EnsureLabels(w, f.nwo, labels) {
    }
  }

  predicate LabelsExist(w: World, nwo: string, labels: seq<string>) {
    forall l | l in labels :: (nwo, l) in w.repoLabels
  }

  lemma LabelsGrow(w: World, nwo: string, labels: seq<string>, k: nat)
    requires k < |labels|
    ensures EnsureLabel(EnsureLabels(w, nwo, labels[..k]), nwo, labels[k]) == EnsureLabels(w, nwo, labels[..k + 1])
  {
  }

  lemma IssueStep(trigger: string, f: Finding, labels: seq<string>, w: World)
    requires f !in w.issues
    ensures Towards(trigger, IssueCreate(f, labels), w, AddIssue(w, f, labels))
  {
  }

  /** Accounting of a parked finding. */
  datatype How = Created | Queued | Deduped

  /** Only queued stamps of `f` may have changed, to `how`. */
  ghost predicate StampsMove(old_: map<(string, Finding), How>, new_: map<(string, Finding), How>, f: Finding,
                             how: How)
  {
    && new_.Keys == old_.Keys
    && forall p | p in new_ :: new_[p] == old_[p] || (p.1 == f && old_[p].Queued? && new_[p] == how)
  }

  ghost predicate NoneQueued(filed: map<(string, Finding), How>, f: Finding) {
    forall p | p in filed && p.1 == f :: !filed[p].Queued?
  }

  /** How an upgrade of stamps went: it starts with a listing, which has seen some
      batches, read at the ticks `readAt`; writes come after. */
  datatype Upgrade = Upgrade(start: nat, writes: nat, seen: set<string>, readAt: map<string, nat>)

  /** The parked batches that have stamps. */
  function BatchIds(filed: map<(string, Finding), How>): set<string> {
    set p | p in filed :: p.0
  }

  /** All the queued stamps of `f` are in these batches; some are. */
  ghost predicate AllIn(filed: map<(string, Finding), How>, f: Finding, seen: set<string>) {
    forall p | p in QueuedAbout(filed, f) :: p.0 in seen
  }

  ghost predicate Reached(filed: map<(string, Finding), How>, f: Finding, seen: set<string>) {
    exists p :: p in QueuedAbout(filed, f) && p.0 in seen
  }

  function QueuedAbout(filed: map<(string, Finding), How>, f: Finding): set<(string, Finding)> {
    set p | p in filed && p.1 == f && filed[p].Queued?
  }

  /** What is still queued about `f` is known to be stranded. */
  ghost predicate Stranded(filed: map<(string, Finding), How>, f: Finding, stranded: set<(string, Finding)>) {
    forall p | p in filed && p.1 == f && filed[p].Queued? :: p in stranded
  }

  /** What one flush did to a listed op: carried it out, gave it up, will retry
      it, or did not get to it. */
  datatype Fate = Sent | Buried | Retry | Waits

  datatype FlushResult = FlushResult(sent: nat, dead: nat, remaining: nat, offline: bool, crashed: bool, skipped: bool)

  ghost predicate Survives(o: StoredOp, fate: Fate, s: StoredOp) {
    s.id == o.id && SameOp(o.op, s.op) && s.attempts == o.attempts + if fate.Retry? then 1 else 0
  }

  /** `left` are the listed ops still in the outbox, `gone` the dead-lettered ones,
      both in listing order; the rest was sent. */
  ghost predicate Settled(ops: seq<StoredOp>, fates: seq<Fate>, left: seq<StoredOp>, gone: seq<StoredOp>)
    requires |ops| == |fates|
  {
    if ops == [] then left == [] && gone == []
    else
      var n := |ops| - 1;
      match fates[n]
      case Sent => Settled(ops[..n], fates[..n], left, gone)
      case Buried => gone != [] && SameFile(ops[n], gone[|gone| - 1])
                     && Settled(ops[..n], fates[..n], left, gone[..|gone| - 1])
      case _ => left != [] && Survives(ops[n], fates[n], left[|left| - 1])
                && Settled(ops[..n], fates[..n], left[..|left| - 1], gone)
  }

  function Count(fates: seq<Fate>, f: Fate): nat {
    if fates == [] then 0 else Count(fates[..|fates| - 1], f) + if fates[|fates| - 1] == f then 1 else 0
  }

  lemma CountNext(fates: seq<Fate>, fate: Fate, f: Fate)
    ensures Count(fates + [fate], f) == Count(fates, f) + if fate == f then 1 else 0
  {
  }

  /** Nothing is decided twice and nothing is lost. */
  lemma {:induction false} SettledCounts(ops: seq<StoredOp>, fates: seq<Fate>, left: seq<StoredOp>, gone: seq<StoredOp>)
    requires |ops| == |fates| && Settled(ops, fates, left, gone)
    ensures |left| == Count(fates, Retry) + Count(fates, Waits)
    ensures |gone| == Count(fates, Buried)
    ensures Count(fates, Sent) + |left| + |gone| == |ops|
  {
    if ops != [] {
      var n := |ops| - 1;
      match fates[n]
      case Sent => SettledCounts(ops[..n], fates[..n], left, gone);
      case Buried => SettledCounts(ops[..n], fates[..n], left, gone[..|gone| - 1]);
      case _ => SettledCounts(ops[..n], fates[..n], left[..|left| - 1], gone);
    }
  }

  lemma SettledNext(ops: seq<StoredOp>, fates: seq<Fate>, left: seq<StoredOp>, gone: seq<StoredOp>,
                    o: StoredOp, fate: Fate, last: StoredOp)
    requires |ops| == |fates| && Settled(ops, fates, left, gone)
    ensures fate.Sent? ==> Settled(ops + [o], fates + [fate], left, gone)
    ensures fate.Buried? && SameFile(o, last) ==> Settled(ops + [o], fates + [fate], left, gone + [last])
    ensures (fate.Retry? || fate.Waits?) && Survives(o, fate, last) ==>
              Settled(ops + [o], fates + [fate], left + [last], gone)
  {
  }

  /** Tails come from listed ops that may leave one. */
  ghost predicate TailsFrom(ops: seq<StoredOp>, tails: seq<StoredOp>) {
    forall t | t in tails :: exists s | s in ops :: LeavesTail(s, t)
  }

  /** The finalize tail a dead pull-request op leaves behind. */
  predicate NeedsTail(op: Op) {
    op.Pr? && op.prUrl.Some? && Finalizes(op) && !op.finalizeOnly
  }

  function Tail(op: Op): Op
    requires NeedsTail(op)
  {
    op.(pushed := true, finalizeOnly := true)
  }

  /** A tail is a pull-request op that amounts to what the dead one does, and leaves no
      tail itself. */
  lemma TailAmountsToOp(trigger: string, op: Op, w: World)
    requires NeedsTail(op) && Sound(op, w)
    ensures Apply(trigger, Tail(op), w) == Apply(trigger, op, w) && SameOp(op, Tail(op).(finalizeOnly := false))
    ensures Sound(Tail(op), w) && Tail(op).finalizeOnly && Tail(op).prUrl == op.prUrl && !NeedsTail(Tail(op))
  {
  }

  /** The finished ticket of an op that opens no pull request is not waiting for one. */
  ghost predicate Released(op: Op, w: World) {
    op.Pr? && op.prUrl.None? && op.ticket.Some? && op.ticket.value in w.done ==> !w.done[op.ticket.value].Waiting?
  }

  ghost predicate AllReleased(dead: seq<StoredOp>, b: nat, w: World) {
    forall i | b <= i < |dead| :: Released(dead[i].op, w)
  }

  /** From `v` to `w` nothing has happened but, perhaps, that the finished ticket of an
      op without a pull request no longer waits. */
  ghost predicate OnlyFrees(op: Op, v: World, w: World) {
    && w == v.(done := w.done) && w.done.Keys == v.done.Keys
    && forall t | t in v.done && w.done[t] != v.done[t] ::
         op.Pr? && op.prUrl.None? && op.ticket == Some(t) && v.done[t].Waiting? && w.done[t].Cleared?
  }

  lemma ReleasedStays(dead: seq<StoredOp>, b: nat, v: World, w: World)
    requires AllReleased(dead, b, v) && Grows(v, w)
    ensures AllReleased(dead, b, w)
  {
  }

  lemma ReleasedNext(dead: seq<StoredOp>, b: nat, s: StoredOp, w: World)
    requires AllReleased(dead, b, w) && Released(s.op, w)
    ensures AllReleased(dead + [s], b, w)
  {
  }

  lemma ReleasedAfter(dead: seq<StoredOp>, b: nat, v: World, w: World, dead': seq<StoredOp>)
    requires AllReleased(dead, b, v) && Grows(v, w) && b <= |dead|
    requires dead' == dead || (|dead'| == |dead| + 1 && dead'[..|dead|] == dead && Released(dead'[|dead|].op, w))
    ensures AllReleased(dead', b, w)
  {
    ReleasedStays(dead, b, v, w);
    if dead' != dead {
      assert dead' == dead + [dead'[|dead|]];
      ReleasedNext(dead, b, dead'[|dead|], w);
    }
  }

  /** One op: parts of it, and, if it dies, the release of its ticket. */
  ghost predicate Steps(trigger: string, op: Op, last: Op, v: World, w: World) {
    SameOp(op, last) && exists mid :: Towards(trigger, op, v, mid) && OnlyFrees(last, mid, w)
  }

  /** How often an op can still fail, counting the tail it may leave. */
  function Rank(s: StoredOp): int {
    3 - s.attempts + if s.op.Pr? && !s.op.finalizeOnly then 3 else 0
  }

  function OpsOf(fs: seq<StoredOp>): (ops: seq<Op>)
    ensures |ops| == |fs|
  {
    seq(|fs|, i requires 0 <= i < |fs| => fs[i].op)
  }

  /** Some file will still create the issue of finding `f`. */
  ghost predicate WillCreate(fs: seq<StoredOp>, f: Finding) {
    exists s | s in fs :: s.op.IssueCreate? && s.op.finding == f
  }

  /** Every stamp that says "queued" has its op somewhere, or is stranded. */
  ghost predicate Backed(filed: map<(string, Finding), How>, files: seq<StoredOp>, newer: seq<StoredOp>,
                         dead: seq<StoredOp>, stranded: set<(string, Finding)>)
  {
    forall p | p in filed && filed[p].Queued? ::
      WillCreate(files, p.1) || WillCreate(newer, p.1) || WillCreate(dead, p.1) || p in stranded
  }

  lemma WillCreateConcat(a: seq<StoredOp>, b: seq<StoredOp>, f: Finding)
    ensures WillCreate(a + b, f) <==> WillCreate(a, f) || WillCreate(b, f)
  {
  }

  lemma WillCreateGrows(fs: seq<StoredOp>, s: StoredOp)
    ensures forall f | WillCreate(fs, f) :: WillCreate(fs + [s], f)
  {
  }

  function RemoveAt(fs: seq<StoredOp>, k: nat): seq<StoredOp>
    requires k < |fs|
  {
    fs[..k] + fs[k + 1..]
  }

  /** Names are strictly increasing and below `next`: sorting them is listing the
      directory in the order in which the ops were enqueued. */
  ghost predicate InOrder(fs: seq<StoredOp>, next: nat) {
    && (forall i | 0 <= i < |fs| :: fs[i].id < next)
    && (forall i, j | 0 <= i < j < |fs| :: fs[i].id < fs[j].id)
  }

  lemma OrderSurvivesRemove(fs: seq<StoredOp>, gs: seq<StoredOp>, k: nat, next: nat)
    requires k < |fs| && InOrder(fs + gs, next)
    ensures InOrder(RemoveAt(fs, k) + gs, next)
  {
    assert RemoveAt(fs, k) + gs == RemoveAt(fs + gs, k);
  }

  lemma OrderSurvivesReplace(fs: seq<StoredOp>, gs: seq<StoredOp>, k: nat, s: StoredOp, next: nat)
    requires k < |fs| && InOrder(fs + gs, next) && s.id == fs[k].id
    ensures InOrder(fs[k := s] + gs, next)
  {
    var old_, new_ := fs + gs, fs[k := s] + gs;
    assert new_ == old_[k := s];
    forall i, j | 0 <= i < j < |new_| ensures new_[i].id < new_[j].id {
      assert old_[i].id < old_[j].id;
    }
    forall i | 0 <= i < |new_| ensures new_[i].id < next {
      assert old_[i].id < next;
    }
  }

  lemma OrderSurvivesAppend(fs: seq<StoredOp>, gs: seq<StoredOp>, s: StoredOp, next: nat)
    requires InOrder(fs + gs, next) && s.id == next
    ensures InOrder(fs + (gs + [s]), next + 1)
  {
    assert fs + (gs + [s]) == (fs + gs) + [s];
  }

  lemma RemoveKeepsOthers(fs: seq<StoredOp>, k: nat, f: Finding)
    requires k < |fs| && WillCreate(fs, f)
    ensures WillCreate(RemoveAt(fs, k), f) || (fs[k].op.IssueCreate? && fs[k].op.finding == f)
  {
  }

  lemma ReplaceKeeps(fs: seq<StoredOp>, k: nat, s: StoredOp, f: Finding)
    requires k < |fs| && SameOp(fs[k].op, s.op) && WillCreate(fs, f)
    ensures WillCreate(fs[k := s], f)
  {
    var i :| 0 <= i < |fs| && fs[i].op.IssueCreate? && fs[i].op.finding == f;
    assert fs[k := s][i].op.IssueCreate? && fs[k := s][i].op.finding == f;
    assert fs[k := s][i] in fs[k := s];
  }

  /** The world once these files are carried out. */
  ghost function Carried(trigger: string, fs: seq<StoredOp>, w: World): World {
    Fold(trigger, OpsOf(fs), w)
  }

  lemma FoldAfterHead(trigger: string, fs: seq<StoredOp>, gs: seq<StoredOp>, v: World, w: World)
    requires fs != [] && |gs| == |fs| && gs == fs[0 := gs[0]]
    requires SameOp(fs[0].op, gs[0].op) && Towards(trigger, fs[0].op, v, w)
    ensures Carried(trigger, gs, w) == Carried(trigger, fs, v)
  {
    SameOpAppliesAlike(trigger, fs[0].op, gs[0].op, w);
    assert OpsOf(gs)[1..] == OpsOf(fs)[1..];
  }

  lemma FoldWithoutHead(trigger: string, fs: seq<StoredOp>, w: World)
    requires fs != [] && Apply(trigger, fs[0].op, w) == w
    ensures Carried(trigger, fs, w) == Carried(trigger, RemoveAt(fs, 0), w)
  {
    assert OpsOf(RemoveAt(fs, 0)) == OpsOf(fs)[1..];
  }

  /** The directory before and after one op met its fate; `f`, `d`, `n` are the
      listed files, the dead ones and those that appeared since the listing. */
  ghost predicate Meets(fate: Fate, k: nat, f: seq<StoredOp>, d: seq<StoredOp>, n: seq<StoredOp>,
                        f': seq<StoredOp>, d': seq<StoredOp>, n': seq<StoredOp>)
    requires k < |f|
  {
    match fate
    case Sent => f' == RemoveAt(f, k) && d' == d && n' == n
    case Buried =>
      && f[k].attempts == 2 && f' == RemoveAt(f, k)
      && |d'| == |d| + 1 && d'[..|d|] == d && SameFile(f[k], d'[|d|])
      && n <= n' && |n'| <= |n| + 1 && (|n'| > |n| ==> LeavesTail(f[k], n'[|n|]))
    case _ =>
      |f'| == |f| && f' == f[k := f'[k]] && Survives(f[k], fate, f'[k]) && d' == d && n' == n
  }

  /** One more listed op has met its fate: `left` and `gone` before and after. */
  lemma MeetsSettles(ops: seq<StoredOp>, fates: seq<Fate>, f: seq<StoredOp>, d: seq<StoredOp>, n: seq<StoredOp>,
                     k: nat, burials: nat, o: StoredOp, fate: Fate,
                     f': seq<StoredOp>, d': seq<StoredOp>, n': seq<StoredOp>)
    requires k < |f| && burials <= |d| && f[k] == o && Meets(fate, k, f, d, n, f', d', n')
    requires |ops| == |fates| && Settled(ops, fates, f[..k], d[burials..])
    ensures burials <= |d'| && d'[..burials] == d[..burials]
    ensures var k' := if fate.Retry? || fate.Waits? then k + 1 else k;
            k' <= |f'| && f'[k'..] == f[k + 1..] && Settled(ops + [o], fates + [fate], f'[..k'], d'[burials..])
  {
    match fate
    case Sent =>
      RemovedParts(f, k);
      SettledNext(ops, fates, f[..k], d[burials..], o, fate, o);
    case Buried =>
      RemovedParts(f, k);
      SettledNext(ops, fates, f[..k], d[burials..], o, fate, d'[|d|]);
      GrownParts(d, d', burials);
    case Retry =>
      ReplacedParts(f, k, f'[k]);
      SettledNext(ops, fates, f[..k], d[burials..], o, fate, f'[k]);
    case Waits =>
      ReplacedParts(f, k, f'[k]);
      SettledNext(ops, fates, f[..k], d[burials..], o, fate, f'[k]);
  }

  lemma GrownParts(d: seq<StoredOp>, d': seq<StoredOp>, b: nat)
    requires b <= |d| && |d'| == |d| + 1 && d'[..|d|] == d
    ensures d'[b..] == d[b..] + [d'[|d|]] && d'[..b] == d[..b]
  {
  }

  lemma RemovedParts(f: seq<StoredOp>, k: nat)
    requires k < |f|
    ensures RemoveAt(f, k)[..k] == f[..k] && RemoveAt(f, k)[k..] == f[k + 1..]
  {
  }

  lemma ReplacedParts(f: seq<StoredOp>, k: nat, s: StoredOp)
    requires k < |f|
    ensures f[k := s][..k + 1] == f[..k] + [s] && f[k := s][k + 1..] == f[k + 1..]
  {
  }

  lemma MeetsTails(ops: seq<StoredOp>, i: nat, fate: Fate, k: nat, f: seq<StoredOp>, d: seq<StoredOp>,
                   n: seq<StoredOp>, tails: nat, f': seq<StoredOp>, d': seq<StoredOp>, n': seq<StoredOp>)
    requires i < |ops| && k < |f| && f[k] == ops[i] && tails <= |n|
    requires Meets(fate, k, f, d, n, f', d', n') && TailsFrom(ops, n[tails..])
    ensures tails <= |n'| && n'[..tails] == n[..tails] && TailsFrom(ops, n'[tails..])
  {
    assert n' == if |n'| > |n| then n + [n'[|n|]] else n;
    assert n'[tails..] == n[tails..] + if |n'| > |n| then [n'[|n|]] else [];
    forall t | t in n'[tails..] ensures exists s | s in ops :: LeavesTail(s, t) {
      if t !in n[tails..] {
        assert ops[i] in ops && LeavesTail(ops[i], t);
      }
    }
  }

  /** The state of a replay after `i` of the listed `ops`: `f[..k]` are files left
      behind, `f[k..]` the ones still to come; `d[b..]` and `n[t..]` were added. */
  ghost predicate Books(ops: seq<StoredOp>, i: nat, fates: seq<Fate>, f: seq<StoredOp>, k: nat,
                        d: seq<StoredOp>, b: nat, n: seq<StoredOp>, t: nat, r: FlushResult)
  {
    && |fates| == i <= |ops| && k <= |f| && f[k..] == ops[i..] && b <= |d| && t <= |n|
    && Settled(ops[..i], fates, f[..k], d[b..]) && TailsFrom(ops, n[t..])
    && r.sent == Count(fates, Sent) && r.dead == Count(fates, Buried)
    && r.remaining == Count(fates, Retry) + Count(fates, Waits)
    && (r.offline <==> Waits in fates)
    && (forall x, y | 0 <= x < y < i && fates[x].Waits? :: fates[y].Waits?)
  }

  lemma BooksBalance(ops: seq<StoredOp>, fates: seq<Fate>, f: seq<StoredOp>, d: seq<StoredOp>, b: nat,
                     n: seq<StoredOp>, t: nat, r: FlushResult)
    requires Books(ops, |ops|, fates, f, |f|, d, b, n, t, r)
    ensures r.sent + r.dead + r.remaining == |ops| && r.remaining == |f| && r.dead == |d| - b
  {
    assert ops[..|ops|] == ops && f[..|f|] == f;
    SettledCounts(ops, fates, f, d[b..]);
  }

  function Tally(r: FlushResult, fate: Fate): FlushResult {
    match fate
    case Sent => r.(sent := r.sent + 1)
    case Buried => r.(dead := r.dead + 1)
    case Retry => r.(remaining := r.remaining + 1)
    case Waits => r.(remaining := r.remaining + 1, offline := true)
  }

  lemma BooksNext(ops: seq<StoredOp>, i: nat, fates: seq<Fate>, f: seq<StoredOp>, k: nat,
                  d: seq<StoredOp>, b: nat, n: seq<StoredOp>, t: nat, r: FlushResult,
                  fate: Fate, f': seq<StoredOp>, d': seq<StoredOp>, n': seq<StoredOp>)
    requires Books(ops, i, fates, f, k, d, b, n, t, r) && i < |ops| && k < |f|
    requires Meets(fate, k, f, d, n, f', d', n') && (r.offline ==> fate.Waits?)
    ensures Books(ops, i + 1, fates + [fate], f', if fate.Retry? || fate.Waits? then k + 1 else k,
                  d', b, n', t, Tally(r, fate))
    ensures d'[..b] == d[..b] && n'[..t] == n[..t]
  {
    assert f[k] == f[k..][0] == ops[i];
    assert ops[..i + 1] == ops[..i] + [ops[i]];
    MeetsSettles(ops[..i], fates, f, d, n, k, b, ops[i], fate, f', d', n');
    MeetsTails(ops, i, fate, k, f, d, n, t, f', d', n');
    CountNext(fates, fate, Sent);
    CountNext(fates, fate, Buried);
    CountNext(fates, fate, Retry);
    CountNext(fates, fate, Waits);
    assert f[k + 1..] == f[k..][1..] && ops[i + 1..] == ops[i..][1..];
    assert r.offline ==> i > 0 && fates[i - 1].Waits?;
  }

  /** Checkpoints written before do not matter to the fate. */
  lemma MeetsAfter(fate: Fate, k: nat, f: seq<StoredOp>, g: seq<StoredOp>, d: seq<StoredOp>, n: seq<StoredOp>,
                   f': seq<StoredOp>, d': seq<StoredOp>, n': seq<StoredOp>)
    requires k < |f| == |g| && g == f[k := g[k]] && SameFile(f[k], g[k])
    requires Meets(fate, k, g, d, n, f', d', n')
    ensures Meets(fate, k, f, d, n, f', d', n')
  {
  }

  lemma EvolvesChains(u: World, v: World, w: World)
    requires Evolves(u, v) && Evolves(v, w)
    ensures Evolves(u, w)
  {
  }

  /** Only a pull-request op that is no tail itself leaves a tail. */
  ghost predicate LeavesTail(s: StoredOp, tail: StoredOp) {
    && s.op.Pr? && !s.op.finalizeOnly
    && tail.attempts == 0 && tail.op.Pr? && tail.op.finalizeOnly
  }

  /** A push may as well come before everything queued. */
  lemma {:induction false} PushFoldsThrough(trigger: string, ops: seq<Op>, ref: Ref, w: World)
    ensures Fold(trigger, ops, PushRef(w, ref)) == PushRef(Fold(trigger, ops, w), ref)
  {
    if ops != [] {
      PushCommutes(trigger, ops[0], ref, w);
      PushFoldsThrough(trigger, ops[1..], ref, Apply(trigger, ops[0], w));
    }
  }

  lemma PushCommutes(trigger: string, op: Op, ref: Ref, w: World)
    ensures Apply(trigger, op, PushRef(w, ref)) == PushRef(Apply(trigger, op, w), ref)
  {
    match op
    case Labels(issue, add, remove) =>
    case Post(issue, text) =>
    case Push(other) => PushesCommute(other, ref, w);
    case Pr(_, _, _, _, _, _, _, _) => PushCommutesWithPr(trigger, op, ref, w);
    case IssueCreate(finding, labels) =>
    case Unknown =>
  }

  lemma PushesCommute(p: Ref, q: Ref, w: World)
    ensures PushRef(PushRef(w, p), q) == PushRef(PushRef(w, q), p)
  {
  }

  lemma PushCommutesWithTelling(trigger: string, op: Op, url: Url, ref: Ref, w: World)
    requires Finalizes(op)
    ensures Told(trigger, op, url, PushRef(w, ref)) == PushRef(Told(trigger, op, url, w), ref)
  {
    ToldEffects(trigger, op, url, w);
    ToldEffects(trigger, op, url, PushRef(w, ref));
  }

  lemma PushCommutesWithOpening(op: Op, ref: Ref, w: World)
    requires op.Pr?
    ensures WithPr(op, PushRef(w, ref)) == PushRef(WithPr(op, w), ref)
  {
    LinkedEffects(op, w);
    LinkedEffects(op, PushRef(w, ref));
  }

  lemma PushCommutesWithPr(trigger: string, op: Op, ref: Ref, w: World)
    requires op.Pr?
    ensures ApplyPr(trigger, op, PushRef(w, ref)) == PushRef(ApplyPr(trigger, op, w), ref)
  {
    PushCommutesWithOpening(op, ref, w);
    if Finalizes(op) {
      PushCommutesWithTelling(trigger, op, WithPr(op, w).prs[op.head], ref, WithPr(op, w));
    }
  }

  /** An op queued after its push went through promises what it promises anyway. */
  lemma EnqueuedPromise(trigger: string, q: seq<Op>, op: Op, w: World)
    ensures Fold(trigger, q + [op], w) == Apply(trigger, op, Fold(trigger, q, w))
    ensures op.Pr? ==> Fold(trigger, q + [op], PushRef(w, op.ref)) == Apply(trigger, op, Fold(trigger, q, w))
  {
    FoldAppend(trigger, q, [op], w);
    if op.Pr? {
      FoldAppend(trigger, q, [op], PushRef(w, op.ref));
      PushFoldsThrough(trigger, q, op.ref, w);
      PushIsPartOfPr(trigger, op, Fold(trigger, q, w));
    }
  }

  /** On files; the push has gone through before the op is queued. */
  lemma PromiseGrows(trigger: string, fs: seq<StoredOp>, s: StoredOp, u: World, w: World)
    requires w == if s.op.Pr? && s.op.pushed then PushRef(u, s.op.ref) else u
    ensures Carried(trigger, fs + [s], w) == Apply(trigger, s.op, Carried(trigger, fs, u))
  {
    assert OpsOf(fs + [s]) == OpsOf(fs) + [s.op];
    EnqueuedPromise(trigger, OpsOf(fs), s.op, u);
  }
}
