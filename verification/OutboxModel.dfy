/** The outbox: queued GitHub side effects, the outside world they act on, and
    what it means to carry each of them out exactly once. */
module OutboxModel {
  import opened Wrappers

  datatype Issue = Issue(nwo: string, number: int)

  /** What a push moves: a branch of a clone, to a remote. */
  datatype Ref = Ref(repoPath: string, remote: string, branch: string)

  /** What identifies a pull request: target repository and head. */
  datatype Head = Head(nwo: string, name: string)

  /** The n-th pull request ever opened has URL n. */
  type Url = nat

  /** Comment text; a finalize comment names the pull request it follows. */
  datatype Body = Plain(text: string) | Opened(url: Url, text: string)

  /** The content-derived idempotency key; the hash is injective, so the key is
      the content itself. */
  datatype Key = Key(issue: Issue, body: Body)

  datatype Comment = Comment(own: bool, key: Key)

  datatype Finding = Finding(nwo: string, fingerprint: string)

  datatype Finalize = Finalize(status: string, text: string)

  datatype Op =
    | Labels(issue: Issue, add: set<string>, remove: set<string>)
    | Post(issue: Issue, text: string)
    | Push(ref: Ref)
    | Pr(ref: Ref, head: Head, target: Option<Issue>, finalize: Option<Finalize>, ticket: Option<string>,
         pushed: bool, prUrl: Option<Url>, finalizeOnly: bool)
    | IssueCreate(finding: Finding, labels: seq<string>)
    | Unknown

  /** One file of the outbox. */
  datatype StoredOp = StoredOp(id: nat, attempts: nat, op: Op)

  /** Result block of a finished ticket: waiting for its PR, linked to it, or neither. */
  datatype DoneTicket = Waiting | Linked(url: Url) | Cleared

  /** Everything an op can change besides the outbox itself. */
  datatype World = World(
    labels: map<Issue, set<string>>,
    comments: multiset<Comment>,
    issues: multiset<Finding>,
    issueLabels: map<Finding, set<string>>,
    repoLabels: set<(string, string)>,
    branches: set<Ref>,
    prs: map<Head, Url>,
    prCount: nat,
    done: map<string, DoneTicket>
  )

  const TERMINAL_DONE := {"completed", "completed_no_changes", "aborted_partial", "timeout_partial"}

  function FinalLabel(trigger: string, status: string): string {
    trigger + if status in TERMINAL_DONE then ":done" else ":failed"
  }

  function WorkingLabel(trigger: string): string {
    trigger + ":working"
  }

  // ------------------------------------------------------------ single effects

  function LabelsOf(labels: map<Issue, set<string>>, issue: Issue): set<string> {
    if issue in labels then labels[issue] else {}
  }

  function Edit(w: World, issue: Issue, add: set<string>, remove: set<string>): World {
    w.(labels := w.labels[issue := LabelsOf(w.labels, issue) + add - remove])
  }

  predicate Delivered(w: World, key: Key) {
    Comment(true, key) in w.comments
  }

  function AddComment(w: World, key: Key): World {
    w.(comments := w.comments + multiset{Comment(true, key)})
  }

  function PushRef(w: World, ref: Ref): World {
    w.(branches := w.branches + {ref})
  }

  /** GitHub keeps at most one open pull request per head. */
  function OpenPr(w: World, head: Head): World {
    if head in w.prs then w else w.(prs := w.prs[head := w.prCount], prCount := w.prCount + 1)
  }

  function LinkDone(w: World, ticket: Option<string>, url: Url): World {
    if ticket.Some? && ticket.value in w.done then w.(done := w.done[ticket.value := Linked(url)]) else w
  }

  function EnsureLabel(w: World, nwo: string, name: string): World {
    w.(repoLabels := w.repoLabels + {(nwo, name)})
  }

  /** An issue is created with its labels. */
  function AddIssue(w: World, f: Finding, labels: seq<string>): World {
    w.(issues := w.issues + multiset{f}, issueLabels := w.issueLabels[f := set l | l in labels])
  }

  // ------------------------------------------------------------ ideal delivery

  function PostOnce(w: World, key: Key): World {
    if Delivered(w, key) then w else AddComment(w, key)
  }

  function AddIssueOnce(w: World, f: Finding, labels: seq<string>): World {
    if f in w.issues then w else AddIssue(w, f, labels)
  }

  function EnsureLabels(w: World, nwo: string, labels: seq<string>): World {
    w.(repoLabels := w.repoLabels + set l | l in labels :: (nwo, l))
  }

  /** The issue is told about the pull request: a comment, then the label flip. */
  predicate Finalizes(op: Op) {
    op.Pr? && op.finalize.Some? && op.target.Some?
  }

  function FinalKey(op: Op, url: Url): Key
    requires Finalizes(op)
  {
    Key(op.target.value, Opened(url, op.finalize.value.text))
  }

  function FinalEdit(trigger: string, op: Op, w: World): World
    requires Finalizes(op)
  {
    Edit(w, op.target.value, {FinalLabel(trigger, op.finalize.value.status)}, {WorkingLabel(trigger)})
  }

  /** The pull request is there and the finished ticket knows it. */
  function WithPr(op: Op, w: World): World
    requires op.Pr?
  {
    var open := OpenPr(PushRef(w, op.ref), op.head);
    LinkDone(open, op.ticket, open.prs[op.head])
  }

  /** The issue is told. */
  function Told(trigger: string, op: Op, url: Url, w: World): World
    requires Finalizes(op)
  {
    FinalEdit(trigger, op, PostOnce(w, FinalKey(op, url)))
  }

  function ApplyPr(trigger: string, op: Op, w: World): World
    requires op.Pr?
  {
    var linked := WithPr(op, w);
    if Finalizes(op) then Told(trigger, op, linked.prs[op.head], linked) else linked
  }

  /** The world after carrying out `op` completely, exactly once, on a perfect
      network. Neither checkpoints nor attempts play a part. */
  function Apply(trigger: string, op: Op, w: World): World {
    match op
    case Labels(issue, add, remove) => if add == {} && remove == {} then w else Edit(w, issue, add, remove)
    case Post(issue, text) => PostOnce(w, Key(issue, Plain(text)))
    case Push(ref) => PushRef(w, ref)
    case Pr(_, _, _, _, _, _, _, _) => ApplyPr(trigger, op, w)
    case IssueCreate(finding, labels) => AddIssueOnce(EnsureLabels(w, finding.nwo, labels), finding, labels)
    case Unknown => w
  }

  lemma LinkedEffects(op: Op, w: World)
    requires op.Pr?
    ensures WithPr(op, w)
         == w.(branches := w.branches + {op.ref}, prs := OpenPr(w, op.head).prs, prCount := OpenPr(w, op.head).prCount,
               done := LinkDone(w, op.ticket, OpenPr(w, op.head).prs[op.head]).done)
  {
  }

  lemma DoneEffects(ticket: Option<string>, url: Url, w: World)
    ensures LinkDone(w, ticket, url).done.Keys == w.done.Keys
    ensures forall t | t in w.done ::
              LinkDone(w, ticket, url).done[t] == if ticket == Some(t) then Linked(url) else w.done[t]
  {
  }

  lemma ToldEffects(trigger: string, op: Op, url: Url, w: World)
    requires Finalizes(op)
    ensures Told(trigger, op, url, w)
         == w.(comments := PostOnce(w, FinalKey(op, url)).comments, labels := FinalEdit(trigger, op, w).labels)
  {
  }

  /** What a pull-request op amounts to, field by field. */
  lemma PrEffects(trigger: string, op: Op, w: World)
    requires op.Pr?
    ensures ApplyPr(trigger, op, w).prs == OpenPr(w, op.head).prs
    ensures ApplyPr(trigger, op, w).prCount == OpenPr(w, op.head).prCount
    ensures ApplyPr(trigger, op, w).comments
         == (if Finalizes(op) then PostOnce(w, FinalKey(op, ApplyPr(trigger, op, w).prs[op.head])) else w).comments
    ensures ApplyPr(trigger, op, w).labels == (if Finalizes(op) then FinalEdit(trigger, op, w) else w).labels
    ensures ApplyPr(trigger, op, w).branches == w.branches + {op.ref}
    ensures ApplyPr(trigger, op, w).done.Keys == w.done.Keys
    ensures forall t | t in w.done ::
              ApplyPr(trigger, op, w).done[t]
              == if op.ticket == Some(t) then Linked(ApplyPr(trigger, op, w).prs[op.head]) else w.done[t]
    ensures ApplyPr(trigger, op, w).issues == w.issues && ApplyPr(trigger, op, w).issueLabels == w.issueLabels
    ensures ApplyPr(trigger, op, w).repoLabels == w.repoLabels
  {
    LinkedEffects(op, w);
    DoneEffects(op.ticket, OpenPr(w, op.head).prs[op.head], w);
    if Finalizes(op) {
      ToldEffects(trigger, op, OpenPr(w, op.head).prs[op.head], WithPr(op, w));
    }
  }

  // Every part of a pull-request op may be done early: what it amounts to stays.

  lemma PushIsPartOfPr(trigger: string, op: Op, w: World)
    requires op.Pr?
    ensures ApplyPr(trigger, op, PushRef(w, op.ref)) == ApplyPr(trigger, op, w)
  {
  }

  lemma OpenIsPartOfPr(trigger: string, op: Op, w: World)
    requires op.Pr?
    ensures ApplyPr(trigger, op, OpenPr(w, op.head)) == ApplyPr(trigger, op, w)
  {
    assert OpenPr(PushRef(OpenPr(w, op.head), op.ref), op.head) == OpenPr(PushRef(w, op.ref), op.head);
  }

  lemma LinkIsPartOfPr(trigger: string, op: Op, w: World)
    requires op.Pr? && op.head in w.prs
    ensures ApplyPr(trigger, op, LinkDone(w, op.ticket, w.prs[op.head])) == ApplyPr(trigger, op, w)
  {
    var v := LinkDone(w, op.ticket, w.prs[op.head]);
    assert LinkDone(PushRef(v, op.ref), op.ticket, w.prs[op.head])
        == LinkDone(PushRef(w, op.ref), op.ticket, w.prs[op.head]);
  }

  lemma CommentIsPartOfPr(trigger: string, op: Op, w: World)
    requires Finalizes(op) && op.head in w.prs
    ensures ApplyPr(trigger, op, PostOnce(w, FinalKey(op, w.prs[op.head]))) == ApplyPr(trigger, op, w)
  {
  }

  lemma FlipIsPartOfPr(trigger: string, op: Op, w: World)
    requires Finalizes(op) && op.head in w.prs
    ensures ApplyPr(trigger, op, FinalEdit(trigger, op, w)) == ApplyPr(trigger, op, w)
  {
    EditTwice(w, op.target.value, {FinalLabel(trigger, op.finalize.value.status)}, {WorkingLabel(trigger)});
  }

  lemma EditTwice(w: World, issue: Issue, add: set<string>, remove: set<string>)
    ensures Edit(Edit(w, issue, add, remove), issue, add, remove) == Edit(w, issue, add, remove)
  {
    assert LabelsOf(w.labels, issue) + add - remove + add - remove == LabelsOf(w.labels, issue) + add - remove;
  }

  /** All of `ops`, in order, each exactly once. */
  function Fold(trigger: string, ops: seq<Op>, w: World): World {
    if ops == [] then w else Fold(trigger, ops[1..], Apply(trigger, ops[0], w))
  }

  lemma {:induction false} FoldAppend(trigger: string, a: seq<Op>, b: seq<Op>, w: World)
    ensures Fold(trigger, a + b, w) == Fold(trigger, b, Fold(trigger, a, w))
  {
    if a == [] {
      assert a + b == b;
    } else {
      FoldAppend(trigger, a[1..], b, Apply(trigger, a[0], w));
      assert (a + b)[1..] == a[1..] + b;
    }
  }

  /** Doing it again changes nothing. */
  lemma ApplyIsIdempotent(trigger: string, op: Op, w: World)
    ensures Apply(trigger, op, Apply(trigger, op, w)) == Apply(trigger, op, w)
  {
    match op
    case Labels(issue, add, remove) =>
      EditTwice(w, issue, add, remove);
    case Pr(_, _, _, _, _, _, _, _) =>
      PrIsIdempotent(trigger, op, w);
    case _ =>
  }

  /** Everything up to the link of the finished ticket. */
  lemma LinkedIsPartOfPr(trigger: string, op: Op, w: World)
    requires op.Pr?
    ensures var open := OpenPr(PushRef(w, op.ref), op.head);
            ApplyPr(trigger, op, LinkDone(open, op.ticket, open.prs[op.head])) == ApplyPr(trigger, op, w)
  {
    PushIsPartOfPr(trigger, op, w);
    OpenIsPartOfPr(trigger, op, PushRef(w, op.ref));
    LinkIsPartOfPr(trigger, op, OpenPr(PushRef(w, op.ref), op.head));
  }

  lemma ToldIsPartOfPr(trigger: string, op: Op, w: World)
    requires Finalizes(op) && op.head in w.prs
    ensures ApplyPr(trigger, op, FinalEdit(trigger, op, PostOnce(w, FinalKey(op, w.prs[op.head]))))
         == ApplyPr(trigger, op, w)
  {
    CommentIsPartOfPr(trigger, op, w);
    FlipIsPartOfPr(trigger, op, PostOnce(w, FinalKey(op, w.prs[op.head])));
  }

  lemma PrIsIdempotent(trigger: string, op: Op, w: World)
    requires op.Pr?
    ensures ApplyPr(trigger, op, ApplyPr(trigger, op, w)) == ApplyPr(trigger, op, w)
  {
    var open := OpenPr(PushRef(w, op.ref), op.head);
    var linked := LinkDone(open, op.ticket, open.prs[op.head]);
    LinkedIsPartOfPr(trigger, op, w);
    if Finalizes(op) {
      ToldIsPartOfPr(trigger, op, linked);
    }
  }
}
