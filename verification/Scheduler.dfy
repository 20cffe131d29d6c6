/** The concurrent scheduler: bounded slots, one ticket per repository, claims that
    complete while tickets settle, and a drain at the end. */
module Scheduler {
  import opened Wrappers

  /** How a claim ends: nothing to do, a ticket (not every ticket has a
      repository), or an error. */
  datatype Claimed = Nothing | Work(repo: Option<string>) | Broken

  /** What happens while the scheduler waits: tickets settle, a stop is requested. */
  datatype Pause = Pause(settles: set<nat>, stop: bool)

  /** A claim looks at the busy repositories at some moment; things go on before
      and after. */
  datatype ClaimRun = ClaimRun(before: Pause, result: Claimed, after: Pause)

  /** What starts at an instant: nothing, a claim, or the wait for the next round,
      after a claim that brought nothing or not. */
  datatype Act = Going | Claims | Sleeps(dry: bool)

  /** One instant: what is in flight, what counts as busy, whether a stop was
      requested, and what starts now. */
  datatype Moment = Moment(inflight: map<nat, Option<string>>, busy: set<string>, stopped: bool, act: Act)

  /** What the claim of one tick brought, and the instant at which it looked at the
      queue. */
  datatype Answer = Answer(at: nat, got: Claimed, look: nat)

  /** Of what the queue has to offer, a claim gets what is of no busy repository. */
  function Offered(result: Claimed, busy: set<string>): Claimed {
    if result.Work? && result.repo.Some? && result.repo.value in busy then Nothing else result
  }

  function Keys(inflight: map<nat, Option<string>>): set<string> {
    set t | t in inflight && inflight[t].Some? :: inflight[t].value
  }

  ghost predicate Exclusive(inflight: map<nat, Option<string>>) {
    forall t, u | t in inflight && u in inflight && t != u && inflight[t].Some? :: inflight[t] != inflight[u]
  }

  ghost predicate Sound(m: Moment, slots: nat) {
    && |m.inflight| <= slots && Exclusive(m.inflight) && m.busy == Keys(m.inflight)
    && (m.act.Claims? ==> !m.stopped && |m.inflight| < slots)
    && (m.act.Sleeps? ==> m.act.dry || m.stopped || |m.inflight| == slots)
  }

  /** Of some claims, the repositories of the tickets they brought, in order, and how
      many brought nothing. */
  function Repos(answers: seq<Answer>): seq<Option<string>> {
    if answers == [] then []
    else
      var got := answers[|answers| - 1].got;
      Repos(answers[..|answers| - 1]) + if got.Work? then [got.repo] else []
  }

  function Nothings(answers: seq<Answer>): nat {
    if answers == [] then 0
    else Nothings(answers[..|answers| - 1]) + if answers[|answers| - 1].got.Nothing? then 1 else 0
  }

  lemma OneMoreAnswer(answers: seq<Answer>, c: Answer)
    ensures Repos(answers + [c]) == Repos(answers) + if c.got.Work? then [c.got.repo] else []
    ensures Nothings(answers + [c]) == Nothings(answers) + if c.got.Nothing? then 1 else 0
  {
  }

  /** Each ticket in flight is so under its repository. */
  ghost predicate FliesAs(inflight: map<nat, Option<string>>, repos: seq<Option<string>>) {
    forall t | t in inflight :: t < |repos| && inflight[t] == repos[t]
  }

  ghost predicate Flew(trace: seq<Moment>, t: nat) {
    exists m :: m in trace && t in m.inflight
  }

  /** At every instant the tickets fly under their repositories, and each ticket is in
      flight at some instant. */
  ghost predicate Flown(trace: seq<Moment>, repos: seq<Option<string>>) {
    && (forall m | m in trace :: FliesAs(m.inflight, repos))
    && (forall t: nat | t < |repos| :: Flew(trace, t))
  }

  lemma FlownNext(trace: seq<Moment>, repos: seq<Option<string>>, m: Moment, repos': seq<Option<string>>)
    requires Flown(trace, repos) && FliesAs(m.inflight, repos') && repos <= repos'
    requires |repos'| == |repos| || (|repos'| == |repos| + 1 && |repos| in m.inflight)
    ensures Flown(trace + [m], repos')
  {
    forall n | n in trace + [m] ensures FliesAs(n.inflight, repos') {
      assert n in trace || n == m;
    }
    forall t: nat | t < |repos'| ensures Flew(trace + [m], t) {
      if t < |repos| {
        assert Flew(trace, t);
        var n :| n in trace && t in n.inflight;
        assert n in trace + [m];
      } else {
        assert m in trace + [m];
      }
    }
  }

  /** How often something started. */
  function Count(trace: seq<Moment>, act: Act): nat {
    if trace == [] then 0
    else Count(trace[..|trace| - 1], act) + if trace[|trace| - 1].act == act then 1 else 0
  }

  lemma OneMoreMoment(trace: seq<Moment>, m: Moment, act: Act)
    ensures Count(trace + [m], act) == Count(trace, act) + if m.act == act then 1 else 0
  {
  }

  /** The same claims and sleeps have started. */
  ghost predicate NothingStarted(before: seq<Moment>, after: seq<Moment>) {
    && before <= after
    && Count(after, Claims) == Count(before, Claims)
    && Count(after, Sleeps(true)) == Count(before, Sleeps(true))
    && Count(after, Sleeps(false)) == Count(before, Sleeps(false))
  }

  /** A stop request is never taken back. */
  ghost predicate Latched(trace: seq<Moment>) {
    forall i, j | 0 <= i < j < |trace| && trace[i].stopped :: trace[j].stopped
  }

  /** One claim has started, no sleep. */
  ghost predicate OneClaim(before: seq<Moment>, after: seq<Moment>) {
    && before <= after
    && Count(after, Claims) == Count(before, Claims) + 1
    && Count(after, Sleeps(true)) == Count(before, Sleeps(true))
    && Count(after, Sleeps(false)) == Count(before, Sleeps(false))
  }

  lemma ThenNothing(before: seq<Moment>, asked: seq<Moment>, after: seq<Moment>)
    requires OneClaim(before, asked) && NothingStarted(asked, after)
    ensures OneClaim(before, after)
  {
  }

  /** One sleep has started, no claim. */
  ghost predicate OneSleep(before: seq<Moment>, after: seq<Moment>, dry: bool) {
    && before <= after
    && Count(after, Claims) == Count(before, Claims)
    && Count(after, Sleeps(dry)) == Count(before, Sleeps(dry)) + 1
    && Count(after, Sleeps(!dry)) == Count(before, Sleeps(!dry))
  }

  lemma ThenStillNothing(before: seq<Moment>, asleep: seq<Moment>, after: seq<Moment>, dry: bool)
    requires OneSleep(before, asleep, dry) && NothingStarted(asleep, after)
    ensures OneSleep(before, after, dry)
  {
  }

  lemma SettleFreesItsRepo(inflight: map<nat, Option<string>>, t: nat)
    requires Exclusive(inflight) && t in inflight
    ensures Exclusive((inflight - {t})) && |(inflight - {t})| == |inflight| - 1
    ensures Keys((inflight - {t}))
         == if inflight[t].Some? then Keys(inflight) - {inflight[t].value} else Keys(inflight)
  {
    assert (inflight - {t}).Keys == inflight.Keys - {t};
    assert |(inflight - {t}).Keys| == |(inflight - {t})| && |inflight.Keys| == |inflight|;
    forall k ensures k in Keys((inflight - {t})) <==>
                     k in Keys(inflight) && !(inflight[t].Some? && inflight[t].value == k)
    {
      if k in Keys(inflight) {
        var u :| u in inflight && inflight[u] == Some(k);
        assert u != t ==> u in (inflight - {t}) && (inflight - {t})[u] == Some(k);
      }
    }
  }

  lemma MinusOneMore(m: map<nat, Option<string>>, ts: set<nat>, todo: set<nat>, t: nat)
    requires t in todo && todo <= ts
    ensures m - (ts - todo) - {t} == m - (ts - (todo - {t}))
  {
  }

  lemma LaunchTakesItsRepo(inflight: map<nat, Option<string>>, t: nat, repo: Option<string>)
    requires Exclusive(inflight) && t !in inflight && (repo.Some? ==> repo.value !in Keys(inflight))
    ensures Exclusive(inflight[t := repo]) && |inflight[t := repo]| == |inflight| + 1
    ensures Keys(inflight[t := repo]) == if repo.Some? then Keys(inflight) + {repo.value} else Keys(inflight)
  {
    var next := inflight[t := repo];
    forall k ensures k in Keys(next) <==> k in Keys(inflight) || repo == Some(k) {
      if k in Keys(inflight) {
        var u :| u in inflight && inflight[u] == Some(k);
        assert u in next && next[u] == Some(k);
      }
      if repo == Some(k) {
        assert t in next && next[t] == Some(k);
      }
    }
    assert forall u | u in inflight && inflight[u].Some? :: inflight[u].value in Keys(inflight);
  }

  class Scheduler {
    const slots: nat
    const once: bool
    /** The environment: what each claim and each sleep brings. */
    const claims: nat -> ClaimRun
    const sleeps: nat -> Pause

    var inflight: map<nat, Option<string>>
    var busyRepos: set<string>
    var stopped: bool
    var tick: nat
    var started: nat
    ghost var trace: seq<Moment>
    /** The repository of each ticket started. */
    ghost var repos: seq<Option<string>>
    /** What the claims brought. */
    ghost var answers: seq<Answer>

    constructor (slots: nat, once: bool, claims: nat -> ClaimRun, sleeps: nat -> Pause, stopped: bool)
      ensures Valid() && inflight == map[] && trace == [] && answers == [] && started == tick == 0
      ensures this.slots == slots && this.once == once && this.claims == claims && this.sleeps == sleeps
      ensures this.stopped == stopped
    {
      this.slots, this.once, this.claims, this.sleeps := slots, once, claims, sleeps;
      this.stopped := stopped;
      inflight, busyRepos, tick, started, trace, repos, answers := map[], {}, 0, 0, [], [], [];
    }

    /** Slots, repositories and the stop are respected, now and at every instant. */
    ghost predicate Steady()
      reads this
    {
      && Sound(Moment(inflight, busyRepos, stopped, Going), slots)
      && (forall m | m in trace :: Sound(m, slots)) && Latched(trace)
      && (forall m | m in trace && m.stopped :: stopped)
    }

    ghost predicate Valid()
      reads this
    {
      Steady() && started == |repos| && FliesAs(inflight, repos) && Flown(trace, repos)
    }

    /** The answer is what the queue offered at that instant. */
    ghost predicate Honest(a: Answer, trace: seq<Moment>) {
      a.look < |trace| && a.got == Offered(claims(a.at).result, trace[a.look].busy)
    }

    /** The books: every claim that started has an answer, every answer is that of
        its own tick, a sleep counts as dry only after an answer that was nothing, and
        ticks are claims and sleeps. */
    ghost predicate Booked()
      reads this
    {
      && Count(trace, Claims) == |answers|
      && Count(trace, Sleeps(true)) <= Nothings(answers)
      && tick == |answers| + Count(trace, Sleeps(true)) + Count(trace, Sleeps(false))
      && Answered(answers, tick, trace, |trace|)
    }

    /** Every ticket is started, under the repository its claim brought. */
    ghost predicate Tallied()
      reads this
    {
      Booked() && repos == Repos(answers)
    }

    /** Answers of ticks in ascending order before `tick`, looked up in ascending order
        before the instant `upTo`. */
    ghost predicate Answered(answers: seq<Answer>, tick: nat, trace: seq<Moment>, upTo: nat) {
      answers == []
      || (var a := answers[|answers| - 1];
          Honest(a, trace) && a.at < tick && a.look < upTo && Answered(answers[..|answers| - 1], a.at, trace, a.look))
    }

    lemma {:induction false} AnsweredStays(answers: seq<Answer>, tick: nat, trace: seq<Moment>, upTo: nat,
                                           tick': nat, trace': seq<Moment>, upTo': nat)
      requires Answered(answers, tick, trace, upTo) && tick <= tick' && upTo <= upTo' && trace <= trace'
      ensures Answered(answers, tick', trace', upTo')
    {
      if answers != [] {
        var a := answers[|answers| - 1];
        AnsweredStays(answers[..|answers| - 1], a.at, trace, a.look, a.at, trace', a.look);
      }
    }

    ghost method Observe(act: Act)
      requires Steady() && Sound(Moment(inflight, busyRepos, stopped, act), slots)
      modifies `trace
      ensures Steady() && (old(Valid()) ==> Valid())
      ensures trace == old(trace) + [Moment(inflight, busyRepos, stopped, act)]
      ensures Count(trace, Claims) == Count(old(trace), Claims) + if act == Claims then 1 else 0
      ensures Count(trace, Sleeps(true)) == Count(old(trace), Sleeps(true)) + if act == Sleeps(true) then 1 else 0
      ensures Count(trace, Sleeps(false)) == Count(old(trace), Sleeps(false)) + if act == Sleeps(false) then 1 else 0
    {
      OneMoreMoment(trace, Moment(inflight, busyRepos, stopped, act), Claims);
      OneMoreMoment(trace, Moment(inflight, busyRepos, stopped, act), Sleeps(true));
      OneMoreMoment(trace, Moment(inflight, busyRepos, stopped, act), Sleeps(false));
      if Valid() {
        FlownNext(trace, repos, Moment(inflight, busyRepos, stopped, act), repos);
      }
      trace := trace + [Moment(inflight, busyRepos, stopped, act)];
    }

    /** The end of one execution. */
    method Settle(t: nat)
      requires Valid() && t in inflight
      modifies `inflight, `busyRepos, `trace
      ensures Valid() && inflight == old(inflight) - {t}
      ensures NothingStarted(old(trace), trace) && busyRepos <= old(busyRepos)
    {
      SettleFreesItsRepo(inflight, t);
      if inflight[t].Some? {
        busyRepos := busyRepos - {inflight[t].value};
      }
      inflight := inflight - {t};
      Observe(Going);
    }

    method SettleAll(ts: set<nat>)
      requires Valid()
      modifies `inflight, `busyRepos, `trace
      ensures Valid() && inflight == old(inflight) - ts
      ensures busyRepos <= old(busyRepos) && NothingStarted(old(trace), trace)
    {
      var todo := set t | t in ts && t in inflight;
      while todo != {}
        invariant Valid() && NothingStarted(old(trace), trace) && busyRepos <= old(busyRepos)
        invariant todo <= inflight.Keys && todo <= ts
        invariant inflight == old(inflight) - (ts - todo)
      {
        var t :| t in todo;
        MinusOneMore(old(inflight), ts, todo, t);
        todo := todo - {t};
        Settle(t);
      }
    }

    method Wait(p: Pause)
      requires Valid()
      modifies `inflight, `busyRepos, `stopped, `trace
      ensures Valid() && stopped == (old(stopped) || p.stop)
      ensures inflight == old(inflight) - p.settles
      ensures busyRepos <= old(busyRepos) && NothingStarted(old(trace), trace) && |inflight| <= |old(inflight)|
    {
      SettleAll(p.settles);
      Smaller(inflight, old(inflight));
      if p.stop {
        stopped := true;
        Observe(Going);
      }
    }

    /** The claim starts and looks at the queue. */
    method StartClaim(p: Pause) returns (ghost look: nat)
      requires Valid() && !stopped && |inflight| < slots
      modifies `inflight, `busyRepos, `stopped, `trace
      ensures Valid() && busyRepos <= old(busyRepos) && OneClaim(old(trace), trace)
      ensures |old(trace)| <= look < |trace| && trace[look].busy == busyRepos
      ensures inflight == old(inflight) - p.settles && |inflight| <= |old(inflight)| && stopped == p.stop
    {
      Observe(Claims);
      ghost var asked := trace;
      Wait(p);
      look := |trace|;
      Observe(Going);
      ThenNothing(old(trace), asked, trace);
    }

    /** The claim as seen from the queue. */
    method Look(c: ClaimRun) returns (work: Claimed, ghost look: nat)
      requires Valid() && !stopped && |inflight| < slots
      modifies `inflight, `busyRepos, `stopped, `trace
      ensures Valid() && busyRepos <= old(busyRepos) && OneClaim(old(trace), trace)
      ensures |old(trace)| <= look < |trace| && work == Offered(c.result, trace[look].busy)
      ensures inflight == old(inflight) - c.before.settles - c.after.settles && |inflight| <= |old(inflight)|
      ensures stopped == (c.before.stop || c.after.stop)
      ensures work.Work? && work.repo.Some? ==> work.repo.value !in busyRepos
    {
      look := StartClaim(c.before);
      ghost var asked := trace;
      work := Offered(c.result, busyRepos);
      Wait(c.after);
      ThenNothing(old(trace), asked, trace);
    }

    lemma AnsweredNext(answers: seq<Answer>, tick: nat, trace: seq<Moment>, got: Claimed, look: nat,
                       trace': seq<Moment>)
      requires Answered(answers, tick, trace, |trace|) && trace <= trace'
      requires Honest(Answer(tick, got, look), trace') && |trace| <= look
      ensures Answered(answers + [Answer(tick, got, look)], tick + 1, trace', |trace'|)
    {
      AnsweredStays(answers, tick, trace, |trace|, tick, trace', look);
      assert (answers + [Answer(tick, got, look)])[..|answers|] == answers;
    }

    /** A claim never returns a ticket of a repository it saw busy; the set it was
        given only shrinks until it returns. */
    method Claim() returns (work: Claimed, ghost look: nat)
      requires Valid() && Booked() && !stopped && |inflight| < slots
      modifies `inflight, `busyRepos, `stopped, `trace, `tick, `answers
      ensures Valid() && Booked() && busyRepos <= old(busyRepos) && OneClaim(old(trace), trace)
      ensures answers == old(answers) + [Answer(old(tick), work, look)] && Honest(Answer(old(tick), work, look), trace)
      ensures Repos(answers) == Repos(old(answers)) + if work.Work? then [work.repo] else []
      ensures Nothings(answers) == Nothings(old(answers)) + if work.Nothing? then 1 else 0
      ensures |old(trace)| <= look && tick == old(tick) + 1
      ensures inflight == old(inflight) - claims(old(tick)).before.settles - claims(old(tick)).after.settles
      ensures stopped == (claims(old(tick)).before.stop || claims(old(tick)).after.stop)
      ensures |inflight| <= |old(inflight)|
      ensures work.Work? && work.repo.Some? ==> work.repo.value !in busyRepos
    {
      work, look := Look(claims(tick));
      OneMoreAnswer(answers, Answer(tick, work, look));
      AnsweredNext(answers, tick, old(trace), work, look, trace);
      answers := answers + [Answer(tick, work, look)];
      tick := tick + 1;
    }

    method Launch(repo: Option<string>)
      requires Valid() && |inflight| < slots && (repo.Some? ==> repo.value !in busyRepos)
      modifies `inflight, `busyRepos, `started, `repos, `trace
      ensures Valid() && inflight == old(inflight)[old(started) := repo] && started == old(started) + 1
      ensures repos == old(repos) + [repo]
      ensures NothingStarted(old(trace), trace)
    {
      LaunchTakesItsRepo(inflight, started, repo);
      if repo.Some? {
        busyRepos := busyRepos + {repo.value};
      }
      inflight := inflight[started := repo];
      FlownNext(trace, repos, Moment(inflight, busyRepos, stopped, Going), repos + [repo]);
      repos := repos + [repo];
      started := started + 1;
      Observe(Going);
    }

    /** One claim, and the start of what it brought. */
    method ClaimOne() returns (work: Claimed)
      requires Valid() && Tallied() && !stopped && |inflight| < slots
      modifies this
      ensures Valid() && Tallied() && old(trace) <= trace && tick == old(tick) + 1
      ensures |answers| == |old(answers)| + 1 && old(answers) <= answers && answers[|old(answers)|].got == work
      ensures repos == old(repos) + if work.Work? then [work.repo] else []
      ensures Nothings(answers) == old(Nothings(answers)) + if work.Nothing? then 1 else 0
      ensures Count(trace, Sleeps(true)) == old(Count(trace, Sleeps(true)))
      ensures old(inflight) == map[] && !work.Work? ==> inflight == map[]
    {
      ghost var look;
      work, look := Claim();
      if work.Work? {
        ghost var claimed := trace;
        Launch(work.repo);
        AnsweredStays(answers, tick, claimed, |claimed|, tick, trace, |trace|);
      }
    }

    /** Tops up the slots; `dry` tells that nothing was left to claim. `left` bounds
        the awaits considered, so that every finite part of a run is covered. */
    method TopUp(left: nat) returns (claimed: nat, broken: bool, dry: bool, left': nat)
      requires Valid() && Tallied()
      modifies this
      ensures Valid() && Tallied() && old(trace) <= trace && left' <= left && tick + left' == old(tick) + left
      ensures broken ==> answers != [] && answers[|answers| - 1].got.Broken?
      ensures dry ==> answers != [] && answers[|answers| - 1].got.Nothing?
      ensures dry ==> Count(trace, Sleeps(true)) < Nothings(answers)
      ensures started == old(started) + claimed && (once ==> claimed <= 1)
      ensures broken || dry || stopped || |inflight| == slots || left' == 0 || (once && claimed == 1)
      ensures old(stopped) ==> stopped && claimed == 0
      ensures old(inflight) == map[] && claimed == 0 ==> inflight == map[]
    {
      claimed, broken, dry, left' := 0, false, false, left;
      while |inflight| < slots && !stopped && left' > 0
        invariant Valid() && Tallied() && old(trace) <= trace && left' <= left && !broken && !dry
        invariant tick + left' == old(tick) + left
        invariant started == old(started) + claimed && (once ==> claimed == 0)
        invariant old(stopped) ==> stopped && claimed == 0
        invariant old(inflight) == map[] && claimed == 0 ==> inflight == map[]
        decreases left'
      {
        left' := left' - 1;
        var work := ClaimOne();
        match work {
          case Broken => return claimed, true, false, left';
          case Nothing => return claimed, false, true, left';
          case Work(_) =>
        }
        claimed := claimed + 1;
        if once { return; }
      }
    }

    /** The sleep, and what happens in the meantime. */
    method Pass(dry: bool, p: Pause)
      requires Valid() && (dry || stopped || |inflight| == slots)
      modifies `inflight, `busyRepos, `stopped, `trace
      ensures Valid() && OneSleep(old(trace), trace, dry)
      ensures inflight == old(inflight) - p.settles && stopped == (old(stopped) || p.stop)
    {
      Observe(Sleeps(dry));
      ghost var asleep := trace;
      Wait(p);
      ThenStillNothing(old(trace), asleep, trace, dry);
    }

    method Sleep(dry: bool)
      requires Valid() && Tallied() && (dry || stopped || |inflight| == slots)
      requires dry ==> Count(trace, Sleeps(true)) < Nothings(answers)
      modifies this
      ensures Valid() && Tallied() && tick == old(tick) + 1 && started == old(started) && answers == old(answers)
      ensures inflight == old(inflight) - sleeps(old(tick)).settles
      ensures stopped == (old(stopped) || sleeps(old(tick)).stop)
    {
      Pass(dry, sleeps(tick));
      AnsweredStays(answers, tick, old(trace), |old(trace)|, tick + 1, trace, |trace|);
      tick := tick + 1;
    }

    /** One round: top up, then wait, unless this was the one ticket asked for. */
    method Poll(left: nat) returns (broken: bool, breakAfterDrain: bool, left': nat)
      requires Valid() && Tallied() && (once ==> started == 0 && inflight == map[]) && left > 0
      modifies this
      ensures Valid() && Tallied() && left' <= left && tick + left' == old(tick) + left
      ensures broken ==> answers != [] && answers[|answers| - 1].got.Broken?
      ensures once && !breakAfterDrain && !broken ==> started == 0 && inflight == map[]
      ensures once ==> started <= 1
      ensures breakAfterDrain ==> once && started == 1
      ensures old(stopped) ==> stopped && started == old(started)
      ensures left' < left || broken || breakAfterDrain
    {
      var claimed, dry;
      claimed, broken, dry, left' := TopUp(left);
      breakAfterDrain := !broken && once && (claimed > 0 || inflight != map[]);
      if !broken && !breakAfterDrain && left' > 0 {
        Sleep(dry);
        left' := left' - 1;
      }
    }

    /** Waits for everything in flight. */
    method Drain()
      requires Valid() && Tallied()
      modifies `inflight, `busyRepos, `trace
      ensures Valid() && Tallied() && inflight == map[] && busyRepos == {}
    {
      SettleAll(inflight.Keys);
      AnsweredStays(answers, tick, old(trace), |old(trace)|, tick, trace, |trace|);
    }

    /** Polls until a stop, an error or, in `once` mode, the first ticket. */
    method PollAll(budget: nat) returns (broken: bool)
      requires Valid() && started == 0 && inflight == map[] && answers == [] && trace == [] && tick == 0
      modifies this
      ensures Valid() && Tallied()
      ensures broken ==> answers != [] && answers[|answers| - 1].got.Broken?
      ensures once ==> started <= 1
      ensures old(stopped) ==> started == 0
      ensures broken || stopped || tick == budget || (once && started == 1)
    {
      var left := budget;
      broken := false;
      var breakAfterDrain := false;
      while !stopped && !breakAfterDrain && !broken && left > 0
        invariant Valid() && Tallied() && tick + left == budget
        invariant broken ==> answers != [] && answers[|answers| - 1].got.Broken?
        invariant once && !breakAfterDrain && !broken ==> started == 0 && inflight == map[]
        invariant once ==> started <= 1
        invariant breakAfterDrain ==> once && started == 1
        invariant old(stopped) ==> stopped && started == 0
        decreases left, if broken || breakAfterDrain then 0 else 1
      {
        broken, breakAfterDrain, left := Poll(left);
      }
    }

    /** Polls, then waits for everything in flight. Every claim has its answer, every
        ticket claimed is started under its repository, and it sleeps only when it
        cannot claim. Whatever the environment does, at every instant the slots, the
        repositories and the stop are respected. */
    method Run(budget: nat) returns (broken: bool)
      requires Valid() && started == 0 && inflight == map[] && answers == [] && trace == [] && tick == 0
      modifies this
      ensures Valid() && inflight == map[] && busyRepos == {} && Tallied()
      ensures broken ==> answers != [] && answers[|answers| - 1].got.Broken?
      ensures (forall m | m in trace :: Sound(m, slots)) && Latched(trace) && Flown(trace, Repos(answers))
      ensures once ==> |Repos(answers)| <= 1
      ensures old(stopped) ==> Repos(answers) == []
      ensures broken || stopped || tick == budget || (once && |Repos(answers)| == 1)
    {
      broken := PollAll(budget);
      Drain();
    }
  }

  lemma Smaller(a: map<nat, Option<string>>, b: map<nat, Option<string>>)
    requires a.Keys <= b.Keys
    ensures |a| <= |b|
  {
    assert b.Keys == a.Keys + (b.Keys - a.Keys);
    assert |a| == |a.Keys| && |b| == |b.Keys|;
  }
}
