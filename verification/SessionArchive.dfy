/** Archiving an idle session while traffic goes on (src/session-archive.ts:118-207): a candidate
    test, a tar that reads the directory over time, a re-check, a delete, and only then the status
    flip. One session; any number of overlapping sweep ticks. */
module SessionArchive {
  import opened Wrappers

  type Msg = nat

  /** `silent` counts host writes that stamp no activity: routing, delivery marks and scheduled task
      rows in the inbound database, direct replies in the outbound one. */
  datatype InboundDb = InboundDb(messages: seq<Msg>, silent: nat)
  datatype OutboundDb = OutboundDb(replies: seq<Msg>, silent: nat)
  datatype Dir = Dir(inb: InboundDb, outb: OutboundDb)

  /** The archive file, as far as the tar has got. */
  datatype Tarball = Tarball(inb: Option<InboundDb>, outb: Option<OutboundDb>)

  datatype Status = Active | Archived
  datatype Container = Stopped | Running | Idle
  datatype Phase = Tarring | Cleared

  /** An archive in progress: the activity stamp its candidate row showed, and when that was. */
  datatype Job = Job(seen: Option<int>, start: int, phase: Phase)

  datatype World = World(
    clock: int,
    status: Status,
    container: Container,
    lastActive: Option<int>,
    createdAt: int,
    dir: Option<Dir>,
    tarball: Option<Tarball>,
    inProgress: bool,
    jobs: seq<Job>,
    accepted: seq<Msg>)

  function Created(now: int): World {
    World(now, Active, Stopped, None, now, Some(Dir(InboundDb([], 0), OutboundDb([], 0))), None, false, [], [])
  }

  datatype Event =
    | Tick(now: int)
    | Inbound(m: Msg)
    | SilentInbound
    | SilentOutbound
    | ContainerStarts
    | ContainerIdles
    | ContainerStops
    | Reply(m: Msg)
    | StartArchive(ttlMs: nat)
    | ReadInbound(k: nat)
    | ReadOutbound(k: nat)
    | TarFails(k: nat)
    | TarDone(k: nat)
    | Flip(k: nat)

  function Activity(seen: Option<int>, createdAt: int): int {
    if seen.Some? then seen.value else createdAt
  }

  predicate JobAt(w: World, k: nat, phase: Phase) {
    k < |w.jobs| && w.jobs[k].phase == phase
  }

  predicate Enabled(w: World, e: Event) {
    match e
    case Tick(now) => now >= w.clock
    case Inbound(_) => w.status == Active
    case ContainerIdles => w.container != Stopped
    case Reply(_) => w.container != Stopped
    case StartArchive(ttlMs) =>
      ttlMs > 0 && w.status == Active && w.container == Stopped && Activity(w.lastActive, w.createdAt) < w.clock - ttlMs
    case ReadInbound(k) => JobAt(w, k, Tarring) && w.dir.Some? && w.tarball.Some? && w.tarball.value.inb.None?
    case ReadOutbound(k) => JobAt(w, k, Tarring) && w.dir.Some? && w.tarball.Some? && w.tarball.value.outb.None?
    case TarFails(k) => JobAt(w, k, Tarring)
    case TarDone(k) =>
      JobAt(w, k, Tarring) && w.tarball.Some? && w.tarball.value.inb.Some? && w.tarball.value.outb.Some?
    case Flip(k) => JobAt(w, k, Cleared)
    case _ => true
  }

  /** The session is written, waking or not; without a directory the write throws and is refused. */
  function InboundStep(w: World, m: Msg): World {
    match w.dir
    case None => w
    case Some(d) =>
      w.(dir := Some(d.(inb := d.inb.(messages := d.inb.messages + [m]))),
         lastActive := Some(w.clock),
         accepted := w.accepted + [m])
  }

  predicate StillQuiescent(w: World, seen: Option<int>) {
    w.status == Active && w.container == Stopped && w.lastActive == seen
  }

  function EndJob(w: World, k: nat): World
    requires k < |w.jobs|
  {
    w.(inProgress := false, jobs := w.jobs[..k] + w.jobs[k + 1..])
  }

  function StartStep(w: World): World {
    if w.inProgress then w
    else if w.dir.None? then w.(inProgress := true, jobs := w.jobs + [Job(w.lastActive, w.clock, Cleared)])
    else
      w.(inProgress := true, tarball := Some(Tarball(None, None)), jobs := w.jobs + [Job(w.lastActive, w.clock, Tarring)])
  }

  function TarDoneStep(w: World, k: nat): World
    requires JobAt(w, k, Tarring)
  {
    if StillQuiescent(w, w.jobs[k].seen) then w.(dir := None, jobs := w.jobs[k := w.jobs[k].(phase := Cleared)])
    else EndJob(w.(tarball := None), k)
  }

  function Step(w: World, e: Event): World
    requires Enabled(w, e)
  {
    match e
    case Tick(now) => w.(clock := now)
    case Inbound(m) => InboundStep(w, m)
    case SilentInbound =>
      if w.dir.None? then w
      else w.(dir := Some(w.dir.value.(inb := w.dir.value.inb.(silent := w.dir.value.inb.silent + 1))))
    case SilentOutbound =>
      if w.dir.None? then w
      else w.(dir := Some(w.dir.value.(outb := w.dir.value.outb.(silent := w.dir.value.outb.silent + 1))))
    case ContainerStarts => w.(container := Running, lastActive := Some(w.clock))
    case ContainerIdles => w.(container := Idle)
    case ContainerStops => w.(container := Stopped)
    case Reply(m) =>
      if w.dir.None? then w
      else w.(dir := Some(w.dir.value.(outb := w.dir.value.outb.(replies := w.dir.value.outb.replies + [m]))))
    case StartArchive(_) => StartStep(w)
    case ReadInbound(k) => w.(tarball := Some(w.tarball.value.(inb := Some(w.dir.value.inb))))
    case ReadOutbound(k) => w.(tarball := Some(w.tarball.value.(outb := Some(w.dir.value.outb))))
    case TarFails(k) => EndJob(w, k)
    case TarDone(k) => TarDoneStep(w, k)
    case Flip(k) => EndJob(w.(status := Archived), k)
  }

  ghost predicate IsRun(states: seq<World>, events: seq<Event>) {
    && |states| == |events| + 1
    && (exists now :: states[0] == Created(now))
    && (forall i :: 0 <= i < |events| ==> Enabled(states[i], events[i]) && states[i + 1] == Step(states[i], events[i]))
  }

  // ---------------------------------------------------------------- the invariant

  /** Activity after the candidate test carries a stamp the candidate row cannot have shown. */
  ghost predicate StampsTell(w: World, job: Job) {
    && Activity(job.seen, w.createdAt) < job.start <= w.clock
    && (w.lastActive == job.seen || (w.lastActive.Some? && w.lastActive.value >= job.start))
  }

  /** While the stamp is unchanged no container ran, and what the tar has read is still there. */
  ghost predicate TarFaithful(w: World, job: Job) {
    && w.dir.Some? && w.tarball.Some?
    && (w.lastActive == job.seen ==>
          && w.container == Stopped
          && (w.tarball.value.inb.Some? ==> w.tarball.value.inb.value.messages == w.dir.value.inb.messages)
          && (w.tarball.value.outb.Some? ==> w.tarball.value.outb.value.replies == w.dir.value.outb.replies))
  }

  /** Every accepted message is in the directory or, once that is gone, in the archive. */
  ghost predicate NothingLost(w: World) {
    if w.dir.Some? then w.dir.value.inb.messages == w.accepted
    else w.tarball.Some? && w.tarball.value.inb.Some? && w.tarball.value.inb.value.messages == w.accepted
  }

  ghost predicate WorldInv(w: World) {
    && |w.jobs| == (if w.inProgress then 1 else 0)
    && (w.inProgress ==>
          && w.status == Active
          && StampsTell(w, w.jobs[0])
          && (w.jobs[0].phase == Tarring ==> TarFaithful(w, w.jobs[0]))
          && (w.jobs[0].phase == Cleared ==> w.dir.None?))
    && (w.dir.None? ==> w.status == Archived || (w.inProgress && w.jobs[0].phase == Cleared))
    && NothingLost(w)
  }

  lemma StepKeepsInv(w: World, e: Event)
    requires WorldInv(w) && Enabled(w, e)
    ensures WorldInv(Step(w, e))
  {
  }

  lemma {:induction false} RunKeepsInv(states: seq<World>, events: seq<Event>, n: nat)
    requires IsRun(states, events) && n < |states|
    ensures WorldInv(states[n])
  {
    if n > 0 {
      RunKeepsInv(states, events, n - 1);
      StepKeepsInv(states[n - 1], events[n - 1]);
    }
  }

  // ---------------------------------------------------------------- main results

  /** Whatever interleaves with the tar, no accepted message is lost, and overlapping ticks never
      archive the session twice at once. */
  lemma NoAcceptedMessageIsLost(states: seq<World>, events: seq<Event>, n: nat)
    requires IsRun(states, events) && n < |states|
    ensures NothingLost(states[n]) && |states[n].jobs| <= 1
  {
    RunKeepsInv(states, events, n);
  }

  // ---------------------------------------------------------------- what the archive can miss

  function TarInbound(w: World): Option<InboundDb> {
    if w.tarball.Some? then w.tarball.value.inb else None
  }

  function TarOutbound(w: World): Option<OutboundDb> {
    if w.tarball.Some? then w.tarball.value.outb else None
  }

  /** Step r is the last before n in which a tar read the inbound file. */
  ghost predicate InboundReadAt(events: seq<Event>, r: nat, n: nat) {
    r < n <= |events| && events[r].ReadInbound? && forall i :: r < i < n ==> !events[i].ReadInbound?
  }

  ghost predicate OutboundReadAt(events: seq<Event>, r: nat, n: nat) {
    r < n <= |events| && events[r].ReadOutbound? && forall i :: r < i < n ==> !events[i].ReadOutbound?
  }

  ghost predicate SilentInboundIn(events: seq<Event>, r: nat, n: nat)
    requires n <= |events|
  {
    exists i :: r < i < n && events[i].SilentInbound?
  }

  ghost predicate SilentOutboundIn(events: seq<Event>, r: nat, n: nat)
    requires n <= |events|
  {
    exists i :: r < i < n && events[i].SilentOutbound?
  }

  /** One step while the directory stands: it was there before, and only silent writes count up. */
  lemma StepCounts(w: World, e: Event)
    requires Enabled(w, e) && Step(w, e).dir.Some?
    ensures w.dir.Some?
    ensures Step(w, e).dir.value.inb.silent == w.dir.value.inb.silent + (if e.SilentInbound? then 1 else 0)
    ensures Step(w, e).dir.value.outb.silent == w.dir.value.outb.silent + (if e.SilentOutbound? then 1 else 0)
  {
  }

  /** One step: the tarball's part is kept, read anew, or emptied. */
  lemma StepKeepsTarball(w: World, e: Event)
    requires Enabled(w, e)
    ensures !e.ReadInbound? && TarInbound(Step(w, e)).Some? ==> TarInbound(Step(w, e)) == TarInbound(w)
    ensures !e.ReadOutbound? && TarOutbound(Step(w, e)).Some? ==> TarOutbound(Step(w, e)) == TarOutbound(w)
    ensures e.ReadInbound? ==> w.dir.Some? && TarInbound(Step(w, e)) == Some(w.dir.value.inb)
    ensures e.ReadOutbound? ==> w.dir.Some? && TarOutbound(Step(w, e)) == Some(w.dir.value.outb)
  {
  }

  lemma RunStep(states: seq<World>, events: seq<Event>, n: nat)
    requires IsRun(states, events) && n < |events|
    ensures Enabled(states[n], events[n]) && states[n + 1] == Step(states[n], events[n])
  {
    hide Step, Enabled;
  }

  lemma {:induction false} InboundSince(states: seq<World>, events: seq<Event>, r: nat, n: nat)
    requires IsRun(states, events) && InboundReadAt(events, r, n) && states[n].dir.Some?
    ensures states[r].dir.Some? && states[n].dir.value.inb.silent >= states[r].dir.value.inb.silent
    ensures states[n].dir.value.inb.silent == states[r].dir.value.inb.silent <==> !SilentInboundIn(events, r, n)
    ensures TarInbound(states[n]).Some? ==> TarInbound(states[n]) == Some(states[r].dir.value.inb)
    decreases n
  {
    RunStep(states, events, n - 1);
    hide Step, Enabled, IsRun, TarInbound;
    StepCounts(states[n - 1], events[n - 1]);
    StepKeepsTarball(states[n - 1], events[n - 1]);
    if r < n - 1 {
      InboundSince(states, events, r, n - 1);
      assert SilentInboundIn(events, r, n) <==> SilentInboundIn(events, r, n - 1) || events[n - 1].SilentInbound?;
    }
  }

  lemma {:induction false} OutboundSince(states: seq<World>, events: seq<Event>, r: nat, n: nat)
    requires IsRun(states, events) && OutboundReadAt(events, r, n) && states[n].dir.Some?
    ensures states[r].dir.Some? && states[n].dir.value.outb.silent >= states[r].dir.value.outb.silent
    ensures states[n].dir.value.outb.silent == states[r].dir.value.outb.silent <==> !SilentOutboundIn(events, r, n)
    ensures TarOutbound(states[n]).Some? ==> TarOutbound(states[n]) == Some(states[r].dir.value.outb)
    decreases n
  {
    RunStep(states, events, n - 1);
    hide Step, Enabled, IsRun, TarOutbound;
    StepCounts(states[n - 1], events[n - 1]);
    StepKeepsTarball(states[n - 1], events[n - 1]);
    if r < n - 1 {
      OutboundSince(states, events, r, n - 1);
      assert SilentOutboundIn(events, r, n) <==> SilentOutboundIn(events, r, n - 1) || events[n - 1].SilentOutbound?;
    }
  }

  /** What the tarball holds was read at some step. */
  lemma {:induction false} InboundWasRead(states: seq<World>, events: seq<Event>, n: nat) returns (r: nat)
    requires IsRun(states, events) && n < |states| && TarInbound(states[n]).Some?
    ensures InboundReadAt(events, r, n)
    decreases n
  {
    if n > 0 {
      RunStep(states, events, n - 1);
      StepKeepsTarball(states[n - 1], events[n - 1]);
    }
    hide Step, Enabled;
    if events[n - 1].ReadInbound? { r := n - 1; } else { r := InboundWasRead(states, events, n - 1); }
  }

  lemma {:induction false} OutboundWasRead(states: seq<World>, events: seq<Event>, n: nat) returns (r: nat)
    requires IsRun(states, events) && n < |states| && TarOutbound(states[n]).Some?
    ensures OutboundReadAt(events, r, n)
    decreases n
  {
    if n > 0 {
      RunStep(states, events, n - 1);
      StepKeepsTarball(states[n - 1], events[n - 1]);
    }
    hide Step, Enabled;
    if events[n - 1].ReadOutbound? { r := n - 1; } else { r := OutboundWasRead(states, events, n - 1); }
  }

  /** The directory is deleted only when the container is stopped and the archive holds every
      message and every reply. */
  lemma DeleteOnlyWhatIsArchived(states: seq<World>, events: seq<Event>, n: nat)
    requires IsRun(states, events) && n < |events|
    requires states[n].dir.Some? && states[n + 1].dir.None?
    ensures var w := states[n];
      && events[n].TarDone? && w.container == Stopped && w.status == Active
      && states[n + 1].tarball == w.tarball
      && w.tarball.value.inb.value.messages == w.dir.value.inb.messages
      && w.tarball.value.outb.value.replies == w.dir.value.outb.replies
  {
    RunKeepsInv(states, events, n);
  }

  /** Main result: of the deleted directory the archive holds each file as it was, exactly when no
      silent write to that file came between the step that read it and the delete. */
  lemma ArchiveIsExactIff(states: seq<World>, events: seq<Event>, n: nat) returns (r: nat, s: nat)
    requires IsRun(states, events) && n < |events|
    requires states[n].dir.Some? && states[n + 1].dir.None?
    ensures InboundReadAt(events, r, n) && OutboundReadAt(events, s, n)
    ensures TarInbound(states[n]) == Some(states[n].dir.value.inb) <==> !SilentInboundIn(events, r, n)
    ensures TarOutbound(states[n]) == Some(states[n].dir.value.outb) <==> !SilentOutboundIn(events, s, n)
    ensures states[n + 1].tarball == Some(Tarball(Some(states[n].dir.value.inb), Some(states[n].dir.value.outb)))
      <==> !SilentInboundIn(events, r, n) && !SilentOutboundIn(events, s, n)
  {
    DeleteOnlyWhatIsArchived(states, events, n);
    RunStep(states, events, n);
    r := InboundWasRead(states, events, n);
    s := OutboundWasRead(states, events, n);
    InboundSince(states, events, r, n);
    OutboundSince(states, events, s, n);
    hide Step, IsRun, SilentInboundIn, SilentOutboundIn, InboundReadAt, OutboundReadAt;
  }

  /** While one archive is in progress its snapshot stays, and a stamp that differs keeps differing. */
  lemma StampStaysDifferent(w: World, e: Event)
    requires WorldInv(w) && Enabled(w, e) && w.inProgress && Step(w, e).inProgress
    ensures Step(w, e).jobs[0].seen == w.jobs[0].seen
    ensures w.lastActive != w.jobs[0].seen || e.ContainerStarts? || Step(w, e).accepted != w.accepted ==>
      Step(w, e).lastActive != w.jobs[0].seen
  {
    assert WorldInv(Step(w, e)) by { StepKeepsInv(w, e); }
  }

  lemma {:induction false} StampsStayDifferent(states: seq<World>, events: seq<Event>, i: nat, n: nat)
    requires IsRun(states, events) && i < n < |states|
    requires forall j :: i <= j <= n ==> states[j].inProgress && |states[j].jobs| == 1
    ensures states[n].jobs[0].seen == states[i].jobs[0].seen
    ensures events[i].ContainerStarts? || states[i + 1].accepted != states[i].accepted ==>
      states[n].lastActive != states[n].jobs[0].seen
  {
    hide Step, WorldInv;
    RunKeepsInv(states, events, n - 1);
    assert states[n - 1 + 1] == Step(states[n - 1], events[n - 1]);
    if i < n - 1 { StampsStayDifferent(states, events, i, n - 1); }
    StampStaysDifferent(states[n - 1], events[n - 1]);
  }

  /** While an archive that ends in a delete was in progress, no message was accepted and no
      container started, not even for an instant. */
  lemma NothingMovesBeforeDelete(states: seq<World>, events: seq<Event>, s: nat, n: nat, i: nat)
    requires IsRun(states, events) && s <= i < n < |events|
    requires forall j :: s <= j <= n ==> states[j].inProgress
    requires states[n].dir.Some? && states[n + 1].dir.None?
    ensures !events[i].ContainerStarts? && states[i + 1].accepted == states[i].accepted
  {
    forall j | s <= j <= n ensures |states[j].jobs| == 1 {
      RunKeepsInv(states, events, j);
    }
    StampsStayDifferent(states, events, i, n);
    assert states[n + 1] == Step(states[n], events[n]);
  }

  lemma StampStaysSame(w: World, e: Event)
    requires WorldInv(w) && Enabled(w, e) && w.inProgress && Step(w, e).inProgress && w.jobs[0].phase == Tarring
    requires !e.ContainerStarts? && Step(w, e).accepted == w.accepted
    ensures w.lastActive == w.jobs[0].seen ==> Step(w, e).lastActive == Step(w, e).jobs[0].seen
  {
    assert WorldInv(Step(w, e)) by { StepKeepsInv(w, e); }
  }

  /** Between the two states no container started and no message was accepted. */
  ghost predicate Untouched(states: seq<World>, events: seq<Event>, s: nat, n: nat)
    requires n < |states| && n <= |events|
  {
    forall i :: s < i < n ==> !events[i].ContainerStarts? && states[i + 1].accepted == states[i].accepted
  }

  /** The archive that step s begins is still in progress before step n, its tar not yet finished. */
  ghost predicate Taring(states: seq<World>, events: seq<Event>, s: nat, n: nat)
    requires n < |states| && n <= |events|
  {
    && s < n && events[s].StartArchive? && !states[s].inProgress
    && (forall j :: s < j <= n ==> states[j].inProgress && |states[j].jobs| == 1 && states[j].jobs[0].phase == Tarring)
  }

  lemma {:induction false} QuietStampStays(states: seq<World>, events: seq<Event>, s: nat, n: nat)
    requires IsRun(states, events) && n <= |events| && n < |states|
    requires Taring(states, events, s, n) && Untouched(states, events, s, n)
    ensures states[n].lastActive == states[n].jobs[0].seen
    decreases n
  {
    hide Step, WorldInv, Enabled, IsRun;
    RunStep(states, events, n - 1);
    RunKeepsInv(states, events, n - 1);
    if s < n - 1 {
      QuietStampStays(states, events, s, n - 1);
      StampStaysSame(states[n - 1], events[n - 1]);
    } else {
      StartShowsStamp(states[s], events[s]);
    }
  }

  lemma StartShowsStamp(w: World, e: Event)
    requires WorldInv(w) && Enabled(w, e) && e.StartArchive? && !w.inProgress
    ensures |Step(w, e).jobs| == 1 && Step(w, e).lastActive == Step(w, e).jobs[0].seen
  {
  }

  /** Main result: when its tar has finished, a session is deleted exactly if no message was accepted
      and no container started since the archive began; otherwise it stays as it is, and the
      tarball is discarded. */
  lemma DeletedIffUntouched(states: seq<World>, events: seq<Event>, s: nat, n: nat)
    requires IsRun(states, events) && n < |events| && Taring(states, events, s, n) && events[n] == TarDone(0)
    ensures states[n + 1].dir.None? <==> Untouched(states, events, s, n)
    ensures states[n + 1].dir.Some? ==>
      states[n + 1].dir == states[n].dir && states[n + 1].tarball.None? && !states[n + 1].inProgress
      && states[n + 1].status == Active
    ensures states[n + 1].dir.None? ==> states[n + 1].tarball == states[n].tarball && states[n + 1].jobs[0].phase == Cleared
  {
    RunStep(states, events, n);
    RunKeepsInv(states, events, n);
    if Untouched(states, events, s, n) {
      QuietStampStays(states, events, s, n);
    } else {
      var i :| s < i < n && !(!events[i].ContainerStarts? && states[i + 1].accepted == states[i].accepted);
      StampsStayDifferent(states, events, i, n);
    }
    hide IsRun;
  }

  /** And only a session that was idle for the whole time to live before its archive began. */
  lemma OnlyIdleIsDeleted(states: seq<World>, events: seq<Event>, s: nat, n: nat)
    requires IsRun(states, events) && n < |events| && Taring(states, events, s, n) && events[n] == TarDone(0)
    requires states[n + 1].dir.None?
    ensures events[s].ttlMs > 0
    ensures Activity(states[n].lastActive, states[n].createdAt) < states[s].clock - events[s].ttlMs
  {
    DeletedIffUntouched(states, events, s, n);
    RunStep(states, events, s);
    RunKeepsInv(states, events, s);
    hide IsRun, Untouched;
    SeenStays(states, events, s, n);
    QuietStampStays(states, events, s, n);
  }

  /** The candidate row an archive has seen is the one of the step that began it. */
  lemma {:induction false} SeenStays(states: seq<World>, events: seq<Event>, s: nat, n: nat)
    requires IsRun(states, events) && n <= |events| && n < |states| && Taring(states, events, s, n)
    ensures states[n].jobs[0].seen == states[s].lastActive && states[n].createdAt == states[s].createdAt
    decreases n
  {
    hide Step, WorldInv, Enabled, IsRun;
    RunStep(states, events, n - 1);
    RunKeepsInv(states, events, n - 1);
    if s < n - 1 {
      SeenStays(states, events, s, n - 1);
      StepKeepsSeen(states[n - 1], events[n - 1]);
    } else {
      StartSees(states[s], events[s]);
    }
  }

  lemma StepKeepsSeen(w: World, e: Event)
    requires WorldInv(w) && Enabled(w, e) && w.inProgress && Step(w, e).inProgress && |Step(w, e).jobs| == 1
    ensures Step(w, e).jobs[0].seen == w.jobs[0].seen && Step(w, e).createdAt == w.createdAt
  {
  }

  lemma StartSees(w: World, e: Event)
    requires WorldInv(w) && Enabled(w, e) && e.StartArchive? && !w.inProgress
    ensures |Step(w, e).jobs| == 1 && Step(w, e).jobs[0].seen == w.lastActive && Step(w, e).createdAt == w.createdAt
  {
  }

  /** A silent write after the read is the one thing the archive can miss. */
  lemma SilentWriteCanBeMissed()
    ensures var w0 := Step(Created(0), Tick(2));
      var w1 := Step(w0, StartArchive(1));
      Enabled(w1, ReadInbound(0)) &&
      var w2 := Step(w1, ReadInbound(0));
      Enabled(w2, ReadOutbound(0)) &&
      var w3 := Step(Step(w2, ReadOutbound(0)), SilentOutbound);
      Enabled(w3, TarDone(0)) &&
      Step(w3, TarDone(0)).dir.None? && w3.tarball.value.outb != Some(w3.dir.value.outb)
  {
  }

  // ---------------------------------------------------------------- the store

  type SessionId = nat

  /** One session's row and files, and the set of sessions whose archive is in progress. */
  class SessionStore {
    const id: SessionId
    var clock: int
    var status: Status
    var containerStatus: Container
    var lastActive: Option<int>
    const createdAt: int
    var dir: Option<Dir>
    var tarball: Option<Tarball>
    var archivesInProgress: set<SessionId>
    var pending: seq<Job>
    ghost var accepted: seq<Msg>

    ghost function State(): World
      reads this
    {
      World(clock, status, containerStatus, lastActive, createdAt, dir, tarball, id in archivesInProgress, pending, accepted)
    }

    constructor (id: SessionId, now: int)
      ensures State() == Created(now)
    {
      this.id := id;
      clock, createdAt, status, containerStatus, lastActive := now, now, Active, Stopped, None;
      dir, tarball := Some(Dir(InboundDb([], 0), OutboundDb([], 0))), None;
      archivesInProgress, pending, accepted := {}, [], [];
    }

    method WriteSessionMessage(m: Msg) returns (ok: bool)
      requires Enabled(State(), Inbound(m))
      modifies this
      ensures State() == Step(old(State()), Inbound(m)) && (ok <==> old(dir).Some?)
    {
      if dir.None? { return false; }
      var d := dir.value;
      dir := Some(d.(inb := d.inb.(messages := d.inb.messages + [m])));
      lastActive := Some(clock);
      accepted := accepted + [m];
      ok := true;
    }

    method MarkContainerRunning()
      modifies this
      ensures State() == Step(old(State()), ContainerStarts)
    {
      containerStatus, lastActive := Running, Some(clock);
    }

    method MarkContainerStopped()
      modifies this
      ensures State() == Step(old(State()), ContainerStops)
    {
      containerStatus := Stopped;
    }

    /** Up to the tar's first yield; false when this session is already being archived. */
    method BeginArchive(ttlMs: nat) returns (begun: bool)
      requires Enabled(State(), StartArchive(ttlMs))
      modifies this
      ensures State() == Step(old(State()), StartArchive(ttlMs)) && (begun <==> id !in old(archivesInProgress))
    {
      if id in archivesInProgress { return false; }
      archivesInProgress := archivesInProgress + {id};
      if dir.None? {
        pending := pending + [Job(lastActive, clock, Cleared)];
      } else {
        tarball := Some(Tarball(None, None));
        pending := pending + [Job(lastActive, clock, Tarring)];
      }
      begun := true;
    }

    method Forget(k: nat)
      requires k < |pending|
      modifies this
      ensures State() == EndJob(old(State()), k)
    {
      archivesInProgress := archivesInProgress - {id};
      pending := pending[..k] + pending[k + 1..];
    }

    /** After the tar: re-validate, then delete or discard. */
    method OnTarDone(k: nat) returns (deleted: bool)
      requires Enabled(State(), TarDone(k))
      modifies this
      ensures State() == Step(old(State()), TarDone(k))
      ensures deleted <==> StillQuiescent(old(State()), old(pending)[k].seen)
    {
      if status == Active && containerStatus == Stopped && lastActive == pending[k].seen {
        dir := None;
        pending := pending[k := pending[k].(phase := Cleared)];
        return true;
      }
      tarball := None;
      Forget(k);
      deleted := false;
    }

    method FinishArchive(k: nat)
      requires Enabled(State(), Flip(k))
      modifies this
      ensures State() == Step(old(State()), Flip(k))
    {
      status := Archived;
      Forget(k);
    }
  }
}
