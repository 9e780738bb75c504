/**
  Remap counts of a burst become one notice per project: `remapRef` of `useCollabNotifications`
  holds, per project, what has not been told yet and the timer that will tell it.

  A delivered change, a fired timer and a clean-up are one step each. `received` lists the changes
  the listener took, for the statements below; the hook itself does not keep it.
 */
module RemapCoalescer {
  import opened Common
  import opened Lists

  type Project = int
  type Timer = nat

  datatype Notice = Notice(project: Project, count: nat)

  /** One entry of the pending Map, which keeps its entries in the order they were put. */
  datatype Entry = Entry(project: Project, count: nat, timer: Timer)

  datatype State = State(
    pending: seq<Entry>,
    live: map<Timer, Project>,
    nextTimer: Timer,
    emitted: seq<Notice>,
    received: seq<Notice>,
    run: nat,
    mounted: bool)

  /** `listener` is the run of the effect that registered the listener now called. */
  datatype Event =
    | Remapped(listener: nat, project: Project, count: nat)
    | TimerFires(timer: Timer)
    | CleanUp
    | Mount

  const INITIAL: State := State([], map[], 0, [], [], 0, false)

  // ---------------------------------------------------------------- the pending Map

  function Find(pending: seq<Entry>, project: Project): (k: nat)
    ensures k <= |pending|
    ensures k < |pending| ==> pending[k].project == project
    ensures forall j :: 0 <= j < k ==> pending[j].project != project
  {
    if pending == [] || pending[0].project == project then 0 else 1 + Find(pending[1..], project)
  }

  predicate Has(pending: seq<Entry>, project: Project) {
    Find(pending, project) < |pending|
  }

  function Put(pending: seq<Entry>, e: Entry): seq<Entry> {
    var k := Find(pending, e.project);
    if k < |pending| then pending[k := e] else pending + [e]
  }

  function Delete(pending: seq<Entry>, project: Project): seq<Entry> {
    var k := Find(pending, project);
    if k < |pending| then pending[..k] + pending[k + 1..] else pending
  }

  /** `pending.get(project)`. */
  function EntryFor(pending: seq<Entry>, project: Project): Option<Entry> {
    if Has(pending, project) then Some(pending[Find(pending, project)]) else None
  }

  function PendingFor(pending: seq<Entry>, project: Project): nat {
    match EntryFor(pending, project)
    case Some(e) => e.count
    case None => 0
  }

  function Keys(pending: seq<Entry>): (keys: seq<Project>)
    ensures |keys| == |pending| && forall i :: 0 <= i < |keys| ==> keys[i] == pending[i].project
  {
    if pending == [] then [] else [pending[0].project] + Keys(pending[1..])
  }

  // ---------------------------------------------------------------- the steps

  /** `flushRemap`. */
  function Flush(s: State, project: Project): State {
    if !Has(s.pending, project) then s
    else
      var e := s.pending[Find(s.pending, project)];
      s.(live := s.live - {e.timer}, pending := Delete(s.pending, project), emitted := s.emitted + [Notice(project, e.count)])
  }

  function FlushAll(s: State, projects: seq<Project>): State
    decreases |projects|
  {
    if projects == [] then s else FlushAll(Flush(s, projects[0]), projects[1..])
  }

  /** The live timers once the timer of `project` is replaced by a new one. */
  function Rearmed(pending: seq<Entry>, live: map<Timer, Project>, next: Timer, project: Project): map<Timer, Project> {
    (if Has(pending, project) then live - {pending[Find(pending, project)].timer} else live)[next := project]
  }

  /** The listener of `collab-frames-changed` on a remap. */
  function RemappedStep(s: State, listener: nat, project: Project, count: nat): State {
    if !s.mounted || listener != s.run || count == 0 then s
    else
      s.(pending := Put(s.pending, Entry(project, PendingFor(s.pending, project) + count, s.nextTimer)),
         live := Rearmed(s.pending, s.live, s.nextTimer, project),
         nextTimer := s.nextTimer + 1,
         received := s.received + [Notice(project, count)])
  }

  function TimerStep(s: State, timer: Timer): State {
    if timer !in s.live then s else Flush(s.(live := s.live - {timer}), s.live[timer])
  }

  function CleanUpStep(s: State): State {
    if !s.mounted then s else FlushAll(s.(mounted := false), Keys(s.pending))
  }

  function Step(s: State, e: Event): State {
    match e
    case Remapped(listener, project, count) => RemappedStep(s, listener, project, count)
    case TimerFires(timer) => TimerStep(s, timer)
    case CleanUp => CleanUpStep(s)
    case Mount => if s.mounted then s else s.(run := s.run + 1, mounted := true)
  }

  function Exec(s: State, es: seq<Event>): State
    decreases |es|
  {
    if es == [] then s else Exec(Step(s, es[0]), es[1..])
  }

  // ---------------------------------------------------------------- counting

  function SumFor(notices: seq<Notice>, project: Project): nat {
    if notices == [] then 0
    else
      var last := notices[|notices| - 1];
      SumFor(notices[..|notices| - 1], project) + if last.project == project then last.count else 0
  }

  lemma SumForOneMore(notices: seq<Notice>, n: Notice, project: Project)
    ensures SumFor(notices + [n], project) == SumFor(notices, project) + if n.project == project then n.count else 0
  {
    var more := notices + [n];
    assert more[..|more| - 1] == notices;
  }

  predicate DistinctProjects(pending: seq<Entry>) {
    forall i, j :: 0 <= i < j < |pending| ==> pending[i].project != pending[j].project
  }

  /** Every pending entry has the one live timer that names its project, and no other timer is live. */
  predicate OneTimerEach(pending: seq<Entry>, live: map<Timer, Project>, nextTimer: Timer) {
    && (forall i :: 0 <= i < |pending| ==> IsTimed(pending[i], live))
    && (forall t :: t in live ==> t < nextTimer && IsAwaited(pending, live[t], t))
  }

  predicate IsTimed(e: Entry, live: map<Timer, Project>) {
    e.timer in live && live[e.timer] == e.project
  }

  predicate IsAwaited(pending: seq<Entry>, project: Project, timer: Timer) {
    EntryFor(pending, project).Some? && EntryFor(pending, project).value.timer == timer
  }

  predicate Positive(pending: seq<Entry>) {
    forall i :: 0 <= i < |pending| ==> pending[i].count > 0
  }

  predicate Conserved(s: State, project: Project) {
    SumFor(s.emitted, project) + PendingFor(s.pending, project) == SumFor(s.received, project)
  }

  ghost predicate AllConserved(s: State) {
    forall p :: Conserved(s, p)
  }

  ghost predicate Inv(s: State) {
    && DistinctProjects(s.pending)
    && Positive(s.pending)
    && OneTimerEach(s.pending, s.live, s.nextTimer)
    && AllConserved(s)
    && (!s.mounted ==> s.pending == [])
  }

  /** With distinct projects an entry is found where it is. */
  lemma FindIs(pending: seq<Entry>, k: nat)
    requires DistinctProjects(pending) && k < |pending|
    ensures Find(pending, pending[k].project) == k
  {
  }

  lemma PutFacts(pending: seq<Entry>, e: Entry)
    requires DistinctProjects(pending)
    ensures DistinctProjects(Put(pending, e))
    ensures EntryFor(Put(pending, e), e.project) == Some(e)
    ensures forall p :: p != e.project ==> EntryFor(Put(pending, e), p) == EntryFor(pending, p)
  {
    var after := Put(pending, e);
    var k := Find(pending, e.project);
    assert after[k] == e;
    FindIs(after, k);
    forall p | p != e.project
      ensures EntryFor(after, p) == EntryFor(pending, p)
    {
      var i := Find(pending, p);
      if i < |pending| {
        assert after[i] == pending[i];
        FindIs(after, i);
      } else {
        assert forall j :: 0 <= j < |after| ==> after[j].project != p;
      }
    }
  }

  lemma DeleteFacts(pending: seq<Entry>, project: Project)
    requires DistinctProjects(pending)
    ensures DistinctProjects(Delete(pending, project))
    ensures !Has(Delete(pending, project), project)
    ensures forall p :: p != project ==> EntryFor(Delete(pending, project), p) == EntryFor(pending, p)
  {
    var after := Delete(pending, project);
    var k := Find(pending, project);
    forall p | p != project
      ensures EntryFor(after, p) == EntryFor(pending, p)
    {
      var i := Find(pending, p);
      if i < |pending| {
        var i' := if i < k then i else if k < |pending| then i - 1 else i;
        assert after[i'] == pending[i];
        FindIs(after, i');
      } else {
        assert forall j :: 0 <= j < |after| ==> after[j].project != p;
      }
    }
  }

  lemma EntriesOfPut(pending: seq<Entry>, e: Entry)
    ensures forall i :: 0 <= i < |Put(pending, e)| ==> Put(pending, e)[i] == e || Put(pending, e)[i] in pending
  {
  }

  lemma EntriesOfDelete(pending: seq<Entry>, project: Project)
    requires DistinctProjects(pending)
    ensures forall i :: 0 <= i < |Delete(pending, project)| ==>
      Delete(pending, project)[i] in pending && Delete(pending, project)[i].project != project
  {
  }

  // ---------------------------------------------------------------- what every run keeps

  lemma EntryOutlivesFlush(pending: seq<Entry>, live: map<Timer, Project>, next: Timer, project: Project, e: Entry)
    requires OneTimerEach(pending, live, next) && Has(pending, project) && e in pending && e.project != project
    ensures IsTimed(e, live - {pending[Find(pending, project)].timer})
  {
    var i :| 0 <= i < |pending| && pending[i] == e;
    assert IsTimed(pending[i], live);
    assert IsTimed(pending[Find(pending, project)], live);
  }

  lemma TimerOutlivesFlush(pending: seq<Entry>, live: map<Timer, Project>, next: Timer, project: Project, t: Timer)
    requires DistinctProjects(pending) && OneTimerEach(pending, live, next) && Has(pending, project)
    requires t in live && t != pending[Find(pending, project)].timer
    ensures IsAwaited(Delete(pending, project), live[t], t)
  {
    assert IsAwaited(pending, live[t], t);
    DeleteFacts(pending, project);
  }

  lemma FlushTimers(pending: seq<Entry>, live: map<Timer, Project>, next: Timer, project: Project)
    requires DistinctProjects(pending) && OneTimerEach(pending, live, next) && Has(pending, project)
    ensures OneTimerEach(Delete(pending, project), live - {pending[Find(pending, project)].timer}, next)
  {
    var after, left := Delete(pending, project), live - {pending[Find(pending, project)].timer};
    EntriesOfDelete(pending, project);
    forall i | 0 <= i < |after|
      ensures IsTimed(after[i], left)
    {
      EntryOutlivesFlush(pending, live, next, project, after[i]);
    }
    forall t | t in left
      ensures t < next && IsAwaited(after, left[t], t)
    {
      TimerOutlivesFlush(pending, live, next, project, t);
    }
  }

  lemma FlushKeeps(s: State, project: Project)
    requires Inv(s.(mounted := true))
    ensures Inv(Flush(s, project).(mounted := true))
    ensures !Has(Flush(s, project).pending, project)
  {
    if Has(s.pending, project) {
      FlushTimers(s.pending, s.live, s.nextTimer, project);
      DeleteFacts(s.pending, project);
      EntriesOfDelete(s.pending, project);
      var s' := Flush(s, project);
      forall p
        ensures Conserved(s', p)
      {
        assert Conserved(s.(mounted := true), p);
        SumForOneMore(s.emitted, Notice(project, PendingFor(s.pending, project)), p);
      }
      forall p
        ensures Conserved(s'.(mounted := true), p)
      {
        assert Conserved(s', p);
      }
    }
  }

  lemma EntryStaysTimed(pending: seq<Entry>, live: map<Timer, Project>, next: Timer, project: Project, e: Entry)
    requires OneTimerEach(pending, live, next) && e in pending && e.project != project
    ensures IsTimed(e, Rearmed(pending, live, next, project))
  {
    var i :| 0 <= i < |pending| && pending[i] == e;
    assert IsTimed(pending[i], live);
    if Has(pending, project) {
      assert IsTimed(pending[Find(pending, project)], live);
    }
  }

  lemma TimerStaysAwaited(pending: seq<Entry>, live: map<Timer, Project>, next: Timer, e: Entry, t: Timer)
    requires DistinctProjects(pending) && OneTimerEach(pending, live, next) && e.timer == next
    requires t in live && t in Rearmed(pending, live, next, e.project)
    ensures live[t] != e.project && Rearmed(pending, live, next, e.project)[t] == live[t]
    ensures IsAwaited(Put(pending, e), live[t], t)
  {
    assert IsAwaited(pending, live[t], t);
    PutFacts(pending, e);
  }

  lemma RemappedTimers(pending: seq<Entry>, live: map<Timer, Project>, next: Timer, e: Entry)
    requires DistinctProjects(pending) && OneTimerEach(pending, live, next) && e.timer == next
    ensures OneTimerEach(Put(pending, e), Rearmed(pending, live, next, e.project), next + 1)
  {
    var after, rearmed := Put(pending, e), Rearmed(pending, live, next, e.project);
    PutFacts(pending, e);
    EntriesOfPut(pending, e);
    forall i | 0 <= i < |after|
      ensures IsTimed(after[i], rearmed)
    {
      if after[i].project != e.project {
        EntryStaysTimed(pending, live, next, e.project, after[i]);
      } else {
        FindIs(after, i);
      }
    }
    forall t | t in rearmed
      ensures t < next + 1 && IsAwaited(after, rearmed[t], t)
    {
      if t != next {
        TimerStaysAwaited(pending, live, next, e, t);
      }
    }
  }

  lemma RemappedPending(pending: seq<Entry>, e: Entry)
    requires DistinctProjects(pending) && Positive(pending) && e.count > 0
    ensures DistinctProjects(Put(pending, e)) && Positive(Put(pending, e))
    ensures forall p :: PendingFor(Put(pending, e), p) == if p == e.project then e.count else PendingFor(pending, p)
  {
    PutFacts(pending, e);
    EntriesOfPut(pending, e);
  }

  lemma RemappedConserves(s: State, listener: nat, project: Project, count: nat, p: Project)
    requires DistinctProjects(s.pending) && Positive(s.pending) && Conserved(s, p)
    ensures Conserved(RemappedStep(s, listener, project, count), p)
  {
    if count > 0 {
      RemappedPending(s.pending, Entry(project, PendingFor(s.pending, project) + count, s.nextTimer));
      SumForOneMore(s.received, Notice(project, count), p);
    }
  }

  lemma RemappedConservesAll(s: State, listener: nat, project: Project, count: nat)
    requires DistinctProjects(s.pending) && Positive(s.pending) && AllConserved(s)
    ensures AllConserved(RemappedStep(s, listener, project, count))
  {
    forall p
      ensures Conserved(RemappedStep(s, listener, project, count), p)
    {
      assert Conserved(s, p);
      RemappedConserves(s, listener, project, count, p);
    }
  }

  lemma RemappedKeeps(s: State, listener: nat, project: Project, count: nat)
    requires Inv(s)
    ensures Inv(RemappedStep(s, listener, project, count))
  {
    RemappedConservesAll(s, listener, project, count);
    if s.mounted && listener == s.run && count > 0 {
      var e := Entry(project, PendingFor(s.pending, project) + count, s.nextTimer);
      RemappedTimers(s.pending, s.live, s.nextTimer, e);
      RemappedPending(s.pending, e);
    }
  }

  /** A live timer's project is pending under that very timer, so firing it is flushing it. */
  lemma TimerIsFlush(s: State, timer: Timer)
    requires Inv(s) && timer in s.live
    ensures TimerStep(s, timer) == Flush(s, s.live[timer])
  {
    assert s.live - {timer} - {timer} == s.live - {timer};
  }

  lemma {:induction false} FlushAllKeeps(s: State, projects: seq<Project>)
    requires Inv(s.(mounted := true))
    ensures Inv(FlushAll(s, projects).(mounted := true))
    ensures FlushAll(s, projects).mounted == s.mounted && FlushAll(s, projects).received == s.received
    ensures FlushAll(s, projects).run == s.run
    decreases |projects|
  {
    if projects != [] {
      FlushKeeps(s, projects[0]);
      FlushAllKeeps(Flush(s, projects[0]), projects[1..]);
    }
  }

  lemma NoticesFromFirst(emitted: seq<Notice>, pending: seq<Entry>)
    requires pending != []
    ensures emitted + AsNotices(pending) == emitted + [Notice(pending[0].project, pending[0].count)] + AsNotices(pending[1..])
  {
  }

  lemma FlushFirst(s: State)
    requires s.pending != []
    ensures var e := s.pending[0];
      var s' := Flush(s, e.project);
      s'.pending == s.pending[1..] && s'.emitted == s.emitted + [Notice(e.project, e.count)]
  {
  }

  /** Flushing the keys of the Map empties it and tells each entry once, in the Map's order. */
  lemma {:induction false} FlushKeysEmpties(s: State)
    requires DistinctProjects(s.pending)
    ensures FlushAll(s, Keys(s.pending)).pending == []
    ensures FlushAll(s, Keys(s.pending)).emitted == s.emitted + AsNotices(s.pending)
    decreases |s.pending|
  {
    if s.pending != [] {
      var e := s.pending[0];
      var s' := Flush(s, e.project);
      FlushFirst(s);
      assert Keys(s.pending)[1..] == Keys(s'.pending);
      assert FlushAll(s, Keys(s.pending)) == FlushAll(s', Keys(s'.pending));
      FlushKeysEmpties(s');
      NoticesFromFirst(s.emitted, s.pending);
    }
  }

  function AsNotices(pending: seq<Entry>): seq<Notice> {
    if pending == [] then [] else [Notice(pending[0].project, pending[0].count)] + AsNotices(pending[1..])
  }

  lemma CleanUpKeeps(s: State)
    requires Inv(s)
    ensures Inv(CleanUpStep(s))
  {
    if s.mounted {
      var s1 := s.(mounted := false);
      assert s1.(mounted := true) == s;
      FlushAllKeeps(s1, Keys(s1.pending));
      FlushKeysEmpties(s1);
      var s' := CleanUpStep(s);
      forall p
        ensures Conserved(s', p)
      {
        assert Conserved(s'.(mounted := true), p);
      }
    }
  }

  lemma StepKeeps(s: State, e: Event)
    requires Inv(s)
    ensures Inv(Step(s, e))
  {
    match e
    case Remapped(listener, project, count) => RemappedKeeps(s, listener, project, count);
    case TimerFires(timer) =>
      if timer in s.live {
        assert s.mounted;
        assert s.(mounted := true) == s;
        TimerIsFlush(s, timer);
        FlushKeeps(s, s.live[timer]);
        assert Flush(s, s.live[timer]).(mounted := true) == Flush(s, s.live[timer]);
      }
    case CleanUp => CleanUpKeeps(s);
    case Mount =>
      if !s.mounted {
        forall p
          ensures Conserved(Step(s, Mount), p)
        {
          assert Conserved(s, p);
        }
      }
  }

  lemma {:induction false} ExecKeeps(s: State, es: seq<Event>)
    requires Inv(s)
    ensures Inv(Exec(s, es))
    decreases |es|
  {
    if es != [] {
      StepKeeps(s, es[0]);
      ExecKeeps(Step(s, es[0]), es[1..]);
    }
  }

  // ---------------------------------------------------------------- what is heard, read off the events

  predicate IsMounted(es: seq<Event>) {
    es != [] && (Last(es) == Mount || (Last(es) != CleanUp && IsMounted(Front(es))))
  }

  /** How often the hook was mounted anew. */
  function Mounts(es: seq<Event>): nat {
    if es == [] then 0 else Mounts(Front(es)) + if Last(es) == Mount && !IsMounted(Front(es)) then 1 else 0
  }

  /** The counts that reached the listener of the mount they happened in; counts of nothing and late listeners do not. */
  function Heard(es: seq<Event>): seq<Notice> {
    if es == [] then []
    else
      var before := Front(es);
      match Last(es)
      case Remapped(listener, project, count) =>
        Heard(before) + if IsMounted(before) && listener == Mounts(before) && count > 0 then [Notice(project, count)] else []
      case _ => Heard(before)
  }

  lemma {:induction false} ExecSnoc(s: State, es: seq<Event>)
    requires es != []
    ensures Exec(s, es) == Step(Exec(s, Front(es)), Last(es))
    decreases |es|
  {
    if |es| > 1 {
      ExecSnoc(Step(s, es[0]), es[1..]);
      assert Front(es)[1..] == Front(es[1..]);
    }
  }

  lemma FlushOnlyTells(s: State, project: Project)
    ensures var s' := Flush(s, project); s'.received == s.received && s'.run == s.run && s'.mounted == s.mounted
  {
  }

  lemma {:induction false} FlushAllOnlyTells(s: State, projects: seq<Project>)
    ensures var s' := FlushAll(s, projects); s'.received == s.received && s'.run == s.run && s'.mounted == s.mounted
    decreases |projects|
  {
    if projects != [] {
      FlushOnlyTells(s, projects[0]);
      FlushAllOnlyTells(Flush(s, projects[0]), projects[1..]);
    }
  }

  lemma StepHears(s: State, e: Event)
    ensures var s' := Step(s, e);
      && s'.mounted == (e == Mount || (s.mounted && e != CleanUp))
      && s'.run == s.run + (if e == Mount && !s.mounted then 1 else 0)
      && s'.received == s.received +
           if e.Remapped? && s.mounted && e.listener == s.run && e.count > 0 then [Notice(e.project, e.count)] else []
  {
    match e
    case Remapped(_, _, _) =>
    case TimerFires(timer) =>
      if timer in s.live {
        FlushOnlyTells(s.(live := s.live - {timer}), s.live[timer]);
      }
    case CleanUp => FlushAllOnlyTells(s.(mounted := false), Keys(s.pending));
    case Mount =>
  }

  lemma {:induction false} ReceivedIsHeard(es: seq<Event>)
    ensures var s := Exec(INITIAL, es); s.mounted == IsMounted(es) && s.run == Mounts(es) && s.received == Heard(es)
  {
    if es != [] {
      ReceivedIsHeard(Front(es));
      ExecSnoc(INITIAL, es);
      StepHears(Exec(INITIAL, Front(es)), Last(es));
    }
  }

  // ---------------------------------------------------------------- nothing lost, nothing doubled

  /** In every reachable state, per project: what was told and what is pending add up to what was heard, and a timer is live for exactly what is pending. */
  lemma NothingIsLost(es: seq<Event>, project: Project)
    ensures var s := Exec(INITIAL, es);
      && SumFor(s.emitted, project) + PendingFor(s.pending, project) == SumFor(Heard(es), project)
      && (PendingFor(s.pending, project) > 0 <==> exists t :: t in s.live && s.live[t] == project)
      && (forall t, u :: t in s.live && u in s.live && s.live[t] == s.live[u] ==> t == u)
  {
    ExecKeeps(INITIAL, es);
    ReceivedIsHeard(es);
    var s := Exec(INITIAL, es);
    assert Conserved(s, project);
    if Has(s.pending, project) {
      var e := s.pending[Find(s.pending, project)];
      assert e.timer in s.live && s.live[e.timer] == project;
    }
  }

  /** After the clean-up everything heard has been told, nothing is pending and no timer is left. */
  lemma CleanUpTellsTheRest(es: seq<Event>, project: Project)
    ensures var s := CleanUpStep(Exec(INITIAL, es));
      && s.pending == [] && s.live == map[] && !s.mounted
      && SumFor(s.emitted, project) == SumFor(Heard(es), project)
      && s.emitted == Exec(INITIAL, es).emitted + AsNotices(Exec(INITIAL, es).pending)
  {
    ExecKeeps(INITIAL, es);
    var s := Exec(INITIAL, es);
    CleanUpKeeps(s);
    var s' := CleanUpStep(s);
    ReceivedIsHeard(es);
    StepHears(s, CleanUp);
    if s.mounted {
      FlushAllKeeps(s.(mounted := false), Keys(s.pending));
      FlushKeysEmpties(s.(mounted := false));
    } else {
      assert s.emitted + AsNotices(s.pending) == s.emitted;
    }
    assert Conserved(s', project);
    assert s'.live.Keys == {};
  }

  /** And until the hook mounts again nothing that still arrives, late timers and listeners included, tells anything more. */
  lemma {:induction false} SilentAfterCleanUp(s: State, later: seq<Event>)
    requires !s.mounted && s.pending == [] && s.live == map[]
    requires Mount !in later
    ensures Exec(s, later) == s
    decreases |later|
  {
    if later != [] {
      assert later[0] in later;
      assert Step(s, later[0]) == s;
      SilentAfterCleanUp(s, later[1..]);
    }
  }

  /** The notices of one project. */
  function Told(notices: seq<Notice>, project: Project): seq<Notice> {
    Keep(notices, OfProject(project))
  }

  function OfProject(project: Project): Notice -> bool {
    (n: Notice) => n.project == project
  }

  /** What an event adds to the count of a project while the effect of `run` is mounted. */
  function Adds(e: Event, run: nat, project: Project): nat {
    if e.Remapped? && e.listener == run && e.project == project then e.count else 0
  }

  function BurstTotal(es: seq<Event>, run: nat, project: Project): nat {
    if es == [] then 0 else Adds(es[0], run, project) + BurstTotal(es[1..], run, project)
  }

  /** The effect stays mounted and the project's own timer does not fire; anything else may happen. */
  predicate LeavesPending(s: State, e: Event, project: Project) {
    e != CleanUp && e != Mount && (e.TimerFires? && e.timer in s.live ==> s.live[e.timer] != project)
  }

  predicate IsBurst(s: State, es: seq<Event>, project: Project)
    decreases |es|
  {
    es == [] || (LeavesPending(s, es[0], project) && IsBurst(Step(s, es[0]), es[1..], project))
  }

  lemma FlushSparesOthers(s: State, other: Project, project: Project)
    requires DistinctProjects(s.pending) && other != project
    ensures PendingFor(Flush(s, other).pending, project) == PendingFor(s.pending, project)
    ensures Told(Flush(s, other).emitted, project) == Told(s.emitted, project)
  {
    DeleteFacts(s.pending, other);
    if Has(s.pending, other) {
      var n := Notice(other, s.pending[Find(s.pending, other)].count);
      assert Front(s.emitted + [n]) == s.emitted;
    }
  }

  lemma RemappedAdds(s: State, listener: nat, changed: Project, count: nat, project: Project)
    requires DistinctProjects(s.pending) && Positive(s.pending) && s.mounted
    ensures var s' := RemappedStep(s, listener, changed, count);
      && PendingFor(s'.pending, project) == PendingFor(s.pending, project) + Adds(Remapped(listener, changed, count), s.run, project)
      && s'.emitted == s.emitted
  {
    if listener == s.run && count > 0 {
      RemappedPending(s.pending, Entry(changed, PendingFor(s.pending, changed) + count, s.nextTimer));
    }
  }

  lemma BurstStep(s: State, e: Event, project: Project)
    requires Inv(s) && s.mounted && LeavesPending(s, e, project)
    ensures var s' := Step(s, e);
      && Inv(s') && s'.mounted && s'.run == s.run
      && PendingFor(s'.pending, project) == PendingFor(s.pending, project) + Adds(e, s.run, project)
      && Told(s'.emitted, project) == Told(s.emitted, project)
  {
    StepKeeps(s, e);
    match e
    case Remapped(listener, changed, count) => RemappedAdds(s, listener, changed, count, project);
    case TimerFires(timer) =>
      if timer in s.live {
        TimerIsFlush(s, timer);
        FlushSparesOthers(s, s.live[timer], project);
      }
  }

  lemma {:induction false} BurstPends(s: State, es: seq<Event>, project: Project)
    requires Inv(s) && s.mounted && IsBurst(s, es, project)
    ensures var b := Exec(s, es);
      && Inv(b)
      && PendingFor(b.pending, project) == PendingFor(s.pending, project) + BurstTotal(es, s.run, project)
      && Told(b.emitted, project) == Told(s.emitted, project)
    decreases |es|
  {
    if es != [] {
      BurstStep(s, es[0], project);
      BurstPends(Step(s, es[0]), es[1..], project);
    }
  }

  /**
    Whatever else happens while a project's changes come in, other projects' changes and notices included,
    nothing of the project is told before its own timer fires, and then one notice tells all of it.
   */
  lemma BurstIsOneNotice(es: seq<Event>, burst: seq<Event>, project: Project, timer: Timer)
    requires var s := Exec(INITIAL, es); s.mounted && IsBurst(s, burst, project)
    requires var b := Exec(Exec(INITIAL, es), burst); timer in b.live && b.live[timer] == project
    ensures var s := Exec(INITIAL, es);
      var b := Exec(s, burst);
      && Told(b.emitted, project) == Told(s.emitted, project)
      && TimerStep(b, timer).emitted
           == b.emitted + [Notice(project, PendingFor(s.pending, project) + BurstTotal(burst, s.run, project))]
  {
    ExecKeeps(INITIAL, es);
    var s := Exec(INITIAL, es);
    BurstPends(s, burst, project);
    var b := Exec(s, burst);
    assert IsAwaited(b.pending, project, timer);
    TimerIsFlush(b, timer);
  }

  // ---------------------------------------------------------------- the hook itself

  /** The ref, the timers the browser still owes, and the notices sent. */
  class CollabNotifications {
    var remap: seq<Entry>
    var live: map<Timer, Project>
    var nextTimer: Timer
    var emitted: seq<Notice>
    var run: nat
    var mounted: bool
    ghost var received: seq<Notice>

    ghost function Snapshot(): State
      reads this
    {
      State(remap, live, nextTimer, emitted, received, run, mounted)
    }

    constructor ()
      ensures Snapshot() == INITIAL
    {
      remap, live, nextTimer, emitted, run, mounted, received := [], map[], 0, [], 0, false, [];
    }

    method IndexFor(projectId: Project) returns (k: nat)
      ensures k == Find(remap, projectId)
    {
      k := 0;
      while k < |remap| && remap[k].project != projectId
        invariant k <= |remap|
        invariant forall j :: 0 <= j < k ==> remap[j].project != projectId
      {
        k := k + 1;
      }
    }

    method FlushRemap(projectId: Project)
      modifies this
      ensures Snapshot() == Flush(old(Snapshot()), projectId)
    {
      var k := IndexFor(projectId);
      if k == |remap| {
        return;
      }
      var pending := remap[k];
      live := live - {pending.timer};
      remap := remap[..k] + remap[k + 1..];
      emitted := emitted + [Notice(projectId, pending.count)];
    }

    method OnRemapped(listener: nat, projectId: Project, changed: nat)
      modifies this
      ensures Snapshot() == Step(old(Snapshot()), Remapped(listener, projectId, changed))
    {
      if !mounted || listener != run {
        return;
      }
      if changed == 0 {
        return;
      }
      var k := IndexFor(projectId);
      var count := changed;
      if k < |remap| {
        live := live - {remap[k].timer};
        count := remap[k].count + changed;
      }
      var timer := nextTimer;
      nextTimer := nextTimer + 1;
      live := live[timer := projectId];
      var entry := Entry(projectId, count, timer);
      remap := if k < |remap| then remap[k := entry] else remap + [entry];
      received := received + [Notice(projectId, changed)];
    }

    method OnTimer(timer: Timer)
      modifies this
      ensures Snapshot() == Step(old(Snapshot()), TimerFires(timer))
    {
      if timer in live {
        var projectId := live[timer];
        live := live - {timer};
        FlushRemap(projectId);
      }
    }

    method OnMount()
      modifies this
      ensures Snapshot() == Step(old(Snapshot()), Mount)
    {
      if !mounted {
        run := run + 1;
        mounted := true;
      }
    }

    method OnCleanUp()
      modifies this
      ensures Snapshot() == Step(old(Snapshot()), CleanUp)
    {
      if !mounted {
        return;
      }
      mounted := false;
      var keys := Keys(remap);
      var i := 0;
      while i < |keys|
        invariant i <= |keys|
        invariant FlushAll(Snapshot(), keys[i..]) == FlushAll(old(Snapshot()).(mounted := false), keys)
      {
        FlushRemap(keys[i]);
        i := i + 1;
      }
    }
  }
}
