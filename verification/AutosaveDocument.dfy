/**
  The save protocol of `useAutosaveDocument`: one document, edited in place, saved whole
  after a debounce, reset on demand and flushed on unmount.

  The backend handles requests in the order they were sent and answers each one before it
  takes the next. A refused request may leave any document behind. A React commit and the
  effects it triggers are part of the step that caused them.
 */
module AutosaveDocument {
  import opened Common
  import Lists

  datatype Request<D> = MountLoad | Save(doc: D) | ResetConfig | Reload

  /** `sent` and `patches` are history variables: the saves dispatched, and how many patches took effect. */
  datatype Hook<D> = Hook(doc: Option<D>, dirty: bool, pending: Option<D>, timer: bool, error: bool, mounted: bool,
                          queue: seq<Request<D>>, backend: D, sent: seq<D>, patches: nat)

  datatype Event<D> =
    | Patch(next: D, sameReference: bool)
    | TimerFires
    | ResetAll
    | Answer(ok: bool, after: D)
    | Unmount

  function Mounted<D>(backend: D): Hook<D> {
    Hook(None, false, None, false, false, true, [MountLoad], backend, [], 0)
  }

  function SendPending<D>(h: Hook<D>): Hook<D> {
    if h.pending.None? then h
    else h.(dirty := false, pending := None, queue := h.queue + [Save(h.pending.value)], sent := h.sent + [h.pending.value])
  }

  /** `setDoc` and the debounce effect that runs on the new document. */
  function ShowDoc<D>(h: Hook<D>, next: D): Hook<D> {
    if !h.mounted then h
    else if h.dirty then h.(doc := Some(next), pending := Some(next), timer := true)
    else h.(doc := Some(next), timer := false)
  }

  /** A patch before the document is there is dropped; one that returns the same object re-renders nothing. */
  function PatchStep<D(==)>(h: Hook<D>, next: D, sameReference: bool): Hook<D> {
    if !h.mounted || h.doc.None? then h
    else
      var h1 := h.(dirty := true, patches := h.patches + 1);
      if sameReference && next == h.doc.value then h1 else ShowDoc(h1, next)
  }

  function TimerStep<D>(h: Hook<D>): Hook<D> {
    if h.mounted && h.timer then SendPending(h.(timer := false)) else h
  }

  function UnmountStep<D>(h: Hook<D>): Hook<D> {
    if !h.mounted then h
    else
      var h1 := h.(mounted := false, timer := false);
      if h1.dirty && h1.pending.Some? then SendPending(h1) else h1
  }

  function AnswerStep<D>(h: Hook<D>, ok: bool, after: D): Hook<D> {
    if h.queue == [] then h
    else
      var h1 := h.(queue := h.queue[1..]);
      match h.queue[0]
      case Save(d) => if ok then h1.(backend := d, error := false) else h1.(backend := after, error := true)
      case ResetConfig =>
        if ok then h1.(backend := after, dirty := false, pending := None, queue := h1.queue + [Reload])
        else h1.(backend := after, error := true)
      case _ => if ok then ShowDoc(h1.(error := false), h.backend) else h1.(error := true)
  }

  function Step<D(==)>(h: Hook<D>, e: Event<D>): Hook<D> {
    match e
    case Patch(next, sameReference) => PatchStep(h, next, sameReference)
    case TimerFires => TimerStep(h)
    case ResetAll => if h.mounted then h.(queue := h.queue + [ResetConfig]) else h
    case Answer(ok, after) => AnswerStep(h, ok, after)
    case Unmount => UnmountStep(h)
  }

  function Exec<D(==)>(h: Hook<D>, es: seq<Event<D>>): Hook<D>
    decreases |es|
  {
    if es == [] then h else Exec(Step(h, es[0]), es[1..])
  }

  // ---------------------------------------------------------------- what every run keeps

  predicate PendingIsShown<D(==)>(h: Hook<D>) {
    && (h.pending.Some? ==> h.mounted && h.dirty && h.doc == h.pending)
    && (h.doc.None? ==> !h.dirty)
    && (h.pending.Some? ==> h.timer)
  }

  predicate SavesArePatched<D>(h: Hook<D>) {
    |h.sent| + (if h.dirty then 1 else 0) <= h.patches
  }

  lemma StepKeepsPending<D>(h: Hook<D>, e: Event<D>)
    requires PendingIsShown(h)
    ensures PendingIsShown(Step(h, e))
  {
  }

  lemma StepKeepsPatched<D>(h: Hook<D>, e: Event<D>)
    requires PendingIsShown(h) && SavesArePatched(h)
    ensures SavesArePatched(Step(h, e))
  {
  }

  lemma {:induction false} ExecKeepsPending<D>(h: Hook<D>, es: seq<Event<D>>)
    requires PendingIsShown(h) && SavesArePatched(h)
    ensures PendingIsShown(Exec(h, es)) && SavesArePatched(Exec(h, es))
    decreases |es|
  {
    if es != [] {
      StepKeepsPending(h, es[0]);
      StepKeepsPatched(h, es[0]);
      ExecKeepsPending(Step(h, es[0]), es[1..]);
    }
  }

  lemma {:induction false} ExecCountsPatches<D>(h: Hook<D>, es: seq<Event<D>>)
    requires forall e :: e in es ==> !e.Patch?
    ensures Exec(h, es).patches == h.patches
    decreases |es|
  {
    if es != [] {
      assert es[0] in es;
      ExecCountsPatches(Step(h, es[0]), es[1..]);
    }
  }

  /** No save without a patch: whatever loads, resets and timers do, opening the page never writes. */
  lemma LoadingNeverSaves<D>(backend: D, es: seq<Event<D>>)
    ensures |Exec(Mounted(backend), es).sent| <= Exec(Mounted(backend), es).patches
    ensures (forall e :: e in es ==> !e.Patch?) ==> Exec(Mounted(backend), es).sent == []
  {
    ExecKeepsPending(Mounted(backend), es);
    if forall e :: e in es ==> !e.Patch? {
      ExecCountsPatches(Mounted(backend), es);
    }
  }

  /** A debounced save always sends the document that is on screen: the last patch wins. */
  lemma TimerSendsWhatIsShown<D>(backend: D, es: seq<Event<D>>)
    ensures var h := Exec(Mounted(backend), es);
      var h' := TimerStep(h);
      if h.pending.Some? then h.doc.Some? && h'.sent == h.sent + [h.doc.value] && h'.pending.None? && !h'.dirty
      else h'.sent == h.sent
  {
    ExecKeepsPending(Mounted(backend), es);
  }

  lemma {:induction false} NothingSentAfterUnmount<D>(h: Hook<D>, es: seq<Event<D>>)
    requires !h.mounted && h.pending.None?
    ensures Exec(h, es).sent == h.sent
    decreases |es|
  {
    if es != [] {
      NothingSentAfterUnmount(Step(h, es[0]), es[1..]);
    }
  }

  /** Unmounting with an edit pending sends the last document, once; nothing is sent afterwards, and nothing without one. */
  lemma UnmountFlushesOnce<D>(backend: D, es: seq<Event<D>>, later: seq<Event<D>>)
    requires Exec(Mounted(backend), es).mounted
    ensures var h := Exec(Mounted(backend), es);
      h.pending.Some? ==> h.doc == h.pending
    ensures var h := Exec(Mounted(backend), es);
      Exec(UnmountStep(h), later).sent == if h.pending.Some? then h.sent + [h.pending.value] else h.sent
  {
    ExecKeepsPending(Mounted(backend), es);
    NothingSentAfterUnmount(UnmountStep(Exec(Mounted(backend), es)), later);
  }

  lemma {:induction false} ExecConcat<D>(h: Hook<D>, a: seq<Event<D>>, b: seq<Event<D>>)
    ensures Exec(h, a + b) == Exec(Exec(h, a), b)
    decreases |a|
  {
    if a == [] {
      assert a + b == b;
    } else {
      assert (a + b)[1..] == a[1..] + b;
      ExecConcat(Step(h, a[0]), a[1..], b);
    }
  }

  lemma ExecTwo<D>(h: Hook<D>, a: Event<D>, b: Event<D>)
    ensures Exec(h, [a, b]) == Step(Step(h, a), b)
  {
    assert [a, b][1..] == [b] && [b][1..] == [];
    assert Exec(Step(h, a), [b]) == Step(Step(h, a), b);
  }

  lemma {:induction false} PatchesSaveNothing<D>(h: Hook<D>, patches: seq<Event<D>>)
    requires h.mounted && h.doc.Some? && forall e :: e in patches ==> e.Patch?
    ensures var h' := Exec(h, patches);
      h'.mounted && h'.doc.Some? && h'.sent == h.sent && h'.queue == h.queue && h'.backend == h.backend
    decreases |patches|
  {
    if patches != [] {
      assert patches[0] in patches;
      PatchesSaveNothing(Step(h, patches[0]), patches[1..]);
    }
  }

  /** Once the document is there, a burst of patches inside the debounce time is shown at once and saved once, as its last patch left it. */
  lemma BurstIsSavedOnce<D>(backend: D, es: seq<Event<D>>, patches: seq<Event<D>>, last: D)
    requires var h := Exec(Mounted(backend), es); h.mounted && h.doc.Some?
    requires forall e :: e in patches ==> e.Patch?
    ensures var h := Exec(Mounted(backend), es);
      var h' := Exec(Mounted(backend), es + patches + [Patch(last, false), TimerFires]);
      && h'.sent == h.sent + [last] && h'.queue == h.queue + [Save(last)]
      && h'.doc == Some(last) && h'.pending == None && !h'.dirty
  {
    var h := Exec(Mounted(backend), es);
    ExecConcat(Mounted(backend), es, patches);
    ExecConcat(Mounted(backend), es + patches, [Patch(last, false), TimerFires]);
    PatchesSaveNothing(h, patches);
    ExecTwo(Exec(h, patches), Patch(last, false), TimerFires);
  }

  /** A patch that hands back the very object shown is not saved. */
  lemma SameObjectIsNotSaved<D>(backend: D, es: seq<Event<D>>)
    requires var h := Exec(Mounted(backend), es); h.mounted && h.doc.Some? && h.pending.None?
    ensures var h := Exec(Mounted(backend), es);
      var h' := Exec(h, [Patch(h.doc.value, true), TimerFires]);
      h'.doc == h.doc && h'.sent == h.sent && h'.pending == None && h'.queue == h.queue
  {
    var h := Exec(Mounted(backend), es);
    ExecTwo(h, Patch(h.doc.value, true), TimerFires);
  }

  /** The first load shows what is stored; a refused one shows an error; a patch before it is dropped. */
  lemma FirstLoadShowsTheStored<D>(backend: D, early: seq<Event<D>>, after: D)
    requires forall e :: e in early ==> e.Patch? || e.TimerFires?
    ensures var shown, refused := Exec(Mounted(backend), early + [Answer(true, after)]), Exec(Mounted(backend), early + [Answer(false, after)]);
      && shown.doc == Some(backend) && !shown.dirty && !shown.error && shown.sent == [] && shown.queue == []
      && refused.doc == None && !refused.dirty && refused.error && refused.sent == []
  {
    NothingBeforeTheLoad(Mounted(backend), early);
    ExecConcat(Mounted(backend), early, [Answer(true, after)]);
    ExecConcat(Mounted(backend), early, [Answer(false, after)]);
    assert [Answer(true, after)][1..] == [] && [Answer(false, after)][1..] == [];
  }

  lemma {:induction false} NothingBeforeTheLoad<D>(h: Hook<D>, early: seq<Event<D>>)
    requires h.doc == None && !h.timer && forall e :: e in early ==> e.Patch? || e.TimerFires?
    ensures Exec(h, early) == h
    decreases |early|
  {
    if early != [] {
      assert early[0] in early;
      NothingBeforeTheLoad(h, early[1..]);
    }
  }

  /** A save answered well is stored; one refused leaves an error. Neither changes what is shown or still to be saved. */
  lemma SaveAnswered<D>(h: Hook<D>, after: D)
    requires h.queue != [] && h.queue[0].Save?
    ensures var stored, refused := Step(h, Answer(true, after)), Step(h, Answer(false, after));
      && stored.backend == h.queue[0].doc && !stored.error
      && refused.backend == after && refused.error
      && stored.doc == refused.doc == h.doc && stored.pending == refused.pending == h.pending
      && stored.dirty == refused.dirty == h.dirty && stored.sent == refused.sent == h.sent
      && stored.queue == refused.queue == h.queue[1..]
  {
  }

  /**
    A reset granted with nothing else on its way drops the edit still pending and shows the document the
    backend reset to; a timer that still fires sends nothing. A reset refused keeps the edit and shows an error.
   */
  lemma ResetShowsTheDefaults<D>(backend: D, es: seq<Event<D>>, defaults: D, after: D)
    requires var h := Exec(Mounted(backend), es); h.mounted && h.queue == []
    ensures var h := Exec(Mounted(backend), es);
      var granted := Exec(h, [ResetAll, Answer(true, defaults)] + [Answer(true, after), TimerFires]);
      && Settled(granted) && granted.doc == Some(defaults) && granted.backend == defaults
      && granted.sent == h.sent && granted.pending == None
    ensures var h := Exec(Mounted(backend), es);
      var refused := Exec(h, [ResetAll, Answer(false, after)]);
      && refused.error && refused.doc == h.doc && refused.pending == h.pending && refused.dirty == h.dirty && refused.sent == h.sent
  {
    var h := Exec(Mounted(backend), es);
    ExecTwo(h, ResetAll, Answer(true, defaults));
    ExecTwo(h, ResetAll, Answer(false, after));
    ExecConcat(h, [ResetAll, Answer(true, defaults)], [Answer(true, after), TimerFires]);
    ExecTwo(Exec(h, [ResetAll, Answer(true, defaults)]), Answer(true, after), TimerFires);
  }

  // ---------------------------------------------------------------- when the screen and the backend agree

  predicate Loads<D>(r: Request<D>) {
    r.MountLoad? || r.Reload?
  }

  /** A load is on its way and its answer will replace what is shown. */
  predicate Loading<D>(h: Hook<D>) {
    exists i :: 0 <= i < |h.queue| && Loads(h.queue[i])
  }

  predicate NoSaveBehindLoad<D>(queue: seq<Request<D>>) {
    forall i, j :: 0 <= i < j < |queue| && Loads(queue[i]) ==> !queue[j].Save?
  }

  predicate LoadedFirst<D>(h: Hook<D>) {
    forall i :: 0 <= i < |h.queue| && h.queue[i].MountLoad? ==> i == 0 && (h.mounted ==> h.doc.None?)
  }

  /** What a clean screen owes to the requests still on their way, or to the last answer. */
  predicate Agrees<D(==)>(h: Hook<D>) {
    h.mounted && h.doc.Some? && !h.dirty ==>
      if h.queue == [] then h.error || h.doc.value == h.backend
      else Lists.Last(h.queue).Save? ==> Lists.Last(h.queue).doc == h.doc.value
  }

  predicate SyncInv<D(==)>(h: Hook<D>) {
    PendingIsShown(h) && LoadedFirst(h) && (h.mounted ==> NoSaveBehindLoad(h.queue)) && Agrees(h)
  }

  /** The one step that can go wrong: a save dispatched while a load is on its way. */
  predicate SavesAcrossLoad<D>(h: Hook<D>, e: Event<D>) {
    e.TimerFires? && h.mounted && h.pending.Some? && Loading(h)
  }

  lemma TailKeepsOrder<D>(h: Hook<D>)
    requires SyncInv(h) && h.queue != []
    ensures var rest := h.queue[1..];
      && (forall i :: 0 <= i < |rest| ==> !rest[i].MountLoad?)
      && (h.mounted ==> NoSaveBehindLoad(rest))
      && (rest != [] ==> Lists.Last(rest) == Lists.Last(h.queue))
      && (rest != [] && Loads(h.queue[0]) && h.mounted ==> !Lists.Last(h.queue).Save?)
  {
  }

  lemma LoadAnswerKeepsSync<D>(h: Hook<D>, ok: bool, after: D)
    requires SyncInv(h) && h.queue != [] && Loads(h.queue[0])
    ensures SyncInv(AnswerStep(h, ok, after))
  {
    TailKeepsOrder(h);
  }

  lemma SaveAnswerKeepsSync<D>(h: Hook<D>, ok: bool, after: D)
    requires SyncInv(h) && h.queue != [] && h.queue[0].Save?
    ensures SyncInv(AnswerStep(h, ok, after))
  {
    TailKeepsOrder(h);
  }

  lemma ResetAnswerKeepsSync<D>(h: Hook<D>, ok: bool, after: D)
    requires SyncInv(h) && h.queue != [] && h.queue[0].ResetConfig?
    ensures SyncInv(AnswerStep(h, ok, after))
  {
    TailKeepsOrder(h);
    if ok {
      assert Lists.Last(h.queue[1..] + [Reload]) == Reload;
    }
  }

  lemma AnswerKeepsSync<D>(h: Hook<D>, ok: bool, after: D)
    requires SyncInv(h)
    ensures SyncInv(AnswerStep(h, ok, after))
  {
    if h.queue != [] {
      match h.queue[0]
      case Save(_) => SaveAnswerKeepsSync(h, ok, after);
      case ResetConfig => ResetAnswerKeepsSync(h, ok, after);
      case _ => LoadAnswerKeepsSync(h, ok, after);
    }
  }

  lemma StepKeepsSync<D>(h: Hook<D>, e: Event<D>)
    requires SyncInv(h) && !SavesAcrossLoad(h, e)
    ensures SyncInv(Step(h, e))
  {
    match e
    case Answer(ok, after) => AnswerKeepsSync(h, ok, after);
    case _ =>
  }

  /** No step of the run dispatches a save across a load. */
  predicate SafeRun<D(==)>(h: Hook<D>, es: seq<Event<D>>)
    decreases |es|
  {
    es == [] || (!SavesAcrossLoad(h, es[0]) && SafeRun(Step(h, es[0]), es[1..]))
  }

  lemma {:induction false} ExecKeepsSync<D>(h: Hook<D>, es: seq<Event<D>>)
    requires SyncInv(h) && SafeRun(h, es)
    ensures SyncInv(Exec(h, es))
    decreases |es|
  {
    if es != [] {
      StepKeepsSync(h, es[0]);
      ExecKeepsSync(Step(h, es[0]), es[1..]);
    }
  }

  /** Nothing edited, nothing on its way, and no error shown. */
  predicate Settled<D>(h: Hook<D>) {
    h.mounted && h.doc.Some? && !h.dirty && h.queue == [] && !h.error
  }

  /** In a run that saves nothing across a load, a settled screen shows what the backend holds. */
  lemma SettledMeansSaved<D>(backend: D, es: seq<Event<D>>)
    requires SafeRun(Mounted(backend), es)
    ensures Settled(Exec(Mounted(backend), es)) ==>
      Exec(Mounted(backend), es).doc.value == Exec(Mounted(backend), es).backend
  {
    ExecKeepsSync(Mounted(backend), es);
  }

  /** The document is being fetched again after a reset. */
  predicate Reloading<D>(h: Hook<D>) {
    exists i :: 0 <= i < |h.queue| && h.queue[i].Reload?
  }

  /** No patch between the answer to a reset and the answer to its reload. */
  predicate NoPatchWhileReloading<D(==)>(h: Hook<D>, es: seq<Event<D>>)
    decreases |es|
  {
    es == [] || (!(es[0].Patch? && Reloading(h)) && NoPatchWhileReloading(Step(h, es[0]), es[1..]))
  }

  predicate NothingPendingWhileReloading<D>(h: Hook<D>) {
    Reloading(h) && h.mounted ==> h.pending.None? && !h.dirty
  }

  lemma ReloadingBefore<D>(h: Hook<D>, e: Event<D>)
    requires Reloading(Step(h, e)) && !Reloading(h)
    ensures e.Answer? && e.ok && h.queue != [] && h.queue[0].ResetConfig?
  {
    assert forall j :: 0 <= j < |h.queue| ==> !h.queue[j].Reload?;
    if e.Answer? && !(e.ok && h.queue != [] && h.queue[0].ResetConfig?) {
      NoNewReload(h, e.ok, e.after);
    }
  }

  /** Only a reset that was granted asks for a reload. */
  lemma NoNewReload<D>(h: Hook<D>, ok: bool, after: D)
    requires !Reloading(h) && !(ok && h.queue != [] && h.queue[0].ResetConfig?)
    ensures !Reloading(AnswerStep(h, ok, after))
  {
    assert forall j :: 0 <= j < |h.queue| ==> !h.queue[j].Reload?;
  }

  /** Until the first load answers there is nothing to patch. */
  lemma StepKeepsLoadedFirst<D>(h: Hook<D>, e: Event<D>)
    requires PendingIsShown(h) && LoadedFirst(h)
    ensures LoadedFirst(Step(h, e))
  {
    if e.Answer? && h.queue != [] {
      assert forall i :: 0 <= i < |h.queue[1..]| ==> !h.queue[1..][i].MountLoad?;
    }
  }

  lemma {:induction false} QuietReloadsAreSafe<D>(h: Hook<D>, es: seq<Event<D>>)
    requires PendingIsShown(h) && LoadedFirst(h) && NothingPendingWhileReloading(h) && NoPatchWhileReloading(h, es)
    ensures SafeRun(h, es)
    decreases |es|
  {
    if es != [] {
      var h' := Step(h, es[0]);
      StepKeepsPending(h, es[0]);
      StepKeepsLoadedFirst(h, es[0]);
      assert NothingPendingWhileReloading(h') by {
        if Reloading(h') && !Reloading(h) {
          ReloadingBefore(h, es[0]);
        }
      }
      QuietReloadsAreSafe(h', es[1..]);
    }
  }

  /** The rule a caller can follow: leave the form alone while a reset reloads it. */
  lemma NoPatchWhileReloadingMeansSaved<D>(backend: D, es: seq<Event<D>>)
    requires NoPatchWhileReloading(Mounted(backend), es)
    ensures Settled(Exec(Mounted(backend), es)) ==>
      Exec(Mounted(backend), es).doc.value == Exec(Mounted(backend), es).backend
  {
    QuietReloadsAreSafe(Mounted(backend), es);
    SettledMeansSaved(backend, es);
  }

  /** Without the rule the screen and the backend can part for good: an edit saved behind the reload is overwritten on screen. */
  lemma EditDuringReloadIsLostOnScreen()
    ensures var es := [Answer(true, 0), ResetAll, Answer(true, 1), Patch(7, false), TimerFires, Answer(true, 0), Answer(true, 0)];
      var h := Exec(Mounted(5), es);
      Settled(h) && h.doc == Some(1) && h.backend == 7
  {
    var h1 := Step(Mounted(5), Answer(true, 0));
    var h2 := Step(h1, ResetAll);
    var h3 := Step(h2, Answer(true, 1));
    var h4 := Step(h3, Patch(7, false));
    var h5 := Step(h4, TimerFires);
    var h6 := Step(h5, Answer(true, 0));
    var h7 := Step(h6, Answer(true, 0));
    assert h7.doc == Some(1) && h7.backend == 7 && Settled(h7);
    var es := [Answer(true, 0), ResetAll, Answer(true, 1), Patch(7, false), TimerFires, Answer(true, 0), Answer(true, 0)];
    assert Exec(Mounted(5), es) == Exec(h1, es[1..]) == Exec(h2, es[2..]) == Exec(h3, es[3..]);
    assert Exec(h3, es[3..]) == Exec(h4, es[4..]) == Exec(h5, es[5..]) == Exec(h6, es[6..]) == Exec(h7, es[7..]);
  }

  // ---------------------------------------------------------------- exactly when a save parts them

  predicate ResetWaits<D>(queue: seq<Request<D>>) {
    exists i :: 0 <= i < |queue| && queue[i].ResetConfig?
  }

  /** What the backend holds once it has taken every save of the queue. */
  function Stored<D>(queue: seq<Request<D>>, backend: D): D {
    if queue == [] then backend else Stored(queue[1..], if queue[0].Save? then queue[0].doc else backend)
  }

  /** What the last load of the queue brings back; `shown` if the queue has none. */
  function Brought<D>(queue: seq<Request<D>>, backend: D, shown: Option<D>): Option<D> {
    if queue == [] then shown
    else
      Brought(queue[1..], if queue[0].Save? then queue[0].doc else backend, if Loads(queue[0]) then Some(backend) else shown)
  }

  /** Requests are only answered, and none is refused; a reset may leave any document behind. */
  predicate OnlyOk<D>(es: seq<Event<D>>) {
    forall i :: 0 <= i < |es| ==> es[i].Answer? && es[i].ok
  }

  predicate CleanAndShown<D>(h: Hook<D>) {
    h.mounted && h.doc.Some? && !h.dirty && (h.queue == [] ==> !h.error)
  }

  /** Whatever is shown now, a load that comes after every save and reset will bring the backend's document. */
  predicate Resyncs<D(==)>(h: Hook<D>) {
    ResetWaits(h.queue) || (if h.queue == [] then h.doc == Some(h.backend) else Loads(Lists.Last(h.queue)))
  }

  lemma AnswerKeepsClean<D>(h: Hook<D>, after: D)
    requires CleanAndShown(h)
    ensures CleanAndShown(AnswerStep(h, true, after))
  {
  }

  lemma AnswerResyncs<D>(h: Hook<D>, after: D)
    requires CleanAndShown(h) && Resyncs(h)
    ensures Resyncs(AnswerStep(h, true, after))
  {
    if h.queue != [] && h.queue[0].ResetConfig? {
      assert Lists.Last(h.queue[1..] + [Reload]) == Reload;
    }
  }

  lemma {:induction false} DrainResyncs<D>(h: Hook<D>, es: seq<Event<D>>)
    requires CleanAndShown(h) && Resyncs(h) && OnlyOk(es)
    ensures CleanAndShown(Exec(h, es)) && Resyncs(Exec(h, es))
    decreases |es|
  {
    if es != [] {
      AnswerKeepsClean(h, es[0].after);
      AnswerResyncs(h, es[0].after);
      DrainResyncs(Step(h, es[0]), es[1..]);
    }
  }

  /** Without a reset waiting, answering everything stores the last save and shows what the last load brings. */
  lemma {:induction false} DrainStoresAndShows<D>(h: Hook<D>, es: seq<Event<D>>)
    requires CleanAndShown(h) && !ResetWaits(h.queue) && OnlyOk(es)
    requires Exec(h, es).queue == []
    ensures var f := Exec(h, es);
      CleanAndShown(f) && f.backend == Stored(h.queue, h.backend) && f.doc == Brought(h.queue, h.backend, h.doc)
    decreases |es|
  {
    if es != [] {
      AnswerKeepsClean(h, es[0].after);
      DrainStoresAndShows(Step(h, es[0]), es[1..]);
    }
  }

  lemma {:induction false} StoredLast<D>(queue: seq<Request<D>>, backend: D, d: D, shown: Option<D>)
    ensures Stored(queue + [Save(d)], backend) == d
    ensures Brought(queue + [Save(d)], backend, shown) == Brought(queue, backend, shown)
  {
    if queue != [] {
      assert (queue + [Save(d)])[1..] == queue[1..] + [Save(d)];
      StoredLast(queue[1..], if queue[0].Save? then queue[0].doc else backend, d,
                 if Loads(queue[0]) then Some(backend) else shown);
    } else {
      assert ([Save(d)])[1..] == [];
    }
  }

  lemma {:induction false} BroughtByNone<D>(queue: seq<Request<D>>, backend: D, shown: Option<D>)
    ensures (forall i :: 0 <= i < |queue| ==> !Loads(queue[i])) ==> Brought(queue, backend, shown) == shown
    ensures (exists i :: 0 <= i < |queue| && Loads(queue[i])) ==>
      Brought(queue, backend, shown) == Brought(queue, backend, None)
  {
    if queue != [] {
      var b := if queue[0].Save? then queue[0].doc else backend;
      if Loads(queue[0]) {
        BroughtByNone(queue[1..], b, Some(backend));
      } else {
        BroughtByNone(queue[1..], b, shown);
        if i :| 0 <= i < |queue| && Loads(queue[i]) {
          assert Loads(queue[1..][i - 1]);
        }
      }
    }
  }

  /** The document the queue's last load will bring, asked before a save is dispatched. */
  function WillBring<D>(h: Hook<D>): Option<D> {
    Brought(h.queue, h.backend, None)
  }

  /**
    After any run, dispatch the pending save and let every request be answered: the form settles, and
    it shows what is stored exactly when, at the dispatch, no load was on its way, or a reset was still
    waiting, or the load was going to bring the very document saved.
   */
  lemma SaveKeepsInStepExactly<D>(stored: D, es: seq<Event<D>>, answers: seq<Event<D>>)
    requires var h := Exec(Mounted(stored), es); h.mounted && h.timer && h.pending.Some?
    requires OnlyOk(answers) && Exec(TimerStep(Exec(Mounted(stored), es)), answers).queue == []
    ensures var h := Exec(Mounted(stored), es);
      var f := Exec(TimerStep(h), answers);
      && Settled(f)
      && (f.doc.value == f.backend <==> !Loading(h) || ResetWaits(h.queue) || WillBring(h) == h.pending)
  {
    ExecKeepsPending(Mounted(stored), es);
    var h := Exec(Mounted(stored), es);
    var h1 := TimerStep(h);
    var d := h.pending.value;
    assert h1.queue == h.queue + [Save(d)] && h1.queue != [];
    if ResetWaits(h.queue) {
      ResetStillWaits(h.queue, Save(d));
      DrainResyncs(h1, answers);
    } else {
      DrainStoresAndShows(h1, answers);
      StoredLast(h.queue, h.backend, d, h.doc);
      BroughtByNone(h.queue, h.backend, h.doc);
    }
  }

  lemma ResetStillWaits<D>(queue: seq<Request<D>>, r: Request<D>)
    requires ResetWaits(queue)
    ensures ResetWaits(queue + [r])
  {
    var i :| 0 <= i < |queue| && queue[i].ResetConfig?;
    assert (queue + [r])[i].ResetConfig?;
  }

  /** Such a run of answers always exists: every request is answered and every reset reloaded. */
  function Owed<D>(queue: seq<Request<D>>): nat {
    if queue == [] then 0 else (if queue[0].ResetConfig? then 2 else 1) + Owed(queue[1..])
  }

  lemma {:induction false} OwedMore<D>(queue: seq<Request<D>>, r: Request<D>)
    ensures Owed(queue + [r]) == Owed(queue) + if r.ResetConfig? then 2 else 1
  {
    if queue != [] {
      assert (queue + [r])[1..] == queue[1..] + [r];
      OwedMore(queue[1..], r);
    } else {
      assert ([r])[1..] == [];
    }
  }

  function Answers<D>(n: nat, after: D): seq<Event<D>> {
    seq(n, i => Answer(true, after))
  }

  lemma {:induction false} AnswersDrain<D>(h: Hook<D>, after: D)
    ensures Exec(h, Answers(Owed(h.queue), after)).queue == []
    decreases Owed(h.queue)
  {
    if h.queue != [] {
      var all := Answers(Owed(h.queue), after);
      var h1 := Step(h, Answer(true, after));
      if h.queue[0].ResetConfig? {
        OwedMore(h.queue[1..], Reload);
      }
      assert all[1..] == Answers(Owed(h1.queue), after);
      AnswersDrain(h1, after);
    }
  }

  // ---------------------------------------------------------------- the hook itself

  /** The refs and state of the mounted hook, with the channel to the backend. */
  class AutosaveHook<D(==)> {
    var doc: Option<D>
    var dirtyRef: bool
    var pendingRef: Option<D>
    var timer: bool
    var error: bool
    var mounted: bool
    var queue: seq<Request<D>>
    var backend: D
    var sent: seq<D>
    var patches: nat

    function Snapshot(): Hook<D>
      reads this
    {
      Hook(doc, dirtyRef, pendingRef, timer, error, mounted, queue, backend, sent, patches)
    }

    constructor (stored: D)
      ensures Snapshot() == Mounted(stored)
    {
      doc, dirtyRef, pendingRef, timer := None, false, None, false;
      error, mounted, queue, backend := false, true, [MountLoad], stored;
      sent, patches := [], 0;
    }

    method Flush()
      modifies this
      ensures Snapshot() == SendPending(old(Snapshot()))
    {
      if pendingRef.None? {
        return;
      }
      var payload := pendingRef.value;
      dirtyRef := false;
      pendingRef := None;
      queue := queue + [Save(payload)];
      sent := sent + [payload];
    }

    /** `setDoc`, then the debounce effect: the old timer is cleared, a new one set if the document is dirty. */
    method SetDoc(next: D)
      modifies this
      ensures Snapshot() == ShowDoc(old(Snapshot()), next)
    {
      if !mounted {
        return;
      }
      doc := Some(next);
      timer := false;
      if dirtyRef {
        pendingRef := doc;
        timer := true;
      }
    }

    method PatchDoc(next: D, sameReference: bool)
      modifies this
      ensures Snapshot() == Step(old(Snapshot()), Patch(next, sameReference))
    {
      if !mounted || doc.None? {
        return;
      }
      dirtyRef := true;
      patches := patches + 1;
      if !(sameReference && next == doc.value) {
        SetDoc(next);
      }
    }

    method OnTimer()
      modifies this
      ensures Snapshot() == Step(old(Snapshot()), TimerFires)
    {
      if mounted && timer {
        timer := false;
        Flush();
      }
    }

    method OnUnmount()
      modifies this
      ensures Snapshot() == Step(old(Snapshot()), Unmount)
    {
      if !mounted {
        return;
      }
      mounted := false;
      timer := false;
      if dirtyRef && pendingRef.Some? {
        Flush();
      }
    }

    method OnAnswer(ok: bool, after: D)
      modifies this
      ensures Snapshot() == Step(old(Snapshot()), Answer(ok, after))
    {
      if queue == [] {
        return;
      }
      var request := queue[0];
      queue := queue[1..];
      if !ok {
        error := true;
        if request.Save? || request.ResetConfig? {
          backend := after;
        }
        return;
      }
      match request {
        case Save(d) =>
          backend := d;
          error := false;
        case ResetConfig =>
          backend := after;
          dirtyRef := false;
          pendingRef := None;
          queue := queue + [Reload];
        case _ =>
          error := false;
          SetDoc(backend);
      }
    }
  }
}
