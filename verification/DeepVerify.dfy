/**
  The deep-verify pass of `useDeepVerify`: up to three async slots share one cursor, a set
  of counters, a cancel flag and a run-generation token.

  Every stretch of code between two `await`s is one atomic step, so a behaviour of the hook
  is a sequence of steps in any order: `Start`, `Cancel` and `Reset` by the user, `Settle`
  when the backend answers one slot's comparison, `Finish` when `Promise.all` resumes.
  Runs that were superseded stay in `runs`, because their calls still settle.
 */
module DeepVerify {
  import opened Common
  import opened WorkLists

  datatype Status = Pending | Running | Verified | Mismatch | Error
  datatype FileResult = FileResult(fileId: int, path: string, status: Status, errorMessage: Option<string>)

  /** What the backend says about one pair of files. */
  datatype Answer = Identical | Different | Rejected(message: string)

  datatype Phase = Idle | Busy | Done | Cancelled
  datatype Progress = Progress(current: nat, total: nat, percent: int, currentFile: Option<string>)
  datatype Summary = Summary(total: nat, verified: nat, mismatches: nat, errors: nat)
  datatype Ui = Ui(phase: Phase, progress: Option<Progress>, results: map<int, FileResult>, summary: Option<Summary>)

  /** A slot is parked at its `await` on one item, or its loop has ended. */
  datatype Slot = InFlight(item: nat) | Ended

  /** The closure of one `start` call. `answers` is a history variable: what each settled item was told. */
  datatype Run = Run(id: nat, work: seq<WorkItem>, cursor: nat, answers: map<nat, Answer>,
                     completed: nat, verified: nat, mismatches: nat, errors: nat,
                     slots: seq<Slot>, returned: bool)

  datatype Hook = Hook(runId: nat, cancelled: bool, ui: Ui, runs: seq<Run>)

  datatype Event =
    | Start(groups: seq<Group>)
    | Settle(run: nat, slot: nat, answer: Answer)
    | Finish(run: nat)
    | Cancel
    | Reset

  const CONCURRENCY := 3

  const IDLE_UI := Ui(Idle, None, map[], None)
  const NOTHING_TO_DO_UI := Ui(Done, Some(Progress(0, 0, 100, None)), map[], Some(Summary(0, 0, 0, 0)))
  const INITIAL := Hook(0, false, IDLE_UI, [])

  // ---------------------------------------------------------------- the atomic steps

  /** `Math.round((completed / total) * 100)`, in exact arithmetic. */
  function Percent(completed: nat, total: nat): int
    requires total > 0
  {
    (200 * completed + total) / (2 * total)
  }

  function InitialResults(work: seq<WorkItem>): map<int, FileResult> {
    if work == [] then map[]
    else
      var last := work[|work| - 1];
      InitialResults(work[..|work| - 1])[last.fileId := FileResult(last.fileId, last.path, Pending, None)]
  }

  predicate Stale(h: Hook, run: Run) {
    h.runId != run.id
  }

  function StatusOf(answer: Answer): Status {
    match answer
    case Identical => Verified
    case Different => Mismatch
    case Rejected(_) => Error
  }

  function MessageOf(answer: Answer): Option<string> {
    if answer.Rejected? then Some(answer.message) else None
  }

  function ShowRunning(ui: Ui, completed: nat, total: nat, item: WorkItem): Ui
    requires total > 0
  {
    var before := if item.fileId in ui.results then ui.results[item.fileId]
                  else FileResult(item.fileId, item.path, Pending, None);
    ui.(progress := Some(Progress(completed, total, Percent(completed, total), Some(item.path))),
        results := ui.results[item.fileId := before.(status := Running)])
  }

  function ShowSettled(ui: Ui, completed: nat, total: nat, item: WorkItem, answer: Answer): Ui
    requires total > 0
  {
    ui.(progress := Some(Progress(completed, total, Percent(completed, total), None)),
        results := ui.results[item.fileId := FileResult(item.fileId, item.path, StatusOf(answer), MessageOf(answer))])
  }

  /** The slot takes the item under the cursor. */
  function Claim(run: Run, k: nat): Run
    requires k < |run.slots|
  {
    run.(cursor := run.cursor + 1, slots := run.slots[k := InFlight(run.cursor)])
  }

  function EndSlot(run: Run, k: nat): Run
    requires k < |run.slots|
  {
    run.(slots := run.slots[k := Ended])
  }

  /** Count the answer to item `item`. */
  function Tally(run: Run, item: nat, answer: Answer): Run {
    run.(completed := run.completed + 1,
         verified := run.verified + (if answer.Identical? then 1 else 0),
         mismatches := run.mismatches + (if answer.Different? then 1 else 0),
         errors := run.errors + (if answer.Rejected? then 1 else 0),
         answers := run.answers[item := answer])
  }

  predicate CanClaim(h: Hook, run: Run) {
    run.cursor < |run.work| && !h.cancelled && !Stale(h, run)
  }

  /** A slot at the head of its `while` loop: claim the next item and run up to the `await`, or end. */
  function Advance(h: Hook, r: nat, k: nat): Hook
    requires r < |h.runs| && k < |h.runs[r].slots|
  {
    var run := h.runs[r];
    if CanClaim(h, run) then
      h.(runs := h.runs[r := Claim(run, k)],
         ui := ShowRunning(h.ui, run.completed, |run.work|, run.work[run.cursor]))
    else
      h.(runs := h.runs[r := EndSlot(run, k)])
  }

  /** Open one more slot of run `r`; it runs at once up to its first `await`. */
  function OpenSlot(h: Hook, r: nat): Hook
    requires r < |h.runs|
  {
    var run := h.runs[r];
    Advance(h.(runs := h.runs[r := run.(slots := run.slots + [Ended])]), r, |run.slots|)
  }

  function OpenSlots(h: Hook, r: nat, n: nat): (h': Hook)
    requires r < |h.runs|
    ensures |h'.runs| == |h.runs|
  {
    if n == 0 then h else OpenSlot(OpenSlots(h, r, n - 1), r)
  }

  function SlotCount(work: seq<WorkItem>): nat {
    if |work| < CONCURRENCY then |work| else CONCURRENCY
  }

  /** `start` up to the point where its slots are about to open. */
  function Prepared(h: Hook, work: seq<WorkItem>): Hook {
    Hook(h.runId + 1, false,
         Ui(Busy, Some(Progress(0, |work|, 0, None)), InitialResults(work), None),
         h.runs + [Run(h.runId + 1, work, 0, map[], 0, 0, 0, 0, [], false)])
  }

  function StartStep(h: Hook, groups: seq<Group>): Hook {
    var work := WorkList(groups);
    if work == [] then h.(runId := h.runId + 1, cancelled := false, ui := NOTHING_TO_DO_UI)
    else OpenSlots(Prepared(h, work), |h.runs|, SlotCount(work))
  }

  predicate AwaitsAnswer(h: Hook, r: nat, k: nat) {
    r < |h.runs| && k < |h.runs[r].slots| && h.runs[r].slots[k].InFlight?
    && h.runs[r].slots[k].item < |h.runs[r].work|
  }

  function SettleStep(h: Hook, r: nat, k: nat, answer: Answer): Hook {
    if !AwaitsAnswer(h, r, k) then h
    else
      var item := h.runs[r].slots[k].item;
      var run := EndSlot(Tally(h.runs[r], item, answer), k);
      if Stale(h, run) then
        h.(runs := h.runs[r := run])
      else
        Advance(h.(runs := h.runs[r := run],
                   ui := ShowSettled(h.ui, run.completed, |run.work|, run.work[item], answer)), r, k)
  }

  predicate AllEnded(run: Run) {
    forall k :: 0 <= k < |run.slots| ==> run.slots[k].Ended?
  }

  predicate CanFinish(h: Hook, r: nat) {
    r < |h.runs| && !h.runs[r].returned && AllEnded(h.runs[r]) && |h.runs[r].work| > 0
  }

  function FinishStep(h: Hook, r: nat): Hook {
    if !CanFinish(h, r) then h
    else
      var run := h.runs[r];
      var h' := h.(runs := h.runs[r := run.(returned := true)]);
      if Stale(h, run) then h'
      else
        var percent := if h.cancelled then Percent(run.completed, |run.work|) else 100;
        h'.(ui := h.ui.(phase := if h.cancelled then Cancelled else Done,
                        progress := Some(Progress(run.completed, |run.work|, percent, None)),
                        summary := Some(Summary(run.completed, run.verified, run.mismatches, run.errors))))
  }

  function ResetStep(h: Hook): Hook {
    h.(runId := h.runId + 1, cancelled := false, ui := IDLE_UI)
  }

  function Step(h: Hook, e: Event): Hook {
    match e
    case Start(groups) => StartStep(h, groups)
    case Settle(r, k, answer) => SettleStep(h, r, k, answer)
    case Finish(r) => FinishStep(h, r)
    case Cancel => h.(cancelled := true)
    case Reset => ResetStep(h)
  }

  function Exec(h: Hook, es: seq<Event>): Hook
    decreases |es|
  {
    if es == [] then h else Exec(Step(h, es[0]), es[1..])
  }

  // ---------------------------------------------------------------- what every interleaving keeps

  function InFlightCount(slots: seq<Slot>): nat {
    if slots == [] then 0
    else InFlightCount(slots[..|slots| - 1]) + if slots[|slots| - 1].InFlight? then 1 else 0
  }

  lemma {:induction false} InFlightCountUpdate(slots: seq<Slot>, k: nat, s: Slot)
    requires k < |slots|
    ensures InFlightCount(slots[k := s]) + (if slots[k].InFlight? then 1 else 0)
         == InFlightCount(slots) + (if s.InFlight? then 1 else 0)
  {
    var front := slots[..|slots| - 1];
    if k == |slots| - 1 {
      assert slots[k := s][..|slots| - 1] == front;
    } else {
      InFlightCountUpdate(front, k, s);
      assert slots[k := s][..|slots| - 1] == front[k := s];
    }
  }

  lemma {:induction false} InFlightCountBound(slots: seq<Slot>)
    ensures InFlightCount(slots) <= |slots|
    ensures InFlightCount(slots) == 0 <==> forall k :: 0 <= k < |slots| ==> slots[k].Ended?
  {
    if slots != [] {
      var front := slots[..|slots| - 1];
      InFlightCountBound(front);
      assert forall k :: 0 <= k < |front| ==> slots[k] == front[k];
    }
  }

  /** What a status says of an answer. */
  predicate Says(status: Status, answer: Answer) {
    match status
    case Verified => answer.Identical?
    case Mismatch => answer.Different?
    case Error => answer.Rejected?
    case _ => false
  }

  /** What an entry of the list says of an answer, the message of a refusal included. */
  predicate Tells(shown: FileResult, answer: Answer) {
    Says(shown.status, answer) && shown.errorMessage == if answer.Rejected? then Some(answer.message) else None
  }

  function WithStatus(answers: map<nat, Answer>, status: Status): set<nat> {
    set i | i in answers && Says(status, answers[i])
  }

  lemma WithStatusAdd(answers: map<nat, Answer>, item: nat, answer: Answer, status: Status)
    requires item !in answers
    ensures |WithStatus(answers[item := answer], status)|
         == |WithStatus(answers, status)| + if Says(status, answer) then 1 else 0
  {
    var more := if Says(status, answer) then {item} else {};
    assert WithStatus(answers[item := answer], status) == WithStatus(answers, status) + more;
  }

  /** The counters count the answers. */
  ghost predicate Tallied(run: Run) {
    && run.completed == |run.answers| == run.verified + run.mismatches + run.errors
    && run.verified == |WithStatus(run.answers, Verified)|
    && run.mismatches == |WithStatus(run.answers, Mismatch)|
    && run.errors == |WithStatus(run.answers, Error)|
  }

  /** Nothing is claimed twice: what is claimed is answered or waiting in exactly one slot. */
  ghost predicate ClaimedOnce(run: Run) {
    && (forall i :: i in run.answers ==> i < run.cursor)
    && (forall k :: 0 <= k < |run.slots| && run.slots[k].InFlight? ==>
          run.slots[k].item < run.cursor && run.slots[k].item !in run.answers)
    && (forall k, l :: 0 <= k < l < |run.slots| && run.slots[k].InFlight? && run.slots[l].InFlight? ==>
          run.slots[k].item != run.slots[l].item)
  }

  /** The shared cursor, counters and slots agree: nothing claimed is lost. */
  ghost predicate Conserved(run: Run) {
    && run.cursor <= |run.work|
    && run.cursor == run.completed + InFlightCount(run.slots)
    && Tallied(run)
    && ClaimedOnce(run)
  }

  lemma ClaimConserves(run: Run, k: nat)
    requires Conserved(run) && k < |run.slots| && run.slots[k].Ended? && run.cursor < |run.work|
    ensures Conserved(Claim(run, k))
  {
    InFlightCountUpdate(run.slots, k, InFlight(run.cursor));
  }

  lemma TallyConserves(run: Run, k: nat, answer: Answer)
    requires Conserved(run) && k < |run.slots| && run.slots[k].InFlight?
    ensures Conserved(EndSlot(Tally(run, run.slots[k].item, answer), k))
  {
    var item := run.slots[k].item;
    var run' := EndSlot(Tally(run, item, answer), k);
    InFlightCountUpdate(run.slots, k, Ended);
    assert Tallied(run') by {
      WithStatusAdd(run.answers, item, answer, Verified);
      WithStatusAdd(run.answers, item, answer, Mismatch);
      WithStatusAdd(run.answers, item, answer, Error);
    }
  }

  lemma OpenConserves(run: Run)
    requires Conserved(run)
    ensures Conserved(run.(slots := run.slots + [Ended]))
  {
    assert (run.slots + [Ended])[..|run.slots|] == run.slots;
  }

  /** What the list must show for item `i` of a run that owns the visible state. */
  function Shown(run: Run, i: nat): FileResult
    requires i < |run.work|
  {
    var item := run.work[i];
    if i in run.answers then FileResult(item.fileId, item.path, StatusOf(run.answers[i]), MessageOf(run.answers[i]))
    else FileResult(item.fileId, item.path, if i < run.cursor then Running else Pending, None)
  }

  function FileIds(work: seq<WorkItem>): set<int> {
    set i | 0 <= i < |work| :: work[i].fileId
  }

  /** The list has one entry for each file of the run, and with distinct ids the entry is the one `Shown`. */
  ghost predicate ResultsShown(results: map<int, FileResult>, run: Run) {
    results.Keys == FileIds(run.work) && (DistinctIds(run.work) ==> EntriesShown(results, run))
  }

  ghost predicate EntriesShown(results: map<int, FileResult>, run: Run) {
    forall i :: 0 <= i < |run.work| ==> run.work[i].fileId in results && results[run.work[i].fileId] == Shown(run, i)
  }

  lemma ClaimShows(run: Run, k: nat, i: nat)
    requires Conserved(run) && k < |run.slots| && run.cursor < |run.work| && i < |run.work|
    ensures Shown(Claim(run, k), i) == if i == run.cursor then Shown(run, i).(status := Running) else Shown(run, i)
  {
    assert ClaimedOnce(run);
  }

  lemma SettleShows(run: Run, k: nat, item: nat, answer: Answer, i: nat)
    requires k < |run.slots| && item < |run.work| && i < |run.work|
    ensures var id, path := run.work[i].fileId, run.work[i].path;
      Shown(EndSlot(Tally(run, item, answer), k), i) ==
        if i == item then FileResult(id, path, StatusOf(answer), MessageOf(answer)) else Shown(run, i)
  {
  }

  /** Changing the one entry that changes keeps the list right. */
  lemma OneEntryChanges(results: map<int, FileResult>, run: Run, run': Run, item: nat, shown: FileResult)
    requires ResultsShown(results, run) && run'.work == run.work && item < |run.work|
    requires forall i :: 0 <= i < |run.work| ==> Shown(run', i) == if i == item then shown else Shown(run, i)
    ensures ResultsShown(results[run.work[item].fileId := shown], run')
  {
    var after := results[run.work[item].fileId := shown];
    assert run.work[item].fileId in FileIds(run.work);
    assert after.Keys == results.Keys;
    if DistinctIds(run.work) {
      forall i | 0 <= i < |run.work|
        ensures run.work[i].fileId in after && after[run.work[i].fileId] == Shown(run', i)
      {
        assert results[run.work[i].fileId] == Shown(run, i);
      }
    }
  }

  lemma ClaimShown(ui: Ui, run: Run, k: nat)
    requires Conserved(run) && k < |run.slots| && run.cursor < |run.work| && ResultsShown(ui.results, run)
    ensures ResultsShown(ShowRunning(ui, run.completed, |run.work|, run.work[run.cursor]).results, Claim(run, k))
  {
    var id := run.work[run.cursor].fileId;
    assert id in FileIds(run.work);
    var shown := ui.results[id].(status := Running);
    if DistinctIds(run.work) {
      forall i | 0 <= i < |run.work|
        ensures Shown(Claim(run, k), i) == if i == run.cursor then shown else Shown(run, i)
      {
        ClaimShows(run, k, i);
        assert ui.results[run.work[run.cursor].fileId] == Shown(run, run.cursor);
      }
      OneEntryChanges(ui.results, run, Claim(run, k), run.cursor, shown);
    }
    assert ui.results[id := shown].Keys == ui.results.Keys;
  }

  lemma SettleShown(ui: Ui, run: Run, k: nat, answer: Answer)
    requires Conserved(run) && k < |run.slots| && run.slots[k].InFlight? && ResultsShown(ui.results, run)
    ensures var item := run.slots[k].item;
      ResultsShown(ShowSettled(ui, run.completed + 1, |run.work|, run.work[item], answer).results,
                   EndSlot(Tally(run, item, answer), k))
  {
    var item := run.slots[k].item;
    assert ClaimedOnce(run);
    var id, path := run.work[item].fileId, run.work[item].path;
    var shown := FileResult(id, path, StatusOf(answer), MessageOf(answer));
    forall i | 0 <= i < |run.work|
      ensures Shown(EndSlot(Tally(run, item, answer), k), i) == if i == item then shown else Shown(run, i)
    {
      SettleShows(run, k, item, answer, i);
    }
    OneEntryChanges(ui.results, run, EndSlot(Tally(run, item, answer), k), item, shown);
  }

  /** The bar counts the answers, and the file it names is the last one claimed, still being compared. */
  predicate ProgressShown(ui: Ui, run: Run) {
    && ui.progress.Some?
    && var p := ui.progress.value;
    && p.current == run.completed && p.total == |run.work| > 0
    && p.percent == Percent(run.completed, |run.work|)
    && (p.currentFile.Some? ==>
          && 0 < run.cursor <= |run.work| && run.cursor - 1 !in run.answers
          && p.currentFile.value == run.work[run.cursor - 1].path)
  }

  lemma LargerByOne(p: nat, q: nat, d: nat)
    ensures p > q ==> p * d >= q * d + d
  {
    if p > q {
      assert p * d >= (q + 1) * d == q * d + d;
    }
  }

  lemma QuotientIs(a: nat, d: nat, q: nat)
    requires d > 0 && q * d <= a < q * d + d
    ensures a / d == q
  {
    assert a == d * (a / d) + a % d && a % d < d;
    LargerByOne(a / d, q, d);
    LargerByOne(q, a / d, d);
  }

  lemma PercentEnds(total: nat)
    requires total > 0
    ensures Percent(0, total) == 0 && Percent(total, total) == 100
  {
    QuotientIs(total, 2 * total, 0);
    QuotientIs(200 * total + total, 2 * total, 100);
  }

  /** The percentage shown is within half a percent of the share answered. */
  lemma PercentIsNearest(completed: nat, total: nat)
    requires total > 0
    ensures 200 * completed - total <= 2 * (total * Percent(completed, total)) <= 200 * completed + total
  {
    var a, d := 200 * completed + total, 2 * total;
    assert a == d * (a / d) + a % d && 0 <= a % d < d;
    assert d * Percent(completed, total) == 2 * (total * Percent(completed, total));
  }

  ghost predicate PhaseShown(ui: Ui, run: Run) {
    if run.returned then
      && ui.phase in {Done, Cancelled}
      && AllEnded(run)
      && (ui.phase == Done ==> run.cursor == |run.work|)
      && ui.summary == Some(Summary(run.completed, run.verified, run.mismatches, run.errors))
      && ProgressShown(ui, run)
    else
      && ui.phase == Busy && ui.summary == None
      && ProgressShown(ui, run)
  }

  /** A slot of the uncancelled current run ends only when the work list is used up. */
  ghost predicate Drained(run: Run) {
    (exists k :: 0 <= k < |run.slots| && run.slots[k].Ended?) ==> run.cursor == |run.work|
  }

  /** While work is left, a file is named. */
  predicate NamesFile(ui: Ui, run: Run) {
    0 < run.cursor < |run.work| ==> ui.progress.Some? && ui.progress.value.currentFile.Some?
  }

  ghost predicate OwnsUi(h: Hook, run: Run) {
    && (!h.cancelled ==> Drained(run) && NamesFile(h.ui, run))
    && ResultsShown(h.ui.results, run)
    && PhaseShown(h.ui, run)
  }

  ghost predicate RunOk(h: Hook, run: Run) {
    Conserved(run) && (!Stale(h, run) ==> OwnsUi(h, run))
  }

  ghost predicate IdsOk(h: Hook) {
    && (forall r :: 0 <= r < |h.runs| ==> h.runs[r].id <= h.runId)
    && (forall r, s :: 0 <= r < s < |h.runs| ==> h.runs[r].id < h.runs[s].id)
  }

  ghost predicate RunsOk(h: Hook) {
    forall r :: 0 <= r < |h.runs| ==> RunOk(h, h.runs[r])
  }

  ghost predicate SlotsOpen(h: Hook) {
    forall r :: 0 <= r < |h.runs| ==> |h.runs[r].slots| == SlotCount(h.runs[r].work) > 0
  }

  ghost predicate Inv(h: Hook) {
    IdsOk(h) && RunsOk(h)
  }

  /** A step that touches run `r` alone, and the visible state only if `r` owns it, concerns no other run. */
  lemma OthersKept(h: Hook, h': Hook, r: nat)
    requires Inv(h) && r < |h.runs|
    requires h'.runId == h.runId && h'.cancelled == h.cancelled
    requires |h'.runs| == |h.runs| && h'.runs == h.runs[r := h'.runs[r]] && h'.runs[r].id == h.runs[r].id
    requires Stale(h, h.runs[r]) ==> h'.ui == h.ui
    requires RunOk(h', h'.runs[r])
    ensures Inv(h')
  {
    forall s | 0 <= s < |h'.runs|
      ensures RunOk(h', h'.runs[s]) && h'.runs[s].id == h.runs[s].id
    {
      if s != r {
        assert h'.runs[s] == h.runs[s];
        assert RunOk(h, h.runs[s]);
        assert h.runs[s].id != h.runs[r].id;
      }
    }
  }

  /** A slot at its loop head: all other slots of the uncancelled current run still wait, or the list is used up. */
  ghost predicate AtLoopHead(h: Hook, run: Run, k: nat) {
    && k < |run.slots| && run.slots[k].Ended?
    && Conserved(run)
    && (!Stale(h, run) ==>
          && ResultsShown(h.ui.results, run) && PhaseShown(h.ui, run) && !run.returned
          && (!h.cancelled && run.cursor < |run.work| ==>
                forall l :: 0 <= l < |run.slots| && l != k ==> run.slots[l].InFlight?))
  }

  lemma AdvanceOk(h: Hook, r: nat, k: nat)
    requires r < |h.runs| && AtLoopHead(h, h.runs[r], k)
    ensures RunOk(Advance(h, r, k), Advance(h, r, k).runs[r])
  {
    var run := h.runs[r];
    if CanClaim(h, run) {
      ClaimConserves(run, k);
      ClaimShown(h.ui, run, k);
    } else {
      assert run.slots[k := Ended] == run.slots;
      assert EndSlot(run, k) == run;
    }
  }

  /** What opening slots leaves alone. */
  predicate OnlyOpened(h: Hook, h': Hook, r: nat, n: nat)
    requires r < |h.runs|
  {
    && h'.runId == h.runId && h'.cancelled == h.cancelled && |h'.runs| == |h.runs|
    && h'.runs == h.runs[r := h'.runs[r]]
    && h'.runs[r].id == h.runs[r].id && h'.runs[r].returned == h.runs[r].returned && h'.runs[r].work == h.runs[r].work
    && |h'.runs[r].slots| == |h.runs[r].slots| + n
  }

  lemma OnlyOpenedTwice(h: Hook, mid: Hook, h': Hook, r: nat, m: nat, n: nat)
    requires r < |h.runs| && OnlyOpened(h, mid, r, m) && OnlyOpened(mid, h', r, n)
    ensures OnlyOpened(h, h', r, m + n)
  {
  }

  /** Run `r` may open slots: it owns the visible state and nothing has cancelled or ended it. */
  predicate Openable(h: Hook, r: nat) {
    r < |h.runs| && !Stale(h, h.runs[r]) && !h.cancelled && !h.runs[r].returned
  }

  lemma OpenSlotOnlyOpens(h: Hook, r: nat)
    requires r < |h.runs|
    ensures OnlyOpened(h, OpenSlot(h, r), r, 1)
  {
  }

  lemma {:induction false} OpenSlotsOnlyOpen(h: Hook, r: nat, n: nat)
    requires r < |h.runs|
    ensures OnlyOpened(h, OpenSlots(h, r, n), r, n)
  {
    if n > 0 {
      var mid := OpenSlots(h, r, n - 1);
      OpenSlotsOnlyOpen(h, r, n - 1);
      OpenSlotOnlyOpens(mid, r);
      OnlyOpenedTwice(h, mid, OpenSlot(mid, r), r, n - 1, 1);
    }
  }

  lemma OpenSlotsStayOpenable(h: Hook, r: nat, n: nat)
    requires Openable(h, r)
    ensures Openable(OpenSlots(h, r, n), r)
  {
    OpenSlotsOnlyOpen(h, r, n);
  }

  lemma OpenSlotOk(h: Hook, r: nat, h': Hook)
    requires Openable(h, r) && RunOk(h, h.runs[r]) && h' == OpenSlot(h, r)
    ensures RunOk(h', h'.runs[r])
  {
    var run := h.runs[r];
    var run1 := run.(slots := run.slots + [Ended]);
    var h1 := h.(runs := h.runs[r := run1]);
    OpenConserves(run);
    assert AtLoopHead(h1, run1, |run.slots|);
    AdvanceOk(h1, r, |run.slots|);
  }

  lemma {:induction false} OpenSlotsOk(h: Hook, r: nat, n: nat, h': Hook)
    requires Openable(h, r) && RunOk(h, h.runs[r]) && h' == OpenSlots(h, r, n)
    ensures RunOk(h', h'.runs[r])
  {
    if n > 0 {
      var mid := OpenSlots(h, r, n - 1);
      OpenSlotsStayOpenable(h, r, n - 1);
      assert h' == OpenSlot(mid, r);
      OpenSlotsOk(h, r, n - 1, mid);
      OpenSlotOk(mid, r, h');
    }
  }

  lemma OpenSlotsKeeps(h: Hook, r: nat, n: nat)
    requires Inv(h) && Openable(h, r)
    ensures Inv(OpenSlots(h, r, n))
  {
    var h' := OpenSlots(h, r, n);
    assert RunOk(h, h.runs[r]);
    OpenSlotsOk(h, r, n, h');
    OpenSlotsOnlyOpen(h, r, n);
    OthersKept(h, h', r);
  }

  lemma {:induction false} InitialIds(work: seq<WorkItem>)
    ensures InitialResults(work).Keys == FileIds(work)
  {
    if work != [] {
      var front, last := work[..|work| - 1], work[|work| - 1];
      InitialIds(front);
      assert work == front + [last];
      assert FileIds(work) == FileIds(front) + {last.fileId};
    }
  }

  lemma {:induction false} InitialEntry(work: seq<WorkItem>, i: nat)
    requires DistinctIds(work) && i < |work|
    ensures work[i].fileId in InitialResults(work)
    ensures InitialResults(work)[work[i].fileId] == FileResult(work[i].fileId, work[i].path, Pending, None)
  {
    if i < |work| - 1 {
      var front := work[..|work| - 1];
      assert DistinctIds(front) && front[i] == work[i];
      InitialEntry(front, i);
    }
  }

  lemma InitialResultsShown(work: seq<WorkItem>, id: nat)
    ensures ResultsShown(InitialResults(work), Run(id, work, 0, map[], 0, 0, 0, 0, [], false))
  {
    InitialIds(work);
    if DistinctIds(work) {
      forall i | 0 <= i < |work|
        ensures work[i].fileId in InitialResults(work)
        ensures InitialResults(work)[work[i].fileId] == FileResult(work[i].fileId, work[i].path, Pending, None)
      {
        InitialEntry(work, i);
      }
    }
  }

  lemma FreshRunConserves(work: seq<WorkItem>, id: nat)
    ensures Conserved(Run(id, work, 0, map[], 0, 0, 0, 0, [], false))
  {
    assert WithStatus(map[], Verified) == WithStatus(map[], Mismatch) == WithStatus(map[], Error) == {};
  }

  lemma PreparedOk(h: Hook, work: seq<WorkItem>)
    requires Inv(h) && work != []
    ensures Inv(Prepared(h, work))
  {
    var p := Prepared(h, work);
    PercentEnds(|work|);
    InitialResultsShown(work, h.runId + 1);
    FreshRunConserves(work, h.runId + 1);
    forall s | 0 <= s < |p.runs|
      ensures RunOk(p, p.runs[s])
    {
      if s < |h.runs| {
        assert p.runs[s] == h.runs[s] && RunOk(h, h.runs[s]);
      }
    }
  }

  /** Bumping the token makes every run stale. */
  lemma BumpKeeps(h: Hook, ui: Ui)
    requires Inv(h)
    ensures Inv(h.(runId := h.runId + 1, cancelled := false, ui := ui))
  {
    var h' := h.(runId := h.runId + 1, cancelled := false, ui := ui);
    forall s | 0 <= s < |h'.runs|
      ensures RunOk(h', h'.runs[s])
    {
      assert RunOk(h, h.runs[s]);
    }
  }

  lemma StartKeeps(h: Hook, groups: seq<Group>)
    requires Inv(h) && SlotsOpen(h)
    ensures Inv(StartStep(h, groups)) && SlotsOpen(StartStep(h, groups))
  {
    var work := WorkList(groups);
    if work == [] {
      BumpKeeps(h, NOTHING_TO_DO_UI);
    } else {
      PreparedOk(h, work);
      OpenSlotsKeeps(Prepared(h, work), |h.runs|, SlotCount(work));
      OpenSlotsOnlyOpen(Prepared(h, work), |h.runs|, SlotCount(work));
    }
  }

  lemma SettleOwnerOk(h: Hook, r: nat, k: nat, answer: Answer)
    requires AwaitsAnswer(h, r, k) && RunOk(h, h.runs[r]) && !Stale(h, h.runs[r])
    ensures RunOk(SettleStep(h, r, k, answer), SettleStep(h, r, k, answer).runs[r])
  {
    var before := h.runs[r];
    var item := before.slots[k].item;
    var run := EndSlot(Tally(before, item, answer), k);
    var h1 := h.(runs := h.runs[r := run],
                 ui := ShowSettled(h.ui, run.completed, |run.work|, run.work[item], answer));
    assert AtLoopHead(h1, run, k) by {
      TallyConserves(before, k, answer);
      SettleShown(h.ui, before, k, answer);
      assert !before.returned by {
        assert !AllEnded(before);
      }
    }
    AdvanceOk(h1, r, k);
  }

  lemma SettleKeeps(h: Hook, r: nat, k: nat, answer: Answer)
    requires Inv(h)
    ensures Inv(SettleStep(h, r, k, answer))
    ensures SlotsOpen(h) ==> SlotsOpen(SettleStep(h, r, k, answer))
  {
    if AwaitsAnswer(h, r, k) {
      assert RunOk(h, h.runs[r]);
      if Stale(h, h.runs[r]) {
        TallyConserves(h.runs[r], k, answer);
      } else {
        SettleOwnerOk(h, r, k, answer);
      }
      SettleTouchesOneRun(h, r, k, answer);
      OthersKept(h, SettleStep(h, r, k, answer), r);
    }
  }

  lemma SettleTouchesOneRun(h: Hook, r: nat, k: nat, answer: Answer)
    requires AwaitsAnswer(h, r, k)
    ensures var h' := SettleStep(h, r, k, answer);
      && h'.runId == h.runId && h'.cancelled == h.cancelled && |h'.runs| == |h.runs|
      && h'.runs == h.runs[r := h'.runs[r]]
      && h'.runs[r].id == h.runs[r].id && h'.runs[r].work == h.runs[r].work
      && |h'.runs[r].slots| == |h.runs[r].slots|
      && (Stale(h, h.runs[r]) ==> h'.ui == h.ui)
  {
  }

  lemma FinishOwnerOk(h: Hook, r: nat)
    requires CanFinish(h, r) && RunOk(h, h.runs[r]) && |h.runs[r].slots| > 0
    ensures RunOk(FinishStep(h, r), FinishStep(h, r).runs[r])
  {
    assert h.runs[r].slots[0].Ended?;
    InFlightCountBound(h.runs[r].slots);
    PercentEnds(|h.runs[r].work|);
  }

  lemma FinishTouchesOneRun(h: Hook, r: nat)
    requires CanFinish(h, r)
    ensures var h' := FinishStep(h, r);
      && h'.runId == h.runId && h'.cancelled == h.cancelled && |h'.runs| == |h.runs|
      && h'.runs == h.runs[r := h'.runs[r]]
      && h'.runs[r].id == h.runs[r].id && h'.runs[r].work == h.runs[r].work && h'.runs[r].slots == h.runs[r].slots
      && (Stale(h, h.runs[r]) ==> h'.ui == h.ui)
  {
  }

  lemma FinishKeeps(h: Hook, r: nat)
    requires Inv(h) && SlotsOpen(h)
    ensures Inv(FinishStep(h, r)) && SlotsOpen(FinishStep(h, r))
  {
    if CanFinish(h, r) {
      assert RunOk(h, h.runs[r]);
      FinishOwnerOk(h, r);
      FinishTouchesOneRun(h, r);
      OthersKept(h, FinishStep(h, r), r);
    }
  }

  lemma StepKeeps(h: Hook, e: Event)
    requires Inv(h) && SlotsOpen(h)
    ensures Inv(Step(h, e)) && SlotsOpen(Step(h, e))
  {
    match e
    case Start(groups) => StartKeeps(h, groups);
    case Settle(r, k, answer) => SettleKeeps(h, r, k, answer);
    case Finish(r) => FinishKeeps(h, r);
    case Reset => BumpKeeps(h, IDLE_UI);
    case Cancel =>
      forall s | 0 <= s < |h.runs|
        ensures RunOk(Step(h, e), h.runs[s])
      {
        assert RunOk(h, h.runs[s]);
      }
  }

  lemma {:induction false} ExecKeeps(h: Hook, es: seq<Event>)
    requires Inv(h) && SlotsOpen(h)
    ensures Inv(Exec(h, es)) && SlotsOpen(Exec(h, es))
    decreases |es|
  {
    if es != [] {
      StepKeeps(h, es[0]);
      ExecKeeps(Step(h, es[0]), es[1..]);
    }
  }

  // ---------------------------------------------------------------- conservation, over every run

  lemma EveryInterleavingConserves(es: seq<Event>, r: nat)
    requires r < |Exec(INITIAL, es).runs|
    ensures var run := Exec(INITIAL, es).runs[r];
      && run.cursor == run.completed + InFlightCount(run.slots)
      && InFlightCount(run.slots) <= Min(CONCURRENCY, |run.work|)
      && ClaimedOnce(run) && Tallied(run)
  {
    ExecKeeps(INITIAL, es);
    var h := Exec(INITIAL, es);
    assert RunOk(h, h.runs[r]);
    InFlightCountBound(h.runs[r].slots);
  }

  // ---------------------------------------------------------------- what a run delivers

  predicate Supersedes(e: Event) {
    e.Start? || e.Reset?
  }

  predicate SameRuns(h: Hook, h': Hook) {
    && h'.runId == h.runId && |h'.runs| == |h.runs|
    && forall r :: 0 <= r < |h.runs| ==> h'.runs[r].id == h.runs[r].id && h'.runs[r].work == h.runs[r].work
  }

  lemma {:induction false} ExecSameRuns(h: Hook, es: seq<Event>)
    requires forall e :: e in es ==> !Supersedes(e)
    ensures SameRuns(h, Exec(h, es))
    ensures !h.cancelled && Cancel !in es ==> !Exec(h, es).cancelled
    decreases |es|
  {
    if es != [] {
      assert es[0] in es;
      if es[0].Settle? && AwaitsAnswer(h, es[0].run, es[0].slot) {
        SettleTouchesOneRun(h, es[0].run, es[0].slot, es[0].answer);
      }
      assert SameRuns(h, Step(h, es[0]));
      ExecSameRuns(Step(h, es[0]), es[1..]);
    }
  }

  lemma {:induction false} ExecConcat(h: Hook, a: seq<Event>, b: seq<Event>)
    ensures Exec(h, a + b) == Exec(Exec(h, a), b)
    decreases |a|
  {
    if a == [] {
      assert a + b == b;
    } else {
      assert (a + b)[1..] == a[1..] + b;
      ExecConcat(Step(h, a[0]), a[1..], b);
    }
  }

  /** A bounded set of full size misses nothing. */
  lemma {:induction false} FullSet(s: set<nat>, n: nat)
    requires |s| == n && forall i :: i in s ==> i < n
    ensures forall i :: 0 <= i < n ==> i in s
  {
    if n > 0 {
      if n - 1 in s {
        FullSet(s - {n - 1}, n - 1);
      } else {
        BoundedSet(s, n - 1);
      }
    }
  }

  lemma {:induction false} BoundedSet(s: set<nat>, n: nat)
    requires forall i :: i in s ==> i < n
    ensures |s| <= n
  {
    if n == 0 {
      assert s == {};
    } else {
      BoundedSet(s - {n - 1}, n - 1);
      assert s <= (s - {n - 1}) + {n - 1};
    }
  }

  /** When the slots have drained, the claimed items are exactly the answered ones. */
  lemma ClaimedAreAnswered(run: Run)
    requires Conserved(run) && AllEnded(run)
    ensures run.completed == run.cursor
    ensures forall i :: i in run.answers <==> 0 <= i < run.cursor
  {
    InFlightCountBound(run.slots);
    assert |run.answers| == |run.answers.Keys|;
    FullSet(run.answers.Keys, run.cursor);
  }

  /** A start after any earlier run of the hook. */
  function Started(pre: seq<Event>, groups: seq<Group>): Hook {
    Step(Exec(INITIAL, pre), Start(groups))
  }

  /** The state after a start on `groups` that nothing superseded, and the place of its run. */
  function AfterStart(pre: seq<Event>, groups: seq<Group>, post: seq<Event>): Hook {
    Exec(Started(pre, groups), post)
  }

  function RunOf(pre: seq<Event>): nat {
    |Exec(INITIAL, pre).runs|
  }

  predicate HasReturned(pre: seq<Event>, groups: seq<Group>, post: seq<Event>) {
    var h := AfterStart(pre, groups, post);
    RunOf(pre) < |h.runs| && h.runs[RunOf(pre)].returned
  }

  lemma StartedRunIsCurrent(pre: seq<Event>, groups: seq<Group>, post: seq<Event>)
    requires WorkList(groups) != [] && forall e :: e in post ==> !Supersedes(e)
    ensures var h := AfterStart(pre, groups, post);
      && Inv(h) && SlotsOpen(h) && RunOf(pre) < |h.runs|
      && !Stale(h, h.runs[RunOf(pre)]) && h.runs[RunOf(pre)].work == WorkList(groups)
      && (Cancel !in post ==> !h.cancelled)
  {
    var h0, h1, work := Exec(INITIAL, pre), Started(pre, groups), WorkList(groups);
    ExecKeeps(INITIAL, pre);
    OpenSlotsOnlyOpen(Prepared(h0, work), |h0.runs|, SlotCount(work));
    StartKeeps(h0, groups);
    ExecSameRuns(h1, post);
    ExecKeeps(h1, post);
  }

  /** The comparison the backend was asked for item `i`. */
  function CallOf(run: Run, i: nat): (int, int)
    requires i < |run.work|
  {
    (run.work[i].anchorFileId, run.work[i].fileId)
  }

  /** The place of file `j` of group `g` in the work list. */
  function PlaceOf(groups: seq<Group>, g: nat, j: nat): nat
    requires g < |groups| && 1 <= j
  {
    PairsBefore(groups, g) + j - 1
  }

  /** File `j` of group `g` was compared with the group's own anchor and shows the verdict of that comparison. */
  ghost predicate HoldsOwnVerdict(h: Hook, run: Run, groups: seq<Group>, g: nat, j: nat)
    requires g < |groups| && 1 <= j < |groups[g].files|
  {
    var i := PlaceOf(groups, g, j);
    var f := groups[g].files[j];
    && i < |run.work| && CallOf(run, i) == (groups[g].files[0].fileId, f.fileId)
    && i in run.answers
    && f.fileId in h.ui.results
    && var shown := h.ui.results[f.fileId];
    && shown.fileId == f.fileId && shown.path == f.path && Tells(shown, run.answers[i])
  }

  lemma SettledRunHoldsVerdicts(h: Hook, run: Run, groups: seq<Group>, g: nat, j: nat)
    requires g < |groups| && 1 <= j < |groups[g].files|
    requires run.work == WorkList(groups) && DistinctIds(run.work) && ResultsShown(h.ui.results, run)
    requires forall i :: 0 <= i < |run.work| ==> i in run.answers
    ensures HoldsOwnVerdict(h, run, groups, g, j)
  {
    WorkListPlaces(groups, g, j);
    var i := PlaceOf(groups, g, j);
    assert 0 <= i < |run.work|;
    AnswerIsShown(h.ui.results, run, i);
  }

  lemma AnswerIsShown(results: map<int, FileResult>, run: Run, i: nat)
    requires DistinctIds(run.work) && ResultsShown(results, run) && i < |run.work| && i in run.answers
    ensures var item := run.work[i];
      && item.fileId in results
      && var shown := results[item.fileId];
      && shown.fileId == item.fileId && shown.path == item.path && Tells(shown, run.answers[i])
  {
    assert results[run.work[i].fileId] == Shown(run, i);
  }

  /** A run that is neither cancelled nor superseded ends with one verdict for each non-anchor file. */
  lemma UndisturbedRunCompletes(pre: seq<Event>, groups: seq<Group>, post: seq<Event>)
    requires WorkList(groups) != [] && DistinctIds(WorkList(groups))
    requires forall e :: e in post ==> !Supersedes(e) && e != Cancel
    requires HasReturned(pre, groups, post)
    ensures var h := AfterStart(pre, groups, post);
      var run := h.runs[RunOf(pre)];
      && h.ui.phase == Done
      && h.ui.summary == Some(Summary(PairCount(groups), run.verified, run.mismatches, run.errors))
      && run.verified + run.mismatches + run.errors == PairCount(groups)
      && (forall g, j :: 0 <= g < |groups| && 1 <= j < |groups[g].files| ==> HoldsOwnVerdict(h, run, groups, g, j))
  {
    StartedRunIsCurrent(pre, groups, post);
    var h := AfterStart(pre, groups, post);
    var run := h.runs[RunOf(pre)];
    assert RunOk(h, run);
    assert run.slots[0].Ended?;
    UndisturbedPhase(pre, groups, post);
    ClaimedAreAnswered(run);
    WorkListLength(groups);
    forall g, j | 0 <= g < |groups| && 1 <= j < |groups[g].files|
      ensures HoldsOwnVerdict(h, run, groups, g, j)
    {
      SettledRunHoldsVerdicts(h, run, groups, g, j);
    }
  }

  /** A run that has not returned has a comparison under way or can finish. */
  lemma RunIsNeverStuck(h: Hook, r: nat)
    requires Inv(h) && SlotsOpen(h) && r < |h.runs| && !h.runs[r].returned
    ensures CanFinish(h, r) || exists k :: 0 <= k < |h.runs[r].slots| && AwaitsAnswer(h, r, k)
  {
    var run := h.runs[r];
    assert RunOk(h, run) && ClaimedOnce(run);
    if !AllEnded(run) {
      var k :| 0 <= k < |run.slots| && !run.slots[k].Ended?;
      assert AwaitsAnswer(h, r, k);
    }
  }

  /** Every answer brings a run one item closer to its end, under any schedule. */
  lemma AnswerAdvances(h: Hook, r: nat, k: nat, answer: Answer)
    requires Inv(h) && AwaitsAnswer(h, r, k)
    ensures var run, run' := h.runs[r], SettleStep(h, r, k, answer).runs[r];
      && run'.completed == run.completed + 1 <= |run.work|
      && run'.work == run.work && run'.returned == run.returned
  {
    var run := h.runs[r];
    assert RunOk(h, run);
    TallyConserves(run, k, answer);
  }

  /** Answering the slots of a run, whatever each comparison answers, ends them all. */
  lemma {:induction false} RunDrains(h: Hook, r: nat, answers: seq<Answer>) returns (es: seq<Event>)
    requires Inv(h) && SlotsOpen(h) && r < |h.runs| && !h.runs[r].returned && |answers| == |h.runs[r].work|
    ensures forall e :: e in es ==> e.Settle? && e.run == r
    ensures r < |Exec(h, es).runs| && CanFinish(Exec(h, es), r)
    ensures Exec(h, es).runs[r].completed == h.runs[r].completed + |es| <= |h.runs[r].work|
    decreases |h.runs[r].work| - h.runs[r].completed
  {
    RunIsNeverStuck(h, r);
    assert RunOk(h, h.runs[r]);
    if CanFinish(h, r) {
      es := [];
    } else {
      var k :| 0 <= k < |h.runs[r].slots| && AwaitsAnswer(h, r, k);
      var e := Settle(r, k, answers[h.runs[r].slots[k].item]);
      StepKeeps(h, e);
      AnswerAdvances(h, r, k, e.answer);
      SettleTouchesOneRun(h, r, k, e.answer);
      var rest := RunDrains(Step(h, e), r, answers);
      es := [e] + rest;
      assert es[1..] == rest;
    }
  }

  lemma RunReturns(h: Hook, r: nat, answers: seq<Answer>) returns (es: seq<Event>)
    requires Inv(h) && SlotsOpen(h) && r < |h.runs| && |answers| == |h.runs[r].work|
    ensures forall e :: e in es ==> !Supersedes(e) && e != Cancel
    ensures |es| <= |h.runs[r].work| + 1
    ensures r < |Exec(h, es).runs| && Exec(h, es).runs[r].returned
  {
    if h.runs[r].returned {
      es := [];
    } else {
      var settled := RunDrains(h, r, answers);
      es := settled + [Finish(r)];
      ExecConcat(h, settled, [Finish(r)]);
      FinishReturns(Exec(h, settled), r);
    }
  }

  lemma FinishReturns(h: Hook, r: nat)
    requires CanFinish(h, r)
    ensures r < |Exec(h, [Finish(r)]).runs| && Exec(h, [Finish(r)]).runs[r].returned
  {
    assert [Finish(r)][1..] == [];
    assert Exec(h, [Finish(r)]) == FinishStep(h, r);
  }

  lemma AfterMore(pre: seq<Event>, groups: seq<Group>, post: seq<Event>, more: seq<Event>)
    ensures AfterStart(pre, groups, post + more) == Exec(AfterStart(pre, groups, post), more)
  {
    ExecConcat(Started(pre, groups), post, more);
  }

  /** From wherever an undisturbed run stands, answering its comparisons, whatever they answer, makes it return. */
  lemma UndisturbedRunCanReturn(pre: seq<Event>, groups: seq<Group>, post: seq<Event>, answers: seq<Answer>) returns (more: seq<Event>)
    requires |answers| == PairCount(groups) && WorkList(groups) != [] && forall e :: e in post ==> !Supersedes(e) && e != Cancel
    ensures forall e :: e in more ==> !Supersedes(e) && e != Cancel
    ensures |more| <= PairCount(groups) + 1
    ensures HasReturned(pre, groups, post + more)
  {
    StartedRunIsCurrent(pre, groups, post);
    WorkListLength(groups);
    more := RunReturns(AfterStart(pre, groups, post), RunOf(pre), answers);
    AfterMore(pre, groups, post, more);
  }

  lemma {:induction false} PhaseStaysUncancelled(h: Hook, es: seq<Event>)
    requires h.ui.phase != Cancelled && !h.cancelled
    requires forall e :: e in es ==> !Supersedes(e) && e != Cancel
    ensures Exec(h, es).ui.phase != Cancelled
    decreases |es|
  {
    if es != [] {
      assert es[0] in es;
      PhaseStaysUncancelled(Step(h, es[0]), es[1..]);
    }
  }

  lemma UndisturbedPhase(pre: seq<Event>, groups: seq<Group>, post: seq<Event>)
    requires WorkList(groups) != []
    requires forall e :: e in post ==> !Supersedes(e) && e != Cancel
    ensures AfterStart(pre, groups, post).ui.phase != Cancelled
  {
    StartedRunIsCurrent(pre, groups, []);
    FreshRunIsBusy(pre, groups);
    PhaseStaysUncancelled(Started(pre, groups), post);
  }

  lemma {:induction false} OpenSlotsPhase(h: Hook, r: nat, n: nat)
    requires r < |h.runs|
    ensures OpenSlots(h, r, n).ui.phase == h.ui.phase
  {
    if n > 0 {
      OpenSlotsPhase(h, r, n - 1);
    }
  }

  lemma FreshRunIsBusy(pre: seq<Event>, groups: seq<Group>)
    requires WorkList(groups) != []
    ensures Started(pre, groups).ui.phase == Busy
  {
    var h0 := Exec(INITIAL, pre);
    OpenSlotsPhase(Prepared(h0, WorkList(groups)), |h0.runs|, SlotCount(WorkList(groups)));
  }

  // ---------------------------------------------------------------- what a cancel leads to

  /** Run `r` will claim nothing any more. */
  predicate Stopped(h: Hook, r: nat) {
    r < |h.runs| && (h.cancelled || Stale(h, h.runs[r]))
  }

  lemma StoppedStartKeepsCursor(h: Hook, groups: seq<Group>, r: nat)
    requires Inv(h) && r < |h.runs|
    ensures var h' := StartStep(h, groups);
      Stopped(h', r) && h'.runs[r] == h.runs[r]
  {
    var work := WorkList(groups);
    if work != [] {
      OpenSlotsOnlyOpen(Prepared(h, work), |h.runs|, SlotCount(work));
    }
  }

  lemma StoppedStepKeepsCursor(h: Hook, e: Event, r: nat)
    requires Inv(h) && Stopped(h, r)
    ensures Stopped(Step(h, e), r) && Step(h, e).runs[r].cursor == h.runs[r].cursor
  {
    match e
    case Start(groups) => StoppedStartKeepsCursor(h, groups, r);
    case Settle(i, k, answer) =>
      if AwaitsAnswer(h, i, k) {
        SettleTouchesOneRun(h, i, k, answer);
      }
    case Finish(i) =>
    case Cancel =>
    case Reset =>
  }

  lemma {:induction false} StoppedRunClaimsNothing(h: Hook, es: seq<Event>, r: nat)
    requires Inv(h) && SlotsOpen(h) && Stopped(h, r)
    ensures Stopped(Exec(h, es), r) && Exec(h, es).runs[r].cursor == h.runs[r].cursor
    decreases |es|
  {
    if es != [] {
      StepKeeps(h, es[0]);
      StoppedStepKeepsCursor(h, es[0], r);
      StoppedRunClaimsNothing(Step(h, es[0]), es[1..], r);
    }
  }

  /** After a cancel no run that exists claims another comparison, whatever happens later, new starts and resets included. */
  lemma CancelStopsClaims(es: seq<Event>, later: seq<Event>, r: nat)
    requires r < |Exec(INITIAL, es).runs|
    ensures var h, h' := Exec(INITIAL, es), Exec(INITIAL, es + [Cancel] + later);
      r < |h'.runs| && h'.runs[r].cursor == h.runs[r].cursor
  {
    var h := Exec(INITIAL, es);
    ExecKeeps(INITIAL, es);
    StepKeeps(h, Cancel);
    AfterOne(INITIAL, es, Cancel, later);
    StoppedRunClaimsNothing(Step(h, Cancel), later, r);
  }

  /** One event between two runs of events. */
  lemma AfterOne(h: Hook, es: seq<Event>, e: Event, later: seq<Event>)
    ensures Exec(h, es + [e] + later) == Exec(Step(Exec(h, es), e), later)
  {
    ExecConcat(h, es, [e] + later);
    assert es + [e] + later == es + ([e] + later);
    assert ([e] + later)[1..] == later;
  }

  /** The current run ends as cancelled or has not ended. */
  ghost predicate EndsCancelled(h: Hook, r: nat) {
    && r < |h.runs| && !Stale(h, h.runs[r]) && h.cancelled
    && (h.runs[r].returned ==> h.ui.phase == Cancelled)
  }

  lemma StepKeepsEndsCancelled(h: Hook, e: Event, r: nat)
    requires Inv(h) && EndsCancelled(h, r) && !Supersedes(e)
    ensures EndsCancelled(Step(h, e), r)
  {
    assert RunOk(h, h.runs[r]);
    match e
    case Settle(i, k, answer) =>
      if AwaitsAnswer(h, i, k) {
        SettleTouchesOneRun(h, i, k, answer);
        assert i == r ==> !AllEnded(h.runs[r]);
      }
    case Finish(i) =>
    case Cancel =>
  }

  lemma {:induction false} CancelledRunEndsCancelled(h: Hook, es: seq<Event>, r: nat)
    requires Inv(h) && SlotsOpen(h) && EndsCancelled(h, r)
    requires forall e :: e in es ==> !Supersedes(e)
    ensures EndsCancelled(Exec(h, es), r)
    decreases |es|
  {
    if es != [] {
      assert es[0] in es;
      StepKeeps(h, es[0]);
      StepKeepsEndsCancelled(h, es[0], r);
      CancelledRunEndsCancelled(Step(h, es[0]), es[1..], r);
    }
  }

  /** A claimed item shows what its comparison answered, any other is still pending. */
  predicate ItemSettled(results: map<int, FileResult>, run: Run, i: nat)
    requires i < |run.work|
  {
    && run.work[i].fileId in results
    && var shown := results[run.work[i].fileId];
    if i < run.cursor then i in run.answers && Tells(shown, run.answers[i]) else shown.status == Pending
  }

  /** The items before the cursor are settled, the others untouched, and the summary counts the claims. */
  ghost predicate ClaimsSettled(h: Hook, run: Run) {
    && run.cursor <= |run.work|
    && h.ui.summary == Some(Summary(run.cursor, run.verified, run.mismatches, run.errors))
    && (forall i :: 0 <= i < |run.work| ==> ItemSettled(h.ui.results, run, i))
  }

  lemma ReturnedRunSettledItsClaims(h: Hook, run: Run)
    requires RunOk(h, run) && !Stale(h, run) && run.returned && DistinctIds(run.work)
    ensures ClaimsSettled(h, run)
  {
    ClaimedAreAnswered(run);
    forall i | 0 <= i < |run.work|
      ensures ItemSettled(h.ui.results, run, i)
    {
      ItemIsSettled(h.ui.results, run, i);
    }
  }

  lemma ItemIsSettled(results: map<int, FileResult>, run: Run, i: nat)
    requires EntriesShown(results, run) && i < |run.work|
    requires forall j :: j in run.answers <==> 0 <= j < run.cursor
    ensures ItemSettled(results, run, i)
  {
    assert results[run.work[i].fileId] == Shown(run, i);
  }

  lemma CancelledOutcome(h: Hook, es: seq<Event>, r: nat, h': Hook)
    requires Inv(h) && SlotsOpen(h) && r < |h.runs| && !Stale(h, h.runs[r]) && !h.runs[r].returned
    requires forall e :: e in es ==> !Supersedes(e)
    requires h' == Exec(Step(h, Cancel), es) && r < |h'.runs| && h'.runs[r].returned && DistinctIds(h'.runs[r].work)
    ensures h'.ui.phase == Cancelled && h'.runs[r].cursor == h.runs[r].cursor && ClaimsSettled(h', h'.runs[r])
  {
    var h1 := Step(h, Cancel);
    StepKeeps(h, Cancel);
    StoppedRunClaimsNothing(h1, es, r);
    CancelledRunEndsCancelled(h1, es, r);
    ExecKeeps(h1, es);
    assert RunOk(h', h'.runs[r]);
    ReturnedRunSettledItsClaims(h', h'.runs[r]);
  }

  /**
    A run cancelled before it returned, and not superseded, ends as cancelled: it claims nothing after
    the cancel, what it had claimed is settled, the rest is untouched, and the summary counts the claims.
   */
  lemma CancelledRunSettlesItsClaims(pre: seq<Event>, groups: seq<Group>, mid: seq<Event>, post: seq<Event>)
    requires WorkList(groups) != [] && DistinctIds(WorkList(groups))
    requires forall e :: e in mid || e in post ==> !Supersedes(e)
    requires !HasReturned(pre, groups, mid) && HasReturned(pre, groups, mid + [Cancel] + post)
    ensures var h, h' := AfterStart(pre, groups, mid), AfterStart(pre, groups, mid + [Cancel] + post);
      var r := RunOf(pre);
      && r < |h.runs| && r < |h'.runs|
      && h'.ui.phase == Cancelled
      && h'.runs[r].cursor == h.runs[r].cursor
      && h'.runs[r].work == WorkList(groups)
      && ClaimsSettled(h', h'.runs[r])
  {
    StartedRunIsCurrent(pre, groups, mid);
    StartedRunIsCurrent(pre, groups, mid + [Cancel] + post);
    AfterOne(Started(pre, groups), mid, Cancel, post);
    CancelledOutcome(AfterStart(pre, groups, mid), post, RunOf(pre), AfterStart(pre, groups, mid + [Cancel] + post));
  }

  /** And it can always return: answering the comparisons still under way, at most three, is enough. */
  lemma CancelledRunCanReturn(pre: seq<Event>, groups: seq<Group>, mid: seq<Event>, answers: seq<Answer>) returns (post: seq<Event>)
    requires |answers| == PairCount(groups) && WorkList(groups) != [] && forall e :: e in mid ==> !Supersedes(e)
    ensures forall e :: e in post ==> !Supersedes(e)
    ensures |post| <= CONCURRENCY + 1
    ensures HasReturned(pre, groups, mid + [Cancel] + post)
  {
    StartedRunIsCurrent(pre, groups, mid);
    WorkListLength(groups);
    post := CancelledReturns(AfterStart(pre, groups, mid), RunOf(pre), answers);
    AfterOne(Started(pre, groups), mid, Cancel, post);
  }

  lemma CancelledReturns(h: Hook, r: nat, answers: seq<Answer>) returns (es: seq<Event>)
    requires Inv(h) && SlotsOpen(h) && r < |h.runs| && |answers| == |h.runs[r].work|
    ensures forall e :: e in es ==> !Supersedes(e)
    ensures |es| <= CONCURRENCY + 1
    ensures var h' := Exec(Step(h, Cancel), es); r < |h'.runs| && h'.runs[r].returned
  {
    StepKeeps(h, Cancel);
    es := StoppedRunReturns(Step(h, Cancel), r, answers);
  }

  /** Every claim of a run is answered or in flight, and at most three are in flight. */
  lemma ClaimsInFlight(h: Hook, r: nat)
    requires Inv(h) && SlotsOpen(h) && r < |h.runs|
    ensures h.runs[r].cursor <= h.runs[r].completed + CONCURRENCY
  {
    assert RunOk(h, h.runs[r]);
    InFlightCountBound(h.runs[r].slots);
  }

  lemma StoppedRunReturns(h: Hook, r: nat, answers: seq<Answer>) returns (es: seq<Event>)
    requires Inv(h) && SlotsOpen(h) && Stopped(h, r) && |answers| == |h.runs[r].work|
    ensures forall e :: e in es ==> !Supersedes(e)
    ensures |es| <= CONCURRENCY + 1
    ensures r < |Exec(h, es).runs| && Exec(h, es).runs[r].returned
  {
    if h.runs[r].returned {
      es := [];
    } else {
      var settled := RunDrains(h, r, answers);
      var h' := Exec(h, settled);
      StoppedRunClaimsNothing(h, settled, r);
      ExecKeeps(h, settled);
      ClaimsInFlight(h, r);
      assert RunOk(h', h'.runs[r]);
      es := settled + [Finish(r)];
      ExecConcat(h, settled, [Finish(r)]);
      FinishReturns(h', r);
    }
  }

  // ---------------------------------------------------------------- what the screen shows between and after runs

  /** Every run is superseded or has returned. */
  predicate NothingOwed(h: Hook) {
    forall r :: 0 <= r < |h.runs| ==> Stale(h, h.runs[r]) || h.runs[r].returned
  }

  lemma OwedNothingStep(h: Hook, e: Event)
    requires Inv(h) && NothingOwed(h) && !Supersedes(e)
    ensures Step(h, e).ui == h.ui && NothingOwed(Step(h, e))
  {
    match e
    case Settle(i, k, answer) =>
      if AwaitsAnswer(h, i, k) {
        SettleTouchesOneRun(h, i, k, answer);
        assert RunOk(h, h.runs[i]);
        assert !AllEnded(h.runs[i]);
      }
    case Finish(i) =>
    case Cancel =>
  }

  /** Once the current run has returned, or nothing runs, the screen stays as it is until the next start or reset. */
  lemma {:induction false} ScreenStays(h: Hook, es: seq<Event>)
    requires Inv(h) && SlotsOpen(h) && NothingOwed(h)
    requires forall e :: e in es ==> !Supersedes(e)
    ensures Exec(h, es).ui == h.ui
    decreases |es|
  {
    if es != [] {
      assert es[0] in es;
      StepKeeps(h, es[0]);
      OwedNothingStep(h, es[0]);
      ScreenStays(Step(h, es[0]), es[1..]);
    }
  }

  lemma OnlyCurrentOwes(h: Hook, r: nat)
    requires Inv(h) && r < |h.runs| && !Stale(h, h.runs[r]) && h.runs[r].returned
    ensures NothingOwed(h)
  {
    forall i | 0 <= i < |h.runs|
      ensures Stale(h, h.runs[i]) || h.runs[i].returned
    {
      assert i != r ==> h.runs[i].id != h.runs[r].id;
    }
  }

  /** A run that has returned, cancelled or not, has its outcome on screen for good: a late cancel does not change it. */
  lemma OutcomeStays(pre: seq<Event>, groups: seq<Group>, post: seq<Event>, later: seq<Event>)
    requires WorkList(groups) != [] && HasReturned(pre, groups, post)
    requires forall e :: e in post || e in later ==> !Supersedes(e)
    ensures AfterStart(pre, groups, post + later).ui == AfterStart(pre, groups, post).ui
  {
    StartedRunIsCurrent(pre, groups, post);
    OnlyCurrentOwes(AfterStart(pre, groups, post), RunOf(pre));
    AfterMore(pre, groups, post, later);
    ScreenStays(AfterStart(pre, groups, post), later);
  }

  /** With nothing to compare a start is done at once, and stays so. */
  lemma NothingToCompareIsDone(pre: seq<Event>, groups: seq<Group>, post: seq<Event>)
    requires PairCount(groups) == 0 && forall e :: e in post ==> !Supersedes(e)
    ensures var ui := AfterStart(pre, groups, post).ui;
      && ui.phase == Done && ui.results == map[]
      && ui.summary == Some(Summary(0, 0, 0, 0)) && ui.progress == Some(Progress(0, 0, 100, None))
  {
    var h0 := Exec(INITIAL, pre);
    WorkListLength(groups);
    ExecKeeps(INITIAL, pre);
    StartKeeps(h0, groups);
    assert NothingOwed(Started(pre, groups));
    ScreenStays(Started(pre, groups), post);
  }

  lemma {:induction false} IdleStays(h: Hook, es: seq<Event>)
    requires Inv(h) && SlotsOpen(h) && NothingOwed(h) && h.ui == IDLE_UI
    requires forall e :: e in es ==> !e.Start?
    ensures Exec(h, es).ui == IDLE_UI
    decreases |es|
  {
    if es != [] {
      assert es[0] in es;
      StepKeeps(h, es[0]);
      if es[0].Reset? {
        ResetOwesNothing(h);
      } else {
        OwedNothingStep(h, es[0]);
      }
      IdleStays(Step(h, es[0]), es[1..]);
    }
  }

  lemma ResetOwesNothing(h: Hook)
    requires Inv(h)
    ensures NothingOwed(ResetStep(h))
  {
  }

  /** A reset clears the screen, and it stays clear until the next start, whatever the old calls answer. */
  lemma ResetStaysIdle(pre: seq<Event>, es: seq<Event>)
    requires forall e :: e in es ==> !e.Start?
    ensures var ui := Exec(INITIAL, pre + [Reset] + es).ui;
      ui.phase == Idle && ui.progress == None && ui.results == map[] && ui.summary == None
  {
    var h := Exec(INITIAL, pre);
    ExecKeeps(INITIAL, pre);
    StepKeeps(h, Reset);
    ResetOwesNothing(h);
    AfterOne(INITIAL, pre, Reset, es);
    IdleStays(Step(h, Reset), es);
  }

  /** The progress of the run that owns the screen: how many are answered, of how many, in whole percent, and which file is compared. */
  lemma ProgressIsExact(es: seq<Event>, r: nat)
    requires var h := Exec(INITIAL, es); r < |h.runs| && !Stale(h, h.runs[r])
    ensures var h := Exec(INITIAL, es);
      var run := h.runs[r];
      && h.ui.progress.Some?
      && var p := h.ui.progress.value;
      && p.current == run.completed && p.total == |run.work|
      && 200 * p.current - p.total <= 2 * (p.total * p.percent) <= 200 * p.current + p.total
      && (!h.cancelled && 0 < run.cursor < |run.work| ==> p.currentFile.Some?)
      && (p.currentFile.Some? ==>
            && 0 < run.cursor <= |run.work| && run.cursor - 1 !in run.answers
            && p.currentFile.value == run.work[run.cursor - 1].path)
  {
    ExecKeeps(INITIAL, es);
    ProgressOfOwner(Exec(INITIAL, es), r);
    PercentIsNearest(Exec(INITIAL, es).runs[r].completed, |Exec(INITIAL, es).runs[r].work|);
  }

  lemma ProgressOfOwner(h: Hook, r: nat)
    requires Inv(h) && r < |h.runs| && !Stale(h, h.runs[r])
    ensures ProgressShown(h.ui, h.runs[r])
    ensures !h.cancelled ==> NamesFile(h.ui, h.runs[r])
  {
    assert RunOk(h, h.runs[r]);
  }

  lemma {:induction false} InFlightCountFull(slots: seq<Slot>)
    requires forall k :: 0 <= k < |slots| ==> slots[k].InFlight?
    ensures InFlightCount(slots) == |slots|
  {
    if slots != [] {
      InFlightCountFull(slots[..|slots| - 1]);
    }
  }

  /** No slot idles while work is left: an undisturbed run has three comparisons under way, or all that remain. */
  lemma SlotsAreBusy(es: seq<Event>, r: nat)
    requires var h := Exec(INITIAL, es); r < |h.runs| && !Stale(h, h.runs[r]) && !h.cancelled
    ensures var run := Exec(INITIAL, es).runs[r];
      InFlightCount(run.slots) == Min(3, |run.work| - run.completed)
  {
    ExecKeeps(INITIAL, es);
    RunIsBusy(Exec(INITIAL, es), r);
  }

  lemma RunIsBusy(h: Hook, r: nat)
    requires Inv(h) && SlotsOpen(h) && r < |h.runs| && !Stale(h, h.runs[r]) && !h.cancelled
    ensures InFlightCount(h.runs[r].slots) == Min(3, |h.runs[r].work| - h.runs[r].completed)
  {
    var run := h.runs[r];
    assert RunOk(h, run);
    InFlightCountBound(run.slots);
    if forall k :: 0 <= k < |run.slots| ==> run.slots[k].InFlight? {
      InFlightCountFull(run.slots);
    } else {
      assert exists k :: 0 <= k < |run.slots| && run.slots[k].Ended?;
      assert Drained(run);
    }
  }

  // ---------------------------------------------------------------- a superseded run is silent

  predicate TargetsStaleRun(h: Hook, e: Event) {
    match e
    case Settle(r, _, _) => r < |h.runs| && Stale(h, h.runs[r])
    case Finish(r) => r < |h.runs| && Stale(h, h.runs[r])
    case _ => false
  }

  /** The same events without those that reach a run already superseded when they happen. */
  function WithoutStale(h: Hook, es: seq<Event>): seq<Event>
    decreases |es|
  {
    if es == [] then []
    else if TargetsStaleRun(h, es[0]) then WithoutStale(Step(h, es[0]), es[1..])
    else [es[0]] + WithoutStale(Step(h, es[0]), es[1..])
  }

  /** Equal but for the inside of superseded runs. */
  predicate SameVisible(a: Hook, b: Hook) {
    && a.runId == b.runId && a.cancelled == b.cancelled && a.ui == b.ui && |a.runs| == |b.runs|
    && (forall r :: 0 <= r < |a.runs| ==> a.runs[r].id == b.runs[r].id)
    && (forall r :: 0 <= r < |a.runs| && !Stale(a, a.runs[r]) ==> a.runs[r] == b.runs[r])
  }

  lemma StaleStepInvisible(a: Hook, b: Hook, e: Event)
    requires SameVisible(a, b) && TargetsStaleRun(a, e)
    ensures SameVisible(Step(a, e), b)
  {
    if e.Settle? && AwaitsAnswer(a, e.run, e.slot) {
      SettleTouchesOneRun(a, e.run, e.slot, e.answer);
    }
  }

  lemma OpenSlotSame(a: Hook, b: Hook, r: nat)
    requires SameVisible(a, b) && r < |a.runs| && a.runs[r] == b.runs[r]
    ensures SameVisible(OpenSlot(a, r), OpenSlot(b, r))
    ensures OpenSlot(a, r).runs[r] == OpenSlot(b, r).runs[r]
  {
  }

  lemma {:induction false} OpenSlotsSame(a: Hook, b: Hook, r: nat, n: nat)
    requires SameVisible(a, b) && r < |a.runs| && a.runs[r] == b.runs[r]
    ensures SameVisible(OpenSlots(a, r, n), OpenSlots(b, r, n))
    ensures OpenSlots(a, r, n).runs[r] == OpenSlots(b, r, n).runs[r]
  {
    if n > 0 {
      OpenSlotsSame(a, b, r, n - 1);
      OpenSlotSame(OpenSlots(a, r, n - 1), OpenSlots(b, r, n - 1), r);
    }
  }

  lemma LiveSettleSame(a: Hook, b: Hook, r: nat, k: nat, answer: Answer)
    requires SameVisible(a, b) && AwaitsAnswer(a, r, k) && a.runs[r] == b.runs[r]
    ensures SameVisible(SettleStep(a, r, k, answer), SettleStep(b, r, k, answer))
  {
    SettleTouchesOneRun(a, r, k, answer);
    SettleTouchesOneRun(b, r, k, answer);
  }

  lemma LiveFinishSame(a: Hook, b: Hook, r: nat)
    requires SameVisible(a, b) && CanFinish(a, r) && a.runs[r] == b.runs[r]
    ensures SameVisible(FinishStep(a, r), FinishStep(b, r))
  {
    FinishTouchesOneRun(a, r);
    FinishTouchesOneRun(b, r);
  }

  lemma LiveStartSame(a: Hook, b: Hook, groups: seq<Group>)
    requires IdsOk(a) && SameVisible(a, b)
    ensures SameVisible(StartStep(a, groups), StartStep(b, groups))
  {
    var work := WorkList(groups);
    if work != [] {
      assert SameVisible(Prepared(a, work), Prepared(b, work));
      OpenSlotsSame(Prepared(a, work), Prepared(b, work), |a.runs|, SlotCount(work));
    }
  }

  lemma LiveStepSame(a: Hook, b: Hook, e: Event)
    requires IdsOk(a) && SameVisible(a, b) && !TargetsStaleRun(a, e)
    ensures SameVisible(Step(a, e), Step(b, e))
  {
    match e
    case Start(groups) => LiveStartSame(a, b, groups);
    case Settle(r, k, answer) =>
      if AwaitsAnswer(a, r, k) {
        LiveSettleSame(a, b, r, k, answer);
      }
    case Finish(r) =>
      if CanFinish(a, r) {
        LiveFinishSame(a, b, r);
      }
    case Cancel =>
    case Reset =>
  }

  /** Whatever a superseded run still does changes nothing that can be seen, then or later. */
  lemma {:induction false} StaleRunsAreSilent(a: Hook, b: Hook, es: seq<Event>)
    requires Inv(a) && SlotsOpen(a) && SameVisible(a, b)
    ensures SameVisible(Exec(a, es), Exec(b, WithoutStale(a, es)))
    decreases |es|
  {
    if es != [] {
      StepKeeps(a, es[0]);
      if TargetsStaleRun(a, es[0]) {
        StaleStepInvisible(a, b, es[0]);
        StaleRunsAreSilent(Step(a, es[0]), b, es[1..]);
      } else {
        LiveStepSame(a, b, es[0]);
        StaleRunsAreSilent(Step(a, es[0]), Step(b, es[0]), es[1..]);
        var rest := WithoutStale(Step(a, es[0]), es[1..]);
        assert ([es[0]] + rest)[1..] == rest;
      }
    }
  }

  // ---------------------------------------------------------------- the group badge

  datatype GroupStatus = Unverified | GroupRunning | GroupVerified | Partial

  function StatusesFrom(group: Group, results: map<int, FileResult>, j: nat): seq<Status>
    requires j <= |group.files|
    decreases |group.files| - j
  {
    if j == |group.files| then []
    else
      var id := group.files[j].fileId;
      var status := if id in results then results[id].status else Pending;
      (if status == Pending then [] else [status]) + StatusesFrom(group, results, j + 1)
  }

  /** `groupVerifyStatus`; the declared value `error` is never produced. */
  function GroupVerifyStatus(group: Group, results: map<int, FileResult>): GroupStatus {
    if |group.files| <= 1 then Unverified
    else if forall j :: 1 <= j < |group.files| ==> group.files[j].fileId !in results then Unverified
    else
      var statuses := StatusesFrom(group, results, 1);
      if Running in statuses then GroupRunning
      else if statuses != [] && (forall s :: s in statuses ==> s == Verified) then GroupVerified
      else if Error in statuses then Partial
      else Unverified
  }

  /** File `j` of the group, not its anchor, is in the list with this status. */
  predicate ShowsStatus(group: Group, results: map<int, FileResult>, j: int, status: Status) {
    1 <= j < |group.files| && group.files[j].fileId in results && results[group.files[j].fileId].status == status
  }

  lemma {:induction false} StatusesAreThoseOfFiles(group: Group, results: map<int, FileResult>, k: nat, s: Status)
    requires 1 <= k <= |group.files|
    ensures s in StatusesFrom(group, results, k) <==>
      s != Pending && exists j :: k <= j < |group.files| && ShowsStatus(group, results, j, s)
    decreases |group.files| - k
  {
    if k < |group.files| {
      StatusesAreThoseOfFiles(group, results, k + 1, s);
      var rest := StatusesFrom(group, results, k + 1);
      var id := group.files[k].fileId;
      var status := if id in results then results[id].status else Pending;
      assert s in (if status == Pending then [] else [status]) + rest <==> (s == status != Pending) || s in rest;
      assert s == status != Pending ==> ShowsStatus(group, results, k, s);
    }
  }

  /** Some file of the group, not its anchor, is in the list with this status. */
  ghost predicate SomeFile(group: Group, results: map<int, FileResult>, status: Status) {
    exists j :: ShowsStatus(group, results, j, status)
  }

  /** Which badge a group has, whatever the list shows: a comparison under way wins, then the failures; pending files are passed over. */
  lemma BadgeIsExact(group: Group, results: map<int, FileResult>)
    ensures var badge := GroupVerifyStatus(group, results);
      && (badge == GroupRunning <==> SomeFile(group, results, Running))
      && (badge == GroupVerified <==>
            && SomeFile(group, results, Verified)
            && !SomeFile(group, results, Running) && !SomeFile(group, results, Mismatch) && !SomeFile(group, results, Error))
      && (badge == Partial <==> SomeFile(group, results, Error) && !SomeFile(group, results, Running))
  {
    if |group.files| > 1 {
      forall s: Status
        ensures s in StatusesFrom(group, results, 1) <==> s != Pending && SomeFile(group, results, s)
      {
        StatusesAreThoseOfFiles(group, results, 1, s);
      }
      BadgeOfStatuses(StatusesFrom(group, results, 1));
    }
  }

  /** The order in which the statuses are looked at. */
  lemma BadgeOfStatuses(statuses: seq<Status>)
    requires Pending !in statuses
    ensures statuses != [] && (forall s :: s in statuses ==> s == Verified) <==>
      Verified in statuses && Running !in statuses && Mismatch !in statuses && Error !in statuses
  {
    if statuses != [] {
      assert statuses[0] in statuses;
    }
  }

  lemma BadgeOfSettledGroup(group: Group, results: map<int, FileResult>)
    requires |group.files| >= 2
    requires forall j :: 1 <= j < |group.files| ==>
      group.files[j].fileId in results && results[group.files[j].fileId].status in {Verified, Mismatch, Error}
    ensures var badge := GroupVerifyStatus(group, results);
      var n := |group.files|;
      && (badge == GroupVerified <==> forall j :: 1 <= j < n ==> results[group.files[j].fileId].status == Verified)
      && (badge == Partial <==> exists j :: 1 <= j < n && results[group.files[j].fileId].status == Error)
      && badge != GroupRunning
  {
    BadgeIsExact(group, results);
    var n := |group.files|;
    assert forall j :: 1 <= j < n ==> ShowsStatus(group, results, j, results[group.files[j].fileId].status);
    assert 1 < n && group.files[1].fileId in results;
  }

  /** What the comparison of file `j` of group `g` answered. */
  function AnswerOf(run: Run, groups: seq<Group>, g: nat, j: nat): Option<Answer>
    requires g < |groups| && 1 <= j
  {
    Lookup(run.answers, PlaceOf(groups, g, j))
  }

  /** The badge says what the comparisons of the group's own files answered. */
  ghost predicate BadgeSays(badge: GroupStatus, run: Run, groups: seq<Group>, g: nat)
    requires g < |groups|
  {
    var n := |groups[g].files|;
    && (badge == GroupVerified <==> forall j :: 1 <= j < n ==> AnswerOf(run, groups, g, j) == Some(Identical))
    && (badge == Partial <==>
          exists j :: 1 <= j < n && AnswerOf(run, groups, g, j).Some? && AnswerOf(run, groups, g, j).value.Rejected?)
    && badge != GroupRunning
  }

  /** After a run that was neither cancelled nor superseded the badge of every group says exactly what the comparisons of its own files answered. */
  lemma BadgeAfterCompletedRun(pre: seq<Event>, groups: seq<Group>, post: seq<Event>, g: nat)
    requires g < |groups| && |groups[g].files| >= 2
    requires WorkList(groups) != [] && DistinctIds(WorkList(groups))
    requires forall e :: e in post ==> !Supersedes(e) && e != Cancel
    requires HasReturned(pre, groups, post)
    ensures var h := AfterStart(pre, groups, post);
      BadgeSays(GroupVerifyStatus(groups[g], h.ui.results), h.runs[RunOf(pre)], groups, g)
  {
    UndisturbedRunCompletes(pre, groups, post);
    var h := AfterStart(pre, groups, post);
    BadgeOfVerdicts(h, h.runs[RunOf(pre)], groups, g);
  }

  lemma BadgeOfVerdicts(h: Hook, run: Run, groups: seq<Group>, g: nat)
    requires g < |groups| && |groups[g].files| >= 2
    requires forall j :: 1 <= j < |groups[g].files| ==> HoldsOwnVerdict(h, run, groups, g, j)
    ensures BadgeSays(GroupVerifyStatus(groups[g], h.ui.results), run, groups, g)
  {
    var group := groups[g];
    var results := h.ui.results;
    forall j | 1 <= j < |group.files|
      ensures group.files[j].fileId in results
      ensures AnswerOf(run, groups, g, j).Some?
      ensures Says(results[group.files[j].fileId].status, AnswerOf(run, groups, g, j).value)
    {
      assert HoldsOwnVerdict(h, run, groups, g, j);
    }
    BadgeOfSettledGroup(group, results);
    if GroupVerifyStatus(group, results) == Partial {
      var j :| 1 <= j < |group.files| && results[group.files[j].fileId].status == Error;
      assert AnswerOf(run, groups, g, j).value.Rejected?;
    }
  }

  /** Run `r`, which owns the screen, is comparing file `j` of group `g`. */
  predicate Compares(h: Hook, r: nat, groups: seq<Group>, g: nat, j: nat) {
    && r < |h.runs| && !Stale(h, h.runs[r])
    && h.runs[r].work == WorkList(groups) && DistinctIds(h.runs[r].work)
    && g < |groups| && 1 <= j < |groups[g].files|
    && PlaceOf(groups, g, j) < h.runs[r].cursor && PlaceOf(groups, g, j) !in h.runs[r].answers
  }

  /** A group with a comparison under way shows it. */
  lemma BadgeWhileComparing(es: seq<Event>, r: nat, groups: seq<Group>, g: nat, j: nat)
    ensures Compares(Exec(INITIAL, es), r, groups, g, j) ==>
      GroupVerifyStatus(groups[g], Exec(INITIAL, es).ui.results) == GroupRunning
  {
    ExecKeeps(INITIAL, es);
    ComparingShowsRunning(Exec(INITIAL, es), r, groups, g, j);
  }

  lemma ComparingShowsRunning(h: Hook, r: nat, groups: seq<Group>, g: nat, j: nat)
    requires Inv(h)
    ensures Compares(h, r, groups, g, j) ==> GroupVerifyStatus(groups[g], h.ui.results) == GroupRunning
  {
    if Compares(h, r, groups, g, j) {
      WorkListPlaces(groups, g, j);
      ClaimedShowsRunning(h, r, PlaceOf(groups, g, j));
      OneRunningIsEnough(groups[g], h.ui.results, j);
    }
  }

  lemma OneRunningIsEnough(group: Group, results: map<int, FileResult>, j: nat)
    requires ShowsStatus(group, results, j, Running)
    ensures GroupVerifyStatus(group, results) == GroupRunning
  {
    BadgeIsExact(group, results);
  }

  lemma ClaimedShowsRunning(h: Hook, r: nat, i: nat)
    requires Inv(h) && r < |h.runs| && !Stale(h, h.runs[r]) && DistinctIds(h.runs[r].work)
    requires i < |h.runs[r].work| && i < h.runs[r].cursor && i !in h.runs[r].answers
    ensures h.runs[r].work[i].fileId in h.ui.results && h.ui.results[h.runs[r].work[i].fileId].status == Running
  {
    assert RunOk(h, h.runs[r]);
    assert h.ui.results[h.runs[r].work[i].fileId] == Shown(h.runs[r], i);
  }

  // ---------------------------------------------------------------- the hook itself

  lemma StartOpensSlots(h: Hook, groups: seq<Group>)
    requires WorkList(groups) != []
    ensures Step(h, Start(groups))
         == OpenSlots(Prepared(h, WorkList(groups)), |h.runs|, SlotCount(WorkList(groups)))
  {
  }

  /** The refs and state of the mounted hook; each method is one atomic step of the code. */
  class DeepVerifyHook {
    var runIdRef: nat
    var cancelledRef: bool
    var state: Ui
    var runs: seq<Run>

    function Snapshot(): Hook
      reads this
    {
      Hook(runIdRef, cancelledRef, state, runs)
    }

    constructor ()
      ensures Snapshot() == INITIAL
    {
      runIdRef, cancelledRef, state, runs := 0, false, IDLE_UI, [];
    }

    method CancelRun()
      modifies this
      ensures Snapshot() == Step(old(Snapshot()), Cancel)
    {
      cancelledRef := true;
    }

    method ResetRun()
      modifies this
      ensures Snapshot() == Step(old(Snapshot()), Reset)
    {
      runIdRef := runIdRef + 1;
      cancelledRef := false;
      state := IDLE_UI;
    }

    /** The outer of the two loops that build the work list. */
    static method BuildWorkList(groups: seq<Group>) returns (workItems: seq<WorkItem>)
      ensures workItems == WorkList(groups)
    {
      workItems := [];
      for g := 0 to |groups|
        invariant workItems == WorkListTo(groups, g)
      {
        workItems := EnqueueGroup(workItems, groups[g]);
      }
    }

    /** The inner loop: every file of a group of two or more but the anchor. */
    static method EnqueueGroup(before: seq<WorkItem>, group: Group) returns (workItems: seq<WorkItem>)
      ensures workItems == before + GroupItems(group)
    {
      workItems := before;
      var files := group.files;
      if |files| < 2 {
        return;
      }
      for j := 1 to |files|
        invariant workItems == before + GroupItems(group)[..j - 1]
      {
        assert GroupItems(group)[..j] == GroupItems(group)[..j - 1] + [GroupItems(group)[j - 1]];
        workItems := workItems + [WorkItem(files[j].fileId, files[j].path, files[0].fileId, files[0].path)];
      }
      assert GroupItems(group)[..|files| - 1] == GroupItems(group);
    }

    static method PendingResults(workItems: seq<WorkItem>) returns (results: map<int, FileResult>)
      ensures results == InitialResults(workItems)
    {
      results := map[];
      for i := 0 to |workItems|
        invariant results == InitialResults(workItems[..i])
      {
        assert workItems[..i + 1][..i] == workItems[..i];
        results := results[workItems[i].fileId := FileResult(workItems[i].fileId, workItems[i].path, Pending, None)];
      }
      assert workItems[..|workItems|] == workItems;
    }

    /** The list of pending files, shown and owned by a new run. */
    method ShowPending(workItems: seq<WorkItem>)
      modifies this`state, this`runs
      ensures state == Ui(Busy, Some(Progress(0, |workItems|, 0, None)), InitialResults(workItems), None)
      ensures runs == old(runs) + [Run(runIdRef, workItems, 0, map[], 0, 0, 0, 0, [], false)]
    {
      var results := PendingResults(workItems);
      state := Ui(Busy, Some(Progress(0, |workItems|, 0, None)), results, None);
      runs := runs + [Run(runIdRef, workItems, 0, map[], 0, 0, 0, 0, [], false)];
    }

    method StartRun(groups: seq<Group>)
      modifies this
      ensures Snapshot() == Step(old(Snapshot()), Start(groups))
    {
      var r := |runs|;
      runIdRef := runIdRef + 1;
      cancelledRef := false;
      var workItems := BuildWorkList(groups);
      if |workItems| == 0 {
        state := NOTHING_TO_DO_UI;
        return;
      }
      ShowPending(workItems);
      assert Snapshot() == Prepared(old(Snapshot()), workItems);
      OpenAll(r, SlotCount(workItems));
      StartOpensSlots(old(Snapshot()), groups);
    }

    /** As many calls of `runSlot` as there are slots. */
    method OpenAll(r: nat, count: nat)
      requires r < |runs|
      modifies this
      ensures Snapshot() == OpenSlots(old(Snapshot()), r, count)
    {
      for n := 0 to count
        invariant |runs| == |old(runs)|
        invariant Snapshot() == OpenSlots(old(Snapshot()), r, n)
      {
        OpenOne(r);
      }
    }

    /** One more call of `runSlot`. */
    method OpenOne(r: nat)
      requires r < |runs|
      modifies this
      ensures Snapshot() == OpenSlot(old(Snapshot()), r)
    {
      var k := |runs[r].slots|;
      runs := runs[r := runs[r].(slots := runs[r].slots + [Ended])];
      LoopHead(r, k);
    }

    /** One pass of `runSlot`'s loop head, up to its `await` or its end. */
    method LoopHead(r: nat, k: nat)
      requires r < |runs| && k < |runs[r].slots|
      modifies this
      ensures Snapshot() == Advance(old(Snapshot()), r, k)
    {
      var run := runs[r];
      if run.cursor >= |run.work| || cancelledRef || runIdRef != run.id {
        runs := runs[r := run.(slots := run.slots[k := Ended])];
        return;
      }
      var item := run.work[run.cursor];
      runs := runs[r := run.(cursor := run.cursor + 1, slots := run.slots[k := InFlight(run.cursor)])];
      var before := if item.fileId in state.results then state.results[item.fileId]
                    else FileResult(item.fileId, item.path, Pending, None);
      var percent := Percent(run.completed, |run.work|);
      state := state.(progress := Some(Progress(run.completed, |run.work|, percent, Some(item.path))),
                      results := state.results[item.fileId := before.(status := Running)]);
    }

    /** What a slot does when its comparison answers or is refused. */
    method SettleSlot(r: nat, k: nat, answer: Answer)
      modifies this
      ensures Snapshot() == Step(old(Snapshot()), Settle(r, k, answer))
    {
      if !AwaitsAnswer(Snapshot(), r, k) {
        return;
      }
      var run := runs[r];
      var index := run.slots[k].item;
      var item := run.work[index];
      run := run.(completed := run.completed + 1, answers := run.answers[index := answer], slots := run.slots[k := Ended]);
      match answer {
        case Identical => run := run.(verified := run.verified + 1);
        case Different => run := run.(mismatches := run.mismatches + 1);
        case Rejected(_) => run := run.(errors := run.errors + 1);
      }
      runs := runs[r := run];
      if runIdRef != run.id {
        return;
      }
      state := ShowSettled(state, run.completed, |run.work|, item, answer);
      LoopHead(r, k);
    }

    /** What follows `Promise.all` of a run's slots. */
    method FinishRun(r: nat)
      modifies this
      ensures Snapshot() == Step(old(Snapshot()), Finish(r))
    {
      if !CanFinish(Snapshot(), r) {
        return;
      }
      var run := runs[r].(returned := true);
      runs := runs[r := run];
      if runIdRef != run.id {
        return;
      }
      var percent := if cancelledRef then Percent(run.completed, |run.work|) else 100;
      state := state.(phase := if cancelledRef then Cancelled else Done,
                      progress := Some(Progress(run.completed, |run.work|, percent, None)),
                      summary := Some(Summary(run.completed, run.verified, run.mismatches, run.errors)));
    }
  }
}
