/**
  The preload pool of `useBlinkCache`: a bounded set of loads in flight, the next one always
  the nearest frame ahead of the current one, restarted from scratch when what an index loads
  changes. A load of an abandoned pool may still settle at any time.

  A render, the effects it triggers and a settlement callback are one step each.
 */
module BlinkCache {
  import opened Common
  import opened Lists

  datatype Load = Load(pool: nat, index: nat)

  /**
    `outstanding` are the load promises that have not settled, of any pool; `picks` is a history
    variable, the indices dispatched by the current pool in order. `armed` says that the restart
    effect is set up and its cleanup registered.
   */
  datatype Cache = Cache(total: nat, current: nat, limit: nat, loaded: set<nat>, dispatched: set<nat>,
                         inflight: int, pool: nat, unmounted: bool, armed: bool,
                         outstanding: seq<Load>, picks: seq<nat>)

  datatype Event =
    | Restart(ready: bool, total: nat, current: nat, loaded: set<nat>)
    | Navigate(index: nat)
    | ImageLoaded(index: nat)
    | Settle(k: nat)
    | Unmount

  const DEFAULT_MAX_CONCURRENT := 8

  /** `maxConcurrent || DEFAULT_MAX_CONCURRENT`. */
  function Limit(maxConcurrent: nat): nat {
    if maxConcurrent == 0 then DEFAULT_MAX_CONCURRENT else maxConcurrent
  }

  function Initial(maxConcurrent: nat): Cache {
    Cache(0, 0, Limit(maxConcurrent), {}, {}, 0, 0, false, false, [], [])
  }

  // ---------------------------------------------------------------- the pick

  predicate Available(c: Cache, index: nat) {
    index !in c.loaded && index !in c.dispatched
  }

  function PickFrom(c: Cache, offset: nat): Option<nat>
    requires c.total > 0
    decreases c.total - offset
  {
    if offset >= c.total then None
    else if Available(c, (c.current + offset) % c.total) then Some((c.current + offset) % c.total)
    else PickFrom(c, offset + 1)
  }

  function PickNext(c: Cache): Option<nat> {
    if c.total == 0 then None
    else if Available(c, c.current) then Some(c.current)
    else PickFrom(c, 1)
  }

  /** How many frames ahead of the current one, going round. */
  function Ahead(c: Cache, index: nat): int {
    if index >= c.current then index - c.current else index + c.total - c.current
  }

  lemma AheadReached(c: Cache, offset: nat)
    requires c.current < c.total && offset < c.total
    ensures (c.current + offset) % c.total < c.total
    ensures Ahead(c, (c.current + offset) % c.total) == offset
  {
    if c.current + offset < c.total {
    } else {
      assert (c.current + offset) % c.total == c.current + offset - c.total;
    }
  }

  lemma {:induction false} PickFromIsNearest(c: Cache, offset: nat)
    requires c.current < c.total
    requires forall j :: 0 <= j < c.total && Available(c, j) ==> Ahead(c, j) >= offset
    ensures match PickFrom(c, offset)
      case None => forall j :: 0 <= j < c.total ==> !Available(c, j)
      case Some(i) => i < c.total && Available(c, i)
                      && forall j :: 0 <= j < c.total && Available(c, j) ==> Ahead(c, i) <= Ahead(c, j)
    decreases c.total - offset
  {
    if offset < c.total {
      var here := (c.current + offset) % c.total;
      AheadReached(c, offset);
      if !Available(c, here) {
        forall j | 0 <= j < c.total && Available(c, j)
          ensures Ahead(c, j) >= offset + 1
        {
          assert Ahead(c, j) == offset ==> j == here;
        }
        PickFromIsNearest(c, offset + 1);
      }
    }
  }

  /** The pick is the available frame the fewest steps ahead; there is none only when no frame is available. */
  lemma PickIsNearestAhead(c: Cache)
    requires c.current < c.total
    ensures match PickNext(c)
      case None => forall j :: 0 <= j < c.total ==> !Available(c, j)
      case Some(i) => i < c.total && Available(c, i)
                      && forall j :: 0 <= j < c.total && Available(c, j) ==> Ahead(c, i) <= Ahead(c, j)
  {
    if !Available(c, c.current) {
      PickFromIsNearest(c, 1);
    }
  }

  /** How many frames away either way, going round. */
  function Apart(c: Cache, index: nat): int {
    Min(Ahead(c, index), c.total - Ahead(c, index))
  }

  predicate NearestBothWays(c: Cache, i: nat) {
    forall j :: 0 <= j < c.total && Available(c, j) ==> Apart(c, i) <= Apart(c, j)
  }

  predicate OneAvailable(c: Cache) {
    forall i, j :: 0 <= i < c.total && 0 <= j < c.total && Available(c, i) && Available(c, j) ==> i == j
  }

  /** Frame `i` lies no farther ahead than any available frame lies behind. */
  predicate AheadOfAllBehind(c: Cache, i: nat) {
    forall j :: 0 <= j < c.total && Available(c, j) ==> Ahead(c, i) <= c.total - Ahead(c, j)
  }

  predicate LeastAhead(c: Cache, i: nat) {
    i < c.total && Available(c, i) && forall j :: 0 <= j < c.total && Available(c, j) ==> Ahead(c, i) <= Ahead(c, j)
  }

  lemma NearestWhenAheadOfAll(c: Cache, pick: nat, i: nat)
    requires c.current < c.total && LeastAhead(c, pick)
    requires i < c.total && Available(c, i) && AheadOfAllBehind(c, i)
    ensures NearestBothWays(c, pick)
  {
    forall j | 0 <= j < c.total && Available(c, j)
      ensures Apart(c, pick) <= Apart(c, j)
    {
      assert Ahead(c, pick) <= Ahead(c, j) && Ahead(c, i) <= c.total - Ahead(c, j) && Ahead(c, pick) <= Ahead(c, i);
    }
  }

  lemma NearestIsAheadOfAll(c: Cache, pick: nat, other: nat)
    requires c.current < c.total && LeastAhead(c, pick) && NearestBothWays(c, pick)
    requires other < c.total && Available(c, other) && other != pick
    ensures AheadOfAllBehind(c, pick)
  {
    assert Ahead(c, pick) < Ahead(c, other) && Apart(c, pick) <= Apart(c, other);
    assert 2 * Ahead(c, pick) <= c.total;
    forall j | 0 <= j < c.total && Available(c, j)
      ensures Ahead(c, pick) <= c.total - Ahead(c, j)
    {
      assert Apart(c, pick) <= Apart(c, j);
    }
  }

  /** The pick is the nearest frame both ways exactly when only one frame is available, or some available frame lies no farther ahead than any lies behind. */
  lemma PickIsNearestBothWays(c: Cache)
    requires c.current < c.total && PickNext(c).Some?
    ensures NearestBothWays(c, PickNext(c).value)
       <==> OneAvailable(c) || exists i :: 0 <= i < c.total && Available(c, i) && AheadOfAllBehind(c, i)
  {
    PickIsNearestAhead(c);
    var pick := PickNext(c).value;
    assert LeastAhead(c, pick);
    if i :| 0 <= i < c.total && Available(c, i) && AheadOfAllBehind(c, i) {
      NearestWhenAheadOfAll(c, pick, i);
    } else if !OneAvailable(c) {
      var other :| 0 <= other < c.total && Available(c, other) && other != pick;
      if NearestBothWays(c, pick) {
        NearestIsAheadOfAll(c, pick, other);
      }
    }
  }

  /** And it happens that it is not: with the current frame and the next one loaded, a new pool skips the frame just behind. */
  lemma CloserFrameBehindIsSkipped()
    ensures var es := [Restart(true, 5, 2, {2, 3})];
      var c := Initial(1).(total := 5, current := 2, loaded := {2, 3});
      && AllInRange(Initial(1), es) && Exec(Initial(1), es).picks == [4]
      && Available(c, 1) && !NearestBothWays(c, 4)
  {
    var es := [Restart(true, 5, 2, {2, 3})];
    var c := Cache(5, 2, 1, {2, 3}, {}, 0, 1, false, true, [], []);
    assert PickFrom(c, 1) == PickFrom(c, 2) == Some(4);
    assert Step(Initial(1), es[0]) == TryDispatch(c) == Dispatch(Issue(c, 4)) == Issue(c, 4);
    assert es[1..] == [];
    var shown := Initial(1).(total := 5, current := 2, loaded := {2, 3});
    assert Available(shown, 1) && Apart(shown, 1) < Apart(shown, 4);
  }

  // ---------------------------------------------------------------- the steps

  function Issue(c: Cache, index: nat): Cache {
    c.(dispatched := c.dispatched + {index}, inflight := c.inflight + 1,
       outstanding := c.outstanding + [Load(c.pool, index)], picks := c.picks + [index])
  }

  function Dispatch(c: Cache): Cache
    decreases c.limit - c.inflight
  {
    if c.inflight >= c.limit || PickNext(c).None? then c else Dispatch(Issue(c, PickNext(c).value))
  }

  function TryDispatch(c: Cache): Cache {
    if c.unmounted then c else Dispatch(c)
  }

  function NewPool(c: Cache): Cache {
    c.(unmounted := false, armed := true, pool := c.pool + 1, dispatched := {}, inflight := 0, picks := [])
  }

  /** The restart effect: the cleanup of the previous one first, then a new pool if there is something to load. */
  function RestartStep(c: Cache, ready: bool, total: nat, current: nat, loaded: set<nat>): Cache {
    var c1 := c.(total := total, current := current, loaded := loaded,
                 unmounted := c.unmounted || c.armed, armed := false);
    if !ready || total == 0 then c1 else TryDispatch(NewPool(c1))
  }

  function SettleStep(c: Cache, k: nat): Cache {
    if k >= |c.outstanding| then c
    else
      var c1 := c.(outstanding := Removed(c.outstanding, k));
      if c.outstanding[k].pool != c.pool then c1 else TryDispatch(c1.(inflight := c.inflight - 1))
  }

  function Step(c: Cache, e: Event): Cache {
    match e
    case Restart(ready, total, current, loaded) => RestartStep(c, ready, total, current, loaded)
    case Navigate(index) => TryDispatch(c.(current := index))
    case ImageLoaded(index) => c.(loaded := c.loaded + {index})
    case Settle(k) => SettleStep(c, k)
    case Unmount => c.(unmounted := c.unmounted || c.armed, armed := false)
  }

  function Exec(c: Cache, es: seq<Event>): Cache
    decreases |es|
  {
    if es == [] then c else Exec(Step(c, es[0]), es[1..])
  }

  // ---------------------------------------------------------------- what every run keeps

  function InPool(pool: nat): Load -> bool {
    (l: Load) => l.pool == pool
  }

  function UnsettledOf(s: seq<Load>, pool: nat): nat {
    Count(s, InPool(pool))
  }

  /** The counter counts the current pool's unsettled loads, within the limit, and no pool picks a frame twice. */
  ghost predicate Counted(c: Cache) {
    && c.inflight == UnsettledOf(c.outstanding, c.pool) <= c.limit
    && (forall k :: 0 <= k < |c.outstanding| ==> c.outstanding[k].pool <= c.pool)
    && (forall i :: i in c.dispatched <==> i in c.picks)
    && (forall i, j :: 0 <= i < j < |c.picks| ==> c.picks[i] != c.picks[j])
  }

  /** The limit is reached, or every frame is loaded or dispatched. */
  predicate Saturated(c: Cache) {
    c.inflight >= c.limit || forall i :: 0 <= i < c.total ==> i in c.loaded || i in c.dispatched
  }

  ghost predicate Inv(c: Cache) {
    && Counted(c)
    && c.limit > 0
    && (c.total > 0 ==> c.current < c.total)
    && (c.armed ==> !c.unmounted && Saturated(c))
  }

  /** The caller keeps the current index inside the frames it shows. */
  predicate InRange(c: Cache, e: Event) {
    match e
    case Restart(_, total, current, _) => total > 0 ==> current < total
    case Navigate(index) => c.total > 0 ==> index < c.total
    case _ => true
  }

  lemma IssueCounts(c: Cache, index: nat)
    requires Counted(c) && index !in c.dispatched && c.inflight < c.limit
    ensures Counted(Issue(c, index))
  {
    CountOneMore(c.outstanding, Load(c.pool, index), InPool(c.pool));
  }

  lemma NothingToPickIsSaturated(c: Cache)
    requires (c.total > 0 ==> c.current < c.total) && PickNext(c).None?
    ensures Saturated(c)
  {
    if c.total > 0 {
      PickIsNearestAhead(c);
      assert forall i :: 0 <= i < c.total && !Available(c, i) ==> i in c.loaded || i in c.dispatched;
    }
  }

  /** What a dispatch pass leaves alone. */
  predicate OnlyDispatched(c: Cache, d: Cache) {
    && d.total == c.total && d.current == c.current && d.limit == c.limit && d.loaded == c.loaded
    && d.pool == c.pool && d.unmounted == c.unmounted && d.armed == c.armed
    && c.picks <= d.picks
  }

  lemma {:induction false} DispatchOnlyDispatches(c: Cache)
    ensures OnlyDispatched(c, Dispatch(c))
    decreases c.limit - c.inflight
  {
    if c.inflight < c.limit && PickNext(c).Some? {
      DispatchOnlyDispatches(Issue(c, PickNext(c).value));
    }
  }

  lemma PickIsFresh(c: Cache)
    requires (c.total > 0 ==> c.current < c.total) && PickNext(c).Some?
    ensures PickNext(c).value !in c.dispatched
  {
    PickIsNearestAhead(c);
  }

  /** A dispatch pass keeps the count and ends saturated. */
  lemma {:induction false} DispatchSaturates(c: Cache)
    requires Counted(c) && (c.total > 0 ==> c.current < c.total)
    ensures Counted(Dispatch(c)) && Saturated(Dispatch(c)) && OnlyDispatched(c, Dispatch(c))
    decreases c.limit - c.inflight
  {
    DispatchOnlyDispatches(c);
    if c.inflight < c.limit {
      if PickNext(c).None? {
        NothingToPickIsSaturated(c);
      } else {
        PickIsFresh(c);
        IssueCounts(c, PickNext(c).value);
        DispatchSaturates(Issue(c, PickNext(c).value));
      }
    }
  }

  lemma RestartKeeps(c: Cache, ready: bool, total: nat, current: nat, loaded: set<nat>)
    requires Inv(c) && (total > 0 ==> current < total)
    ensures Inv(RestartStep(c, ready, total, current, loaded))
  {
    if ready && total > 0 {
      CountNone(c.outstanding, InPool(c.pool + 1));
      DispatchSaturates(Cache(total, current, c.limit, loaded, {}, 0, c.pool + 1, false, true, c.outstanding, []));
    }
  }

  lemma SettleKeeps(c: Cache, k: nat)
    requires Inv(c)
    ensures Inv(SettleStep(c, k))
  {
    if k < |c.outstanding| {
      SettleCounts(c, k);
      if c.outstanding[k].pool == c.pool {
        DispatchSaturates(c.(outstanding := Removed(c.outstanding, k), inflight := c.inflight - 1));
      }
    }
  }

  lemma SettleCounts(c: Cache, k: nat)
    requires Counted(c) && k < |c.outstanding|
    ensures Counted(c.(outstanding := Removed(c.outstanding, k),
                       inflight := c.inflight - if c.outstanding[k].pool == c.pool then 1 else 0))
  {
    CountRemoved(c.outstanding, k, InPool(c.pool));
  }

  lemma StepKeeps(c: Cache, e: Event)
    requires Inv(c) && InRange(c, e)
    ensures Inv(Step(c, e))
  {
    match e
    case Restart(ready, total, current, loaded) => RestartKeeps(c, ready, total, current, loaded);
    case Navigate(index) => DispatchSaturates(c.(current := index));
    case ImageLoaded(_) =>
    case Settle(k) => SettleKeeps(c, k);
    case Unmount =>
  }

  predicate AllInRange(c: Cache, es: seq<Event>)
    decreases |es|
  {
    es == [] || (InRange(c, es[0]) && AllInRange(Step(c, es[0]), es[1..]))
  }

  lemma {:induction false} ExecKeeps(c: Cache, es: seq<Event>)
    requires Inv(c) && AllInRange(c, es)
    ensures Inv(Exec(c, es))
    decreases |es|
  {
    if es != [] {
      StepKeeps(c, es[0]);
      ExecKeeps(Step(c, es[0]), es[1..]);
    }
  }

  lemma StepKeepsLimit(c: Cache, e: Event)
    ensures Step(c, e).limit == c.limit
  {
    match e
    case Restart(ready, total, current, loaded) =>
      DispatchOnlyDispatches(Cache(total, current, c.limit, loaded, {}, 0, c.pool + 1, false, true, c.outstanding, []));
    case Navigate(index) => DispatchOnlyDispatches(c.(current := index));
    case Settle(k) =>
      if k < |c.outstanding| {
        DispatchOnlyDispatches(c.(outstanding := Removed(c.outstanding, k), inflight := c.inflight - 1));
      }
    case _ =>
  }

  lemma {:induction false} ExecKeepsLimit(c: Cache, es: seq<Event>)
    ensures Exec(c, es).limit == c.limit
    decreases |es|
  {
    if es != [] {
      StepKeepsLimit(c, es[0]);
      ExecKeepsLimit(Step(c, es[0]), es[1..]);
    }
  }

  /** Over every run of restarts, navigation and late settlements. */
  lemma PoolIsExactAndSaturated(maxConcurrent: nat, es: seq<Event>)
    requires AllInRange(Initial(maxConcurrent), es)
    ensures var c := Exec(Initial(maxConcurrent), es);
      && c.limit == (if maxConcurrent == 0 then 8 else maxConcurrent)
      && c.inflight == UnsettledOf(c.outstanding, c.pool) <= c.limit
      && (forall i, j :: 0 <= i < j < |c.picks| ==> c.picks[i] != c.picks[j])
      && (c.armed ==> c.inflight == c.limit || forall i :: 0 <= i < c.total ==> i in c.loaded || i in c.picks)
  {
    ExecKeeps(Initial(maxConcurrent), es);
    ExecKeepsLimit(Initial(maxConcurrent), es);
  }

  /** When nothing is in flight any more, nothing was left out. */
  lemma IdlePoolHasDispatchedEverything(maxConcurrent: nat, es: seq<Event>)
    requires AllInRange(Initial(maxConcurrent), es)
    requires var c := Exec(Initial(maxConcurrent), es); c.armed && UnsettledOf(c.outstanding, c.pool) == 0
    ensures var c := Exec(Initial(maxConcurrent), es);
      forall i :: 0 <= i < c.total ==> i in c.loaded || i in c.picks
  {
    ExecKeeps(Initial(maxConcurrent), es);
  }

  /** A settlement of an abandoned pool changes nothing but the list of promises. */
  lemma AbandonedSettlementIsSilent(c: Cache, k: nat)
    requires k < |c.outstanding| && c.outstanding[k].pool != c.pool
    ensures SettleStep(c, k) == c.(outstanding := SettleStep(c, k).outstanding)
  {
  }

  // ---------------------------------------------------------------- which frames a pass asks for

  /** The picks a pass adds are the available frames nearest ahead of the current one, in that order. */
  predicate TakesTheNearest(c: Cache, d: Cache) {
    && c.picks <= d.picks && d.inflight - c.inflight == |d.picks| - |c.picks|
    && (forall k :: |c.picks| <= k < |d.picks| ==> d.picks[k] < c.total && Available(c, d.picks[k]))
    && (forall k, l :: |c.picks| <= k < l < |d.picks| ==> Ahead(c, d.picks[k]) < Ahead(c, d.picks[l]))
    && (forall k, j :: |c.picks| <= k < |d.picks| && 0 <= j < c.total && Available(d, j) ==>
          Ahead(c, d.picks[k]) < Ahead(c, j))
  }

  lemma AheadTellsApart(c: Cache, i: nat, j: nat)
    requires c.current < c.total && i < c.total && j < c.total && Ahead(c, i) == Ahead(c, j)
    ensures i == j
  {
  }

  /** The nearest first, then the nearest of the rest. */
  lemma NearestThenRest(c: Cache, pick: nat, d: Cache)
    requires c.current < c.total && LeastAhead(c, pick) && TakesTheNearest(Issue(c, pick), d)
    requires d.loaded == c.loaded && c.dispatched + {pick} <= d.dispatched
    ensures TakesTheNearest(c, d)
  {
    var c1 := Issue(c, pick);
    assert d.picks[|c.picks|] == pick;
    forall j | 0 <= j < c.total && Available(c, j) && j != pick
      ensures Ahead(c, pick) < Ahead(c, j)
    {
      if Ahead(c, pick) == Ahead(c, j) {
        AheadTellsApart(c, pick, j);
      }
    }
    assert forall j :: 0 <= j < c.total ==> Ahead(c1, j) == Ahead(c, j);
    assert forall k :: |c1.picks| <= k < |d.picks| ==> Available(c1, d.picks[k]);
  }

  lemma {:induction false} PassTakesTheNearest(c: Cache)
    requires c.current < c.total
    ensures TakesTheNearest(c, Dispatch(c)) && c.dispatched <= Dispatch(c).dispatched && Dispatch(c).loaded == c.loaded
    decreases c.limit - c.inflight
  {
    if c.inflight < c.limit && PickNext(c).Some? {
      var pick := PickNext(c).value;
      PickIsNearestAhead(c);
      PassTakesTheNearest(Issue(c, pick));
      NearestThenRest(c, pick, Dispatch(Issue(c, pick)));
    }
  }

  /** Going to a frame makes it the current one, and the free slots take the available frames nearest ahead of it. */
  lemma NavigateTakesTheNearest(maxConcurrent: nat, es: seq<Event>, index: nat)
    requires AllInRange(Initial(maxConcurrent), es)
    requires var c := Exec(Initial(maxConcurrent), es); c.armed && index < c.total
    ensures var c := Exec(Initial(maxConcurrent), es);
      var c' := Step(c, Navigate(index));
      && c'.current == index && c'.pool == c.pool && c'.loaded == c.loaded
      && TakesTheNearest(c.(current := index), c') && Saturated(c')
      && (c.inflight < c.limit && Available(c, index) ==> index in c'.picks)
  {
    var c := Exec(Initial(maxConcurrent), es);
    ExecKeeps(Initial(maxConcurrent), es);
    DispatchSaturates(c.(current := index));
    PassTakesTheNearest(c.(current := index));
  }

  /** All that a pool has asked for are the frames nearest ahead of the current one that were not loaded, and all are on their way. */
  predicate AskedAfresh(c: Cache) {
    && c.inflight == |c.picks| == UnsettledOf(c.outstanding, c.pool)
    && TakesTheNearest(c.(dispatched := {}, inflight := 0, picks := []), c)
    && Saturated(c)
    && (c.current !in c.loaded ==> c.picks != [] && c.picks[0] == c.current)
  }

  lemma NewPoolAsksAfresh(c: Cache)
    requires c.current < c.total && c.limit > 0 && c.dispatched == {} && c.inflight == 0 && c.picks == []
    requires forall k :: 0 <= k < |c.outstanding| ==> c.outstanding[k].pool < c.pool
    ensures AskedAfresh(Dispatch(c))
  {
    var d := Dispatch(c);
    CountNone(c.outstanding, InPool(c.pool));
    DispatchSaturates(c);
    PassTakesTheNearest(c);
    SameStart(c, d.(dispatched := {}, inflight := 0, picks := []), d);
    if c.current !in c.loaded {
      FirstPickIsCurrent(c);
    }
  }

  lemma SameStart(a: Cache, b: Cache, d: Cache)
    requires TakesTheNearest(a, d)
    requires b.total == a.total && b.current == a.current && b.loaded == a.loaded
    requires b.dispatched == a.dispatched && b.inflight == a.inflight && b.picks == a.picks
    ensures TakesTheNearest(b, d)
  {
    assert forall j :: Ahead(b, j) == Ahead(a, j);
  }

  /** A restart abandons what was asked before and asks afresh. */
  lemma RestartAsksAfresh(maxConcurrent: nat, es: seq<Event>, total: nat, current: nat, loaded: set<nat>)
    requires AllInRange(Initial(maxConcurrent), es) && current < total
    ensures var c := Exec(Initial(maxConcurrent), es);
      var c' := Step(c, Restart(true, total, current, loaded));
      && c'.armed && c'.total == total && c'.current == current && c'.loaded == loaded && c'.pool == c.pool + 1
      && AskedAfresh(c')
  {
    var c := Exec(Initial(maxConcurrent), es);
    ExecKeeps(Initial(maxConcurrent), es);
    var anew := Cache(total, current, c.limit, loaded, {}, 0, c.pool + 1, false, true, c.outstanding, []);
    NewPoolAsksAfresh(anew);
    DispatchOnlyDispatches(anew);
  }

  lemma FirstPickIsCurrent(c: Cache)
    requires c.current < c.total && Available(c, c.current) && c.inflight < c.limit
    ensures |Dispatch(c).picks| > |c.picks| && Dispatch(c).picks[|c.picks|] == c.current
  {
    DispatchOnlyDispatches(Issue(c, c.current));
    assert Issue(c, c.current).picks <= Dispatch(c).picks;
  }

  lemma {:induction false} PickFromIsAvailable(c: Cache, offset: nat)
    requires c.total > 0
    ensures PickFrom(c, offset).Some? ==> Available(c, PickFrom(c, offset).value)
    decreases c.total - offset
  {
    if offset < c.total {
      PickFromIsAvailable(c, offset + 1);
    }
  }

  lemma {:induction false} PassSkipsTheLoaded(c: Cache, index: nat)
    requires index in c.loaded && index !in c.picks
    ensures index !in Dispatch(c).picks
    decreases c.limit - c.inflight
  {
    if c.inflight < c.limit && PickNext(c).Some? {
      if c.total > 0 {
        PickFromIsAvailable(c, 1);
      }
      PassSkipsTheLoaded(Issue(c, PickNext(c).value), index);
    }
  }

  /** The frame is loaded and the pool has not asked for it. */
  predicate HadElsewhere(c: Cache, index: nat) {
    index in c.loaded && index !in c.picks
  }

  lemma StepKeepsHad(c: Cache, e: Event, index: nat)
    requires HadElsewhere(c, index) && !e.Restart?
    ensures HadElsewhere(Step(c, e), index)
  {
    match e
    case Navigate(i) =>
      PassSkipsTheLoaded(c.(current := i), index);
      DispatchOnlyDispatches(c.(current := i));
    case Settle(k) =>
      if k < |c.outstanding| {
        var c1 := c.(outstanding := Removed(c.outstanding, k), inflight := c.inflight - 1);
        PassSkipsTheLoaded(c1, index);
        DispatchOnlyDispatches(c1);
      }
    case ImageLoaded(_) =>
    case Unmount =>
  }

  /** A frame that got loaded some other way is not asked for any more, until the next restart. */
  lemma LoadedIsNotAskedFor(c: Cache, index: nat, es: seq<Event>)
    requires index !in c.picks && forall e :: e in es ==> !e.Restart?
    ensures index !in Exec(Step(c, ImageLoaded(index)), es).picks
  {
    HadStays(Step(c, ImageLoaded(index)), es, index);
  }

  lemma {:induction false} HadStays(c: Cache, es: seq<Event>, index: nat)
    requires HadElsewhere(c, index) && forall e :: e in es ==> !e.Restart?
    ensures HadElsewhere(Exec(c, es), index)
    decreases |es|
  {
    if es != [] {
      assert es[0] in es;
      StepKeepsHad(c, es[0], index);
      HadStays(Step(c, es[0]), es[1..], index);
    }
  }

  lemma {:induction false} UnmountedAsksNothing(c: Cache, es: seq<Event>)
    requires c.unmounted && forall e :: e in es ==> !e.Restart?
    ensures Exec(c, es).picks == c.picks
    decreases |es|
  {
    if es != [] {
      assert es[0] in es;
      UnmountedAsksNothing(Step(c, es[0]), es[1..]);
    }
  }

  /** Once a running pool is cleaned up, by unmounting or because there is nothing to preload, nothing is asked for until the next restart, whatever settles. */
  lemma CleanedUpPoolAsksNothing(c: Cache, frames: nat, current: nat, loaded: set<nat>, es: seq<Event>)
    requires c.armed && forall e :: e in es ==> !e.Restart?
    ensures Exec(Step(c, Unmount), es).picks == c.picks
    ensures Exec(Step(c, Restart(false, frames, current, loaded)), es).picks == c.picks
    ensures Exec(Step(c, Restart(true, 0, current, loaded)), es).picks == c.picks
  {
    UnmountedAsksNothing(Step(c, Unmount), es);
    UnmountedAsksNothing(Step(c, Restart(false, frames, current, loaded)), es);
    UnmountedAsksNothing(Step(c, Restart(true, 0, current, loaded)), es);
  }

  // ---------------------------------------------------------------- the hook itself

  /** The refs of the hook; `outstanding` and `picks` record what the environment still owes and what was asked. */
  class BlinkCacheHook {
    var total: nat
    var currentIndex: nat
    var limit: nat
    var loadedImages: set<nat>
    var dispatched: set<nat>
    var inflightCount: int
    var pool: nat
    var unmounted: bool
    var armed: bool
    var outstanding: seq<Load>
    var picks: seq<nat>

    function Snapshot(): Cache
      reads this
    {
      Cache(total, currentIndex, limit, loadedImages, dispatched, inflightCount, pool, unmounted, armed, outstanding, picks)
    }

    constructor (maxConcurrent: nat)
      ensures Snapshot() == Initial(maxConcurrent)
    {
      total, currentIndex, limit := 0, 0, Limit(maxConcurrent);
      loadedImages, dispatched, inflightCount, pool := {}, {}, 0, 0;
      unmounted, armed, outstanding, picks := false, false, [], [];
    }

    method PickNextJob() returns (job: Option<nat>)
      ensures job == PickNext(Snapshot())
    {
      if total == 0 {
        return None;
      }
      if currentIndex !in loadedImages && currentIndex !in dispatched {
        return Some(currentIndex);
      }
      var offset := 1;
      while offset < total
        invariant offset >= 1
        invariant PickFrom(Snapshot(), 1) == PickFrom(Snapshot(), offset)
      {
        var index := (currentIndex + offset) % total;
        if index !in loadedImages && index !in dispatched {
          return Some(index);
        }
        offset := offset + 1;
      }
      return None;
    }

    method DispatchAll()
      modifies this
      ensures Snapshot() == TryDispatch(old(Snapshot()))
    {
      if unmounted {
        return;
      }
      while inflightCount < limit
        invariant Dispatch(Snapshot()) == Dispatch(old(Snapshot()))
        decreases limit - inflightCount
      {
        var job := PickNextJob();
        if job.None? {
          return;
        }
        dispatched := dispatched + {job.value};
        inflightCount := inflightCount + 1;
        outstanding := outstanding + [Load(pool, job.value)];
        picks := picks + [job.value];
      }
    }

    /** The cleanup of the restart effect. */
    method CleanUp()
      modifies this
      ensures Snapshot() == Step(old(Snapshot()), Unmount)
    {
      if armed {
        unmounted := true;
        armed := false;
      }
    }

    /** A new pool, with nothing dispatched. */
    method OpenPool()
      modifies this
      ensures Snapshot() == NewPool(old(Snapshot()))
    {
      unmounted := false;
      armed := true;
      pool := pool + 1;
      dispatched := {};
      inflightCount := 0;
      picks := [];
    }

    method OnRestart(ready: bool, frames: nat, index: nat, loaded: set<nat>)
      modifies this
      ensures Snapshot() == Step(old(Snapshot()), Restart(ready, frames, index, loaded))
    {
      total, currentIndex, loadedImages := frames, index, loaded;
      CleanUp();
      if !ready || frames == 0 {
        return;
      }
      OpenPool();
      DispatchAll();
    }

    method OnNavigate(index: nat)
      modifies this
      ensures Snapshot() == Step(old(Snapshot()), Navigate(index))
    {
      currentIndex := index;
      DispatchAll();
    }

    /** The `finally` of one load. */
    method OnSettled(k: nat)
      modifies this
      ensures Snapshot() == Step(old(Snapshot()), Settle(k))
    {
      if k >= |outstanding| {
        return;
      }
      var load := outstanding[k];
      outstanding := Removed(outstanding, k);
      if load.pool != pool {
        return;
      }
      inflightCount := inflightCount - 1;
      DispatchAll();
    }
  }
}
