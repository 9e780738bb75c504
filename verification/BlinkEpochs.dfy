/**
  The Aligned / Original switch of `BlinkViewer`: preview loads and picture decodes run on their
  own, and an epoch taken when each begins tells whether the variant they belong to has left.

  The pieces of a load between its two `await`s, a settled decode, a flip and a render are one
  step each. The list of frames is the snapshot taken when the viewer opened.
 */
module BlinkEpochs {
  import opened Common
  import opened Lists

  datatype AlignedFrame = AlignedFrame(runId: int, frameId: int)
  datatype Frame = Frame(aligned: Option<AlignedFrame>)

  /** Which picture of a frame was fetched. */
  datatype Source = OriginalOf(index: nat) | AlignedOf(index: nat, frame: AlignedFrame)

  /** A picture under its own blob URL. */
  datatype Image = Image(url: nat, source: Source)

  /** A load past its gate that has not yet read the epoch; a load or a decode begun in an epoch. */
  datatype PendingLoad = PendingLoad(epoch: nat, source: Source)
  datatype Decode = Decode(epoch: nat, image: Image)

  datatype Viewer = Viewer(
    frames: seq<Frame>,
    alignedActive: bool,
    alignedMode: bool,
    epoch: nat,
    lock: bool,
    loaded: map<nat, Image>,
    loading: set<nat>,
    current: Option<Image>,
    painted: Option<Image>,
    starts: seq<nat>,
    loads: seq<PendingLoad>,
    fullLoads: seq<PendingLoad>,
    decodes: seq<Decode>,
    nextUrl: nat)

  datatype Event =
    | CallLoad(wanted: int)
    | ReadEpoch(k: nat)
    | LoadSettles(k: nat, ok: bool)
    | CallFull(index: nat)
    | FullSettles(k: nat, ok: bool, canDraw: bool)
    | ShowPreview(index: nat, canDraw: bool)
    | DecodeLoads(k: nat)
    | DecodeFails(k: nat)
    | Toggle
    | Rerender

  predicate HasAligned(frames: seq<Frame>) {
    exists i :: 0 <= i < |frames| && frames[i].aligned.Some?
  }

  /** The picture an index stands for in the current variant. */
  function SourceOf(frames: seq<Frame>, active: bool, index: nat): Source
    requires index < |frames|
  {
    if active && frames[index].aligned.Some? then AlignedOf(index, frames[index].aligned.value) else OriginalOf(index)
  }

  function Opened(frames: seq<Frame>): Viewer {
    Viewer(frames, HasAligned(frames), true, 0, false, map[], {}, None, None, [], [], [], [], 0)
  }

  // ---------------------------------------------------------------- the steps

  /** The first part of `loadImage`: the gate. */
  function CallLoadStep(v: Viewer, index: int): Viewer {
    if index < 0 || index >= |v.frames| || index in v.loading || index in v.loaded then v
    else v.(loading := v.loading + {index}, starts := v.starts + [index])
  }

  /** The second part: read the epoch and the variant, and ask for the picture. */
  function ReadEpochStep(v: Viewer, k: nat): Viewer {
    if k >= |v.starts| || v.starts[k] >= |v.frames| then v
    else v.(starts := Removed(v.starts, k),
            loads := v.loads + [PendingLoad(v.epoch, SourceOf(v.frames, v.alignedActive, v.starts[k]))])
  }

  /** The third part: the picture arrived or was refused. */
  function LoadSettlesStep(v: Viewer, k: nat, ok: bool): Viewer {
    if k >= |v.loads| then v
    else
      var load := v.loads[k];
      var v1 := v.(loads := Removed(v.loads, k));
      if load.epoch != v.epoch then v1
      else
        var v2 := v1.(loading := v.loading - {load.source.index});
        if ok then v2.(loaded := v.loaded[load.source.index := Image(v.nextUrl, load.source)], nextUrl := v.nextUrl + 1)
        else v2
  }

  /** `renderImage`. */
  function RenderImage(v: Viewer, image: Image, canDraw: bool): Viewer {
    if !canDraw || v.lock then v
    else if v.current == Some(image) then v.(painted := Some(image))
    else v.(lock := true, decodes := v.decodes + [Decode(v.epoch, image)])
  }

  function FullSettlesStep(v: Viewer, k: nat, ok: bool, canDraw: bool): Viewer {
    if k >= |v.fullLoads| then v
    else
      var load := v.fullLoads[k];
      var v1 := v.(fullLoads := Removed(v.fullLoads, k));
      if load.epoch != v.epoch || !ok then v1
      else RenderImage(v1.(nextUrl := v.nextUrl + 1), Image(v.nextUrl, load.source), canDraw)
  }

  function DecodeSettlesStep(v: Viewer, k: nat, ok: bool): Viewer {
    if k >= |v.decodes| then v
    else
      var decode := v.decodes[k];
      var v1 := v.(decodes := Removed(v.decodes, k));
      if decode.epoch != v.epoch then v1
      else if ok then v1.(current := Some(decode.image), painted := Some(decode.image), lock := false)
      else v1.(lock := false)
  }

  function ToggleStep(v: Viewer): Viewer {
    v.(alignedActive := !v.alignedActive, alignedMode := !v.alignedActive, epoch := v.epoch + 1, lock := false,
       loaded := map[], loading := {}, current := None, painted := None)
  }

  function Step(v: Viewer, e: Event): Viewer {
    match e
    case CallLoad(index) => CallLoadStep(v, index)
    case ReadEpoch(k) => ReadEpochStep(v, k)
    case LoadSettles(k, ok) => LoadSettlesStep(v, k, ok)
    case CallFull(index) =>
      if index >= |v.frames| then v
      else v.(fullLoads := v.fullLoads + [PendingLoad(v.epoch, SourceOf(v.frames, v.alignedActive, index))])
    case FullSettles(k, ok, canDraw) => FullSettlesStep(v, k, ok, canDraw)
    case ShowPreview(index, canDraw) => if index in v.loaded then RenderImage(v, v.loaded[index], canDraw) else v
    case DecodeLoads(k) => DecodeSettlesStep(v, k, true)
    case DecodeFails(k) => DecodeSettlesStep(v, k, false)
    case Toggle => ToggleStep(v)
    case Rerender => v.(alignedActive := HasAligned(v.frames) && v.alignedMode)
  }

  function Exec(v: Viewer, es: seq<Event>): Viewer
    decreases |es|
  {
    if es == [] then v else Exec(Step(v, es[0]), es[1..])
  }

  // ---------------------------------------------------------------- what every run keeps

  function OfEpoch(epoch: nat): Decode -> bool {
    (d: Decode) => d.epoch == epoch
  }

  function DecodesOf(s: seq<Decode>, epoch: nat): nat {
    Count(s, OfEpoch(epoch))
  }

  /** A source that is right for the variant `active` selects. */
  predicate Fits(frames: seq<Frame>, active: bool, source: Source) {
    source.index < |frames| && source == SourceOf(frames, active, source.index)
  }

  /** The lock counts the pending decodes of this epoch, and no decode comes from the future. */
  predicate LockCounts(decodes: seq<Decode>, epoch: nat, lock: bool) {
    && DecodesOf(decodes, epoch) == (if lock then 1 else 0)
    && (forall k :: 0 <= k < |decodes| ==> decodes[k].epoch <= epoch)
  }

  predicate LoadsFit(loads: seq<PendingLoad>, epoch: nat, frames: seq<Frame>, active: bool) {
    forall k :: 0 <= k < |loads| ==>
      loads[k].epoch <= epoch && (loads[k].epoch == epoch ==> Fits(frames, active, loads[k].source))
  }

  predicate DecodesFit(decodes: seq<Decode>, epoch: nat, frames: seq<Frame>, active: bool) {
    forall k :: 0 <= k < |decodes| && decodes[k].epoch == epoch ==> Fits(frames, active, decodes[k].image.source)
  }

  predicate CacheFits(loaded: map<nat, Image>, frames: seq<Frame>, active: bool) {
    forall i :: i in loaded ==> loaded[i].source.index == i && Fits(frames, active, loaded[i].source)
  }

  predicate ImageFits(image: Option<Image>, frames: seq<Frame>, active: bool) {
    image.Some? ==> Fits(frames, active, image.value.source)
  }

  /** An index marked as loading is one whose load is still coming, so it is never stuck. */
  ghost predicate LoadingIsPending(v: Viewer) {
    forall i :: i in v.loading ==>
      || (exists k :: 0 <= k < |v.starts| && v.starts[k] == i)
      || (exists k :: 0 <= k < |v.loads| && v.loads[k].epoch == v.epoch && v.loads[k].source.index == i)
  }

  predicate StartsFit(starts: seq<nat>, frames: seq<Frame>) {
    forall k :: 0 <= k < |starts| ==> starts[k] < |frames|
  }

  /** Whatever belongs to this epoch shows the variant on screen. */
  ghost predicate Inv(v: Viewer) {
    && LockCounts(v.decodes, v.epoch, v.lock)
    && CacheFits(v.loaded, v.frames, v.alignedActive)
    && StartsFit(v.starts, v.frames)
    && LoadsFit(v.loads, v.epoch, v.frames, v.alignedActive)
    && LoadsFit(v.fullLoads, v.epoch, v.frames, v.alignedActive)
    && DecodesFit(v.decodes, v.epoch, v.frames, v.alignedActive)
    && ImageFits(v.current, v.frames, v.alignedActive)
    && v.painted == v.current
    && (HasAligned(v.frames) ==> v.alignedActive == v.alignedMode)
  }

  lemma LoadsFitWithout(loads: seq<PendingLoad>, k: nat, epoch: nat, frames: seq<Frame>, active: bool)
    requires k < |loads| && LoadsFit(loads, epoch, frames, active)
    ensures LoadsFit(Removed(loads, k), epoch, frames, active)
  {
  }

  lemma LoadsFitMore(loads: seq<PendingLoad>, index: nat, epoch: nat, frames: seq<Frame>, active: bool)
    requires index < |frames| && LoadsFit(loads, epoch, frames, active)
    ensures LoadsFit(loads + [PendingLoad(epoch, SourceOf(frames, active, index))], epoch, frames, active)
  {
  }

  lemma RenderKeeps(v: Viewer, image: Image, canDraw: bool)
    requires Inv(v) && Fits(v.frames, v.alignedActive, image.source)
    ensures Inv(RenderImage(v, image, canDraw))
  {
    var more := v.decodes + [Decode(v.epoch, image)];
    assert LockCounts(v.decodes, v.epoch, false) ==> LockCounts(more, v.epoch, true) by {
      CountOneMore(v.decodes, Decode(v.epoch, image), OfEpoch(v.epoch));
    }
    assert DecodesFit(more, v.epoch, v.frames, v.alignedActive);
  }

  lemma DecodeSettlesKeeps(v: Viewer, k: nat, ok: bool)
    requires Inv(v)
    ensures Inv(DecodeSettlesStep(v, k, ok))
  {
    if k < |v.decodes| {
      CountRemoved(v.decodes, k, OfEpoch(v.epoch));
    }
  }

  lemma LoadSettlesKeeps(v: Viewer, k: nat, ok: bool)
    requires Inv(v)
    ensures Inv(LoadSettlesStep(v, k, ok))
  {
    if k < |v.loads| {
      LoadsFitWithout(v.loads, k, v.epoch, v.frames, v.alignedActive);
      var load := v.loads[k];
      var image := Image(v.nextUrl, load.source);
      assert load.epoch == v.epoch ==> CacheFits(v.loaded[load.source.index := image], v.frames, v.alignedActive);
    }
  }

  lemma FullSettlesKeeps(v: Viewer, k: nat, ok: bool, canDraw: bool)
    requires Inv(v)
    ensures Inv(FullSettlesStep(v, k, ok, canDraw))
  {
    if k < |v.fullLoads| {
      LoadsFitWithout(v.fullLoads, k, v.epoch, v.frames, v.alignedActive);
      var v1 := v.(fullLoads := Removed(v.fullLoads, k));
      if v.fullLoads[k].epoch == v.epoch && ok {
        RenderKeeps(v1.(nextUrl := v.nextUrl + 1), Image(v.nextUrl, v.fullLoads[k].source), canDraw);
      }
    }
  }

  lemma ReadEpochKeeps(v: Viewer, k: nat)
    requires Inv(v)
    ensures Inv(ReadEpochStep(v, k))
  {
    if k < |v.starts| {
      LoadsFitMore(v.loads, v.starts[k], v.epoch, v.frames, v.alignedActive);
    }
  }

  lemma ToggleKeeps(v: Viewer)
    requires Inv(v)
    ensures Inv(ToggleStep(v))
  {
    CountNone(v.decodes, OfEpoch(v.epoch + 1));
  }

  /** With no aligned frame in the list the switch selects the same pictures either way. */
  lemma RerenderKeeps(v: Viewer)
    requires Inv(v)
    ensures Inv(Step(v, Rerender))
  {
    if !HasAligned(v.frames) {
      forall source: Source, active: bool
        ensures Fits(v.frames, active, source) <==> Fits(v.frames, v.alignedActive, source)
      {
        assert source.index < |v.frames| ==> !v.frames[source.index].aligned.Some?;
      }
    }
  }

  lemma StepKeeps(v: Viewer, e: Event)
    requires Inv(v)
    ensures Inv(Step(v, e))
  {
    match e
    case CallLoad(_) =>
    case ReadEpoch(k) => ReadEpochKeeps(v, k);
    case LoadSettles(k, ok) => LoadSettlesKeeps(v, k, ok);
    case CallFull(index) =>
      if index < |v.frames| {
        LoadsFitMore(v.fullLoads, index, v.epoch, v.frames, v.alignedActive);
      }
    case FullSettles(k, ok, canDraw) => FullSettlesKeeps(v, k, ok, canDraw);
    case ShowPreview(index, canDraw) =>
      if index in v.loaded {
        RenderKeeps(v, v.loaded[index], canDraw);
      }
    case DecodeLoads(k) => DecodeSettlesKeeps(v, k, true);
    case DecodeFails(k) => DecodeSettlesKeeps(v, k, false);
    case Toggle => ToggleKeeps(v);
    case Rerender => RerenderKeeps(v);
  }

  lemma {:induction false} ExecKeeps(v: Viewer, es: seq<Event>)
    requires Inv(v)
    ensures Inv(Exec(v, es))
    decreases |es|
  {
    if es != [] {
      StepKeeps(v, es[0]);
      ExecKeeps(Step(v, es[0]), es[1..]);
    }
  }

  /** In every reachable state the lock is held exactly by one decode of this epoch, and all that is kept or painted is of this variant. */
  lemma OnlyThisVariantIsShown(frames: seq<Frame>, es: seq<Event>)
    ensures var v := Exec(Opened(frames), es);
      && DecodesOf(v.decodes, v.epoch) == (if v.lock then 1 else 0)
      && (forall i :: i in v.loaded ==> v.loaded[i].source.index == i && Fits(v.frames, v.alignedActive, v.loaded[i].source))
      && (v.painted.Some? ==> Fits(v.frames, v.alignedActive, v.painted.value.source))
      && v.painted == v.current
  {
    ExecKeeps(Opened(frames), es);
  }

  // ---------------------------------------------------------------- what began before a flip is silent

  /** Everything but the lists of what is still pending. */
  predicate SameScreen(a: Viewer, b: Viewer) {
    && a.epoch == b.epoch && a.lock == b.lock && a.alignedActive == b.alignedActive && a.alignedMode == b.alignedMode
    && a.loaded == b.loaded && a.loading == b.loading && a.current == b.current && a.painted == b.painted
  }

  lemma StepKeepsEpoch(v: Viewer, e: Event)
    ensures Step(v, e).epoch == v.epoch + if e.Toggle? then 1 else 0
  {
    match e
    case Toggle =>
    case _ =>
  }

  lemma {:induction false} EpochOnlyGrows(v: Viewer, es: seq<Event>)
    ensures Exec(v, es).epoch >= v.epoch
    decreases |es|
  {
    if es != [] {
      StepKeepsEpoch(v, es[0]);
      EpochOnlyGrows(Step(v, es[0]), es[1..]);
    }
  }

  /** A load, full-resolution load or decode begun before a flip does nothing when it settles after it, however late. */
  lemma FlipRetiresWhatCameBefore(v: Viewer, later: seq<Event>, k: nat, ok: bool, canDraw: bool)
    ensures var w := Exec(ToggleStep(v), later);
      && (k < |w.loads| && w.loads[k].epoch <= v.epoch ==> SameScreen(w, LoadSettlesStep(w, k, ok)))
      && (k < |w.fullLoads| && w.fullLoads[k].epoch <= v.epoch ==> SameScreen(w, FullSettlesStep(w, k, ok, canDraw)))
      && (k < |w.decodes| && w.decodes[k].epoch <= v.epoch ==> SameScreen(w, DecodeSettlesStep(w, k, ok)))
  {
    EpochOnlyGrows(ToggleStep(v), later);
  }

  /** And whatever is pending at a flip did begin before it. */
  lemma PendingAtFlipIsOld(frames: seq<Frame>, es: seq<Event>)
    ensures var v := Exec(Opened(frames), es);
      && (forall k :: 0 <= k < |v.loads| ==> v.loads[k].epoch < ToggleStep(v).epoch)
      && (forall k :: 0 <= k < |v.fullLoads| ==> v.fullLoads[k].epoch < ToggleStep(v).epoch)
      && (forall k :: 0 <= k < |v.decodes| ==> v.decodes[k].epoch < ToggleStep(v).epoch)
      && DecodesOf(ToggleStep(v).decodes, ToggleStep(v).epoch) == 0
  {
    ExecKeeps(Opened(frames), es);
    var v := Exec(Opened(frames), es);
    CountNone(v.decodes, OfEpoch(v.epoch + 1));
  }

  // ---------------------------------------------------------------- no index is stuck

  lemma SettleKeepsPending(v: Viewer, k: nat, ok: bool)
    requires LoadingIsPending(v)
    ensures LoadingIsPending(LoadSettlesStep(v, k, ok))
  {
    if k < |v.loads| {
      var v' := LoadSettlesStep(v, k, ok);
      forall i | i in v'.loading
        ensures (exists l :: 0 <= l < |v'.starts| && v'.starts[l] == i)
             || (exists l :: 0 <= l < |v'.loads| && v'.loads[l].epoch == v'.epoch && v'.loads[l].source.index == i)
      {
        if l :| 0 <= l < |v.loads| && v.loads[l].epoch == v.epoch && v.loads[l].source.index == i {
          if l < k {
            assert v'.loads[l] == v.loads[l];
          } else if l > k {
            assert v'.loads[l - 1] == v.loads[l];
          }
        }
      }
    }
  }

  lemma ReadEpochKeepsPending(v: Viewer, k: nat)
    requires LoadingIsPending(v)
    ensures LoadingIsPending(ReadEpochStep(v, k))
  {
    var v' := ReadEpochStep(v, k);
    if v' != v {
      forall i | i in v.loading
        ensures (exists l :: 0 <= l < |v'.starts| && v'.starts[l] == i)
             || (exists l :: 0 <= l < |v'.loads| && v'.loads[l].epoch == v'.epoch && v'.loads[l].source.index == i)
      {
        if l :| 0 <= l < |v.starts| && v.starts[l] == i {
          if l < k {
            assert v'.starts[l] == i;
          } else if l > k {
            assert v'.starts[l - 1] == i;
          } else {
            assert v'.loads[|v.loads|].source.index == i;
          }
        } else {
          var m :| 0 <= m < |v.loads| && v.loads[m].epoch == v.epoch && v.loads[m].source.index == i;
          assert v'.loads[m] == v.loads[m];
        }
      }
    }
  }

  lemma StepKeepsPending(v: Viewer, e: Event)
    requires LoadingIsPending(v)
    ensures LoadingIsPending(Step(v, e))
  {
    match e
    case CallLoad(index) =>
      var v' := CallLoadStep(v, index);
      if v' != v {
        assert v'.starts[|v.starts|] == index;
        assert forall l :: 0 <= l < |v.starts| ==> v'.starts[l] == v.starts[l];
      }
    case ReadEpoch(k) => ReadEpochKeepsPending(v, k);
    case LoadSettles(k, ok) => SettleKeepsPending(v, k, ok);
    case _ =>
  }

  lemma {:induction false} ExecKeepsPending(v: Viewer, es: seq<Event>)
    requires LoadingIsPending(v)
    ensures LoadingIsPending(Exec(v, es))
    decreases |es|
  {
    if es != [] {
      StepKeepsPending(v, es[0]);
      ExecKeepsPending(Step(v, es[0]), es[1..]);
    }
  }

  /** An index never stays marked as loading without a load of this variant that will clear the mark. */
  lemma NoIndexIsStuck(frames: seq<Frame>, es: seq<Event>, i: nat)
    requires i in Exec(Opened(frames), es).loading
    ensures var v := Exec(Opened(frames), es);
      || (exists k :: 0 <= k < |v.starts| && v.starts[k] == i)
      || (exists k :: 0 <= k < |v.loads| && v.loads[k].epoch == v.epoch && v.loads[k].source.index == i)
  {
    ExecKeepsPending(Opened(frames), es);
  }

  // ---------------------------------------------------------------- what is asked for is shown

  lemma {:induction false} ExecConcat(v: Viewer, a: seq<Event>, b: seq<Event>)
    ensures Exec(v, a + b) == Exec(Exec(v, a), b)
    decreases |a|
  {
    if a == [] {
      assert a + b == b;
    } else {
      assert (a + b)[1..] == a[1..] + b;
      ExecConcat(Step(v, a[0]), a[1..], b);
    }
  }

  lemma ExecOne(v: Viewer, e: Event)
    ensures Exec(v, [e]) == Step(v, e)
  {
    assert [e][1..] == [];
  }

  lemma StepKeepsFrames(v: Viewer, e: Event)
    ensures Step(v, e).frames == v.frames
  {
  }

  lemma {:induction false} FramesStay(v: Viewer, es: seq<Event>)
    ensures Exec(v, es).frames == v.frames
    decreases |es|
  {
    if es != [] {
      StepKeepsFrames(v, es[0]);
      FramesStay(Step(v, es[0]), es[1..]);
    }
  }

  /** A decode of this epoch paints its picture and frees the lock; one that fails only frees the lock. */
  lemma DecodePaints(v: Viewer, k: nat)
    requires k < |v.decodes| && v.decodes[k].epoch == v.epoch
    ensures var done, failed := Step(v, DecodeLoads(k)), Step(v, DecodeFails(k));
      && done.painted == Some(v.decodes[k].image) && !done.lock
      && failed.painted == v.painted && failed.current == v.current && !failed.lock
  {
  }

  /** A load of this epoch that arrives puts its picture under its own index; arrived or refused, the index is not loading any more. */
  lemma LoadFillsTheCache(v: Viewer, k: nat)
    requires k < |v.loads| && v.loads[k].epoch == v.epoch
    ensures var i := v.loads[k].source.index;
      var arrived, refused := Step(v, LoadSettles(k, true)), Step(v, LoadSettles(k, false));
      && i in arrived.loaded && arrived.loaded[i].source == v.loads[k].source
      && (forall j :: j != i ==> Lookup(arrived.loaded, j) == Lookup(v.loaded, j))
      && refused.loaded == v.loaded
      && arrived.loading == refused.loading == v.loading - {i}
  {
  }

  /** The picture of an index in a variant. */
  predicate Pictures(image: Option<Image>, frames: seq<Frame>, aligned: bool, index: nat)
    requires index < |frames|
  {
    image.Some? &&
    match frames[index].aligned
    case Some(frame) => image.value.source == if aligned then AlignedOf(index, frame) else OriginalOf(index)
    case None => image.value.source == OriginalOf(index)
  }

  /** One preview from the request to the canvas, nothing else happening. */
  function PreviewPath(v: Viewer, index: nat): seq<Event> {
    [CallLoad(index), ReadEpoch(|v.starts|), LoadSettles(|v.loads|, true), ShowPreview(index, true), DecodeLoads(|v.decodes|)]
  }

  predicate Requestable(v: Viewer, index: nat) {
    index < |v.frames| && index !in v.loading && index !in v.loaded && !v.lock
  }

  /** The first two steps: the load is under way for the variant on screen. */
  lemma RequestAsks(v: Viewer, index: nat)
    requires Requestable(v, index)
    ensures var v2 := Step(Step(v, CallLoad(index)), ReadEpoch(|v.starts|));
      && v2.loads == v.loads + [PendingLoad(v.epoch, SourceOf(v.frames, v.alignedActive, index))]
      && v2.epoch == v.epoch && v2.lock == v.lock && v2.decodes == v.decodes && v2.current == v.current
  {
    assert Step(v, CallLoad(index)).starts == v.starts + [index];
  }

  /** The last two steps: a cached picture gets to the canvas. */
  lemma CachedIsPainted(v: Viewer, index: nat)
    requires index in v.loaded && !v.lock
    ensures var v2 := Step(Step(v, ShowPreview(index, true)), DecodeLoads(|v.decodes|));
      v2.painted == Some(v.loaded[index]) && !v2.lock
  {
  }

  lemma PathPaints(v: Viewer, index: nat)
    requires Requestable(v, index)
    ensures var w := Exec(v, PreviewPath(v, index));
      Pictures(w.painted, v.frames, v.alignedActive, index) && !w.lock
  {
    var v2 := Step(Step(v, CallLoad(index)), ReadEpoch(|v.starts|));
    RequestAsks(v, index);
    LoadFillsTheCache(v2, |v.loads|);
    var v3 := Step(v2, LoadSettles(|v.loads|, true));
    CachedIsPainted(v3, index);
    ExecFive(v, CallLoad(index), ReadEpoch(|v.starts|), LoadSettles(|v.loads|, true), ShowPreview(index, true), DecodeLoads(|v.decodes|));
  }

  lemma ExecFive(v: Viewer, a: Event, b: Event, c: Event, d: Event, e: Event)
    ensures Exec(v, [a, b, c, d, e]) == Step(Step(Step(Step(Step(v, a), b), c), d), e)
  {
    var w := Step(Step(v, a), b);
    ExecConcat(v, [a, b], [c, d, e]);
    ExecConcat(v, [a], [b]);
    assert [a, b] == [a] + [b] && [a, b, c, d, e] == [a, b] + [c, d, e];
    ExecOne(v, a);
    ExecOne(Step(v, a), b);
    ExecConcat(w, [c, d], [e]);
    ExecConcat(w, [c], [d]);
    assert [c, d] == [c] + [d] && [c, d, e] == [c, d] + [e];
    ExecOne(w, c);
    ExecOne(Step(w, c), d);
    ExecOne(Step(Step(w, c), d), e);
  }

  /**
    In every reachable state a preview that is neither cached nor loading, asked for while the lock is
    free, is painted once it has loaded and decoded: the picture of its own index in the variant on screen.
   */
  lemma RequestedPictureIsPainted(frames: seq<Frame>, es: seq<Event>, index: nat)
    requires Requestable(Exec(Opened(frames), es), index)
    ensures var v := Exec(Opened(frames), es);
      var w := Exec(Opened(frames), es + PreviewPath(v, index));
      index < |frames| && Pictures(w.painted, frames, v.alignedActive, index) && !w.lock
  {
    var v := Exec(Opened(frames), es);
    FramesStay(Opened(frames), es);
    ExecConcat(Opened(frames), es, PreviewPath(v, index));
    PathPaints(v, index);
  }

  /** A flip blanks the screen, and from there every index can be asked for at once and is painted in the other variant. */
  lemma FlipShowsTheOtherVariant(frames: seq<Frame>, es: seq<Event>, index: nat)
    requires index < |frames|
    ensures var v := Exec(Opened(frames), es);
      var flipped := Exec(Opened(frames), es + [Toggle]);
      && flipped.painted == None && flipped.loaded == map[] && !flipped.lock
      && Requestable(flipped, index)
      && Pictures(Exec(flipped, PreviewPath(flipped, index)).painted, frames, !v.alignedActive, index)
  {
    var v := Exec(Opened(frames), es);
    FramesStay(Opened(frames), es);
    ExecConcat(Opened(frames), es, [Toggle]);
    ExecOne(v, Toggle);
    PathPaints(Step(v, Toggle), index);
  }

  /** The full-resolution picture of the index asked for is painted in the same way. */
  lemma FullResolutionIsPainted(frames: seq<Frame>, es: seq<Event>, index: nat)
    requires index < |frames| && !Exec(Opened(frames), es).lock
    ensures var v := Exec(Opened(frames), es);
      var w := Step(Step(Step(v, CallFull(index)), FullSettles(|v.fullLoads|, true, true)), DecodeLoads(|v.decodes|));
      Pictures(w.painted, frames, v.alignedActive, index) && !w.lock
  {
    var v := Exec(Opened(frames), es);
    FramesStay(Opened(frames), es);
    var v1 := Step(v, CallFull(index));
    assert v1.fullLoads[|v.fullLoads|] == PendingLoad(v.epoch, SourceOf(frames, v.alignedActive, index));
  }

  /** A picture that is on the canvas already is not decoded again, and nothing changes when there is nothing to draw on or a full-resolution load is refused. */
  lemma NothingToDrawAnew(frames: seq<Frame>, es: seq<Event>, index: nat, k: nat, canDraw: bool)
    ensures var v := Exec(Opened(frames), es);
      && (index in v.loaded && v.painted == Some(v.loaded[index]) ==> Step(v, ShowPreview(index, canDraw)) == v)
      && Step(v, ShowPreview(index, false)) == v
      && Undrawn(v, FullSettlesStep(v, k, true, false))
      && Undrawn(v, FullSettlesStep(v, k, false, canDraw))
  {
    ExecKeeps(Opened(frames), es);
    FullUndrawn(Exec(Opened(frames), es), k, canDraw);
  }

  /** Neither the screen nor the decodes under way differ. */
  predicate Undrawn(v: Viewer, w: Viewer) {
    SameScreen(v, w) && w.decodes == v.decodes
  }

  lemma FullUndrawn(v: Viewer, k: nat, canDraw: bool)
    ensures Undrawn(v, FullSettlesStep(v, k, true, false)) && Undrawn(v, FullSettlesStep(v, k, false, canDraw))
  {
  }

  function StartIs(index: nat): nat -> bool {
    (i: nat) => i == index
  }

  function LoadIs(index: nat): PendingLoad -> bool {
    (l: PendingLoad) => l.source.index == index
  }

  /** Without a flip since the viewer opened, one request is under way for an index marked as loading and none for any other, cached ones included. */
  ghost predicate LoadsOnce(v: Viewer, index: nat) {
    && Count(v.starts, StartIs(index)) + Count(v.loads, LoadIs(index)) == (if index in v.loading then 1 else 0)
    && (index in v.loaded ==> index !in v.loading)
    && (forall k :: 0 <= k < |v.loads| ==> v.loads[k].epoch == v.epoch)
  }

  lemma CallLoadsOnce(v: Viewer, wanted: int, index: nat)
    requires LoadsOnce(v, index)
    ensures LoadsOnce(CallLoadStep(v, wanted), index)
  {
    if 0 <= wanted {
      CountOneMore(v.starts, wanted as nat, StartIs(index));
    }
  }

  lemma ReadLoadsOnce(v: Viewer, k: nat, index: nat)
    requires LoadsOnce(v, index)
    ensures LoadsOnce(ReadEpochStep(v, k), index)
  {
    if k < |v.starts| && v.starts[k] < |v.frames| {
      CountRemoved(v.starts, k, StartIs(index));
      CountOneMore(v.loads, PendingLoad(v.epoch, SourceOf(v.frames, v.alignedActive, v.starts[k])), LoadIs(index));
    }
  }

  lemma SettleLoadsOnce(v: Viewer, k: nat, ok: bool, index: nat)
    requires LoadsOnce(v, index)
    ensures LoadsOnce(LoadSettlesStep(v, k, ok), index)
  {
    if k < |v.loads| {
      CountRemoved(v.loads, k, LoadIs(index));
    }
  }

  predicate SamePreviews(v: Viewer, w: Viewer) {
    w.starts == v.starts && w.loads == v.loads && w.loading == v.loading && w.loaded == v.loaded && w.epoch == v.epoch
  }

  lemma FullSettlesSamePreviews(v: Viewer, k: nat, ok: bool, canDraw: bool)
    ensures SamePreviews(v, FullSettlesStep(v, k, ok, canDraw))
  {
  }

  lemma DecodeSamePreviews(v: Viewer, k: nat, ok: bool)
    ensures SamePreviews(v, DecodeSettlesStep(v, k, ok))
  {
  }

  /** Only the three parts of a load and the flip touch previews. */
  lemma PreviewsStay(v: Viewer, e: Event)
    requires !e.CallLoad? && !e.ReadEpoch? && !e.LoadSettles? && !e.Toggle?
    ensures SamePreviews(v, Step(v, e))
  {
    match e
    case FullSettles(k, ok, canDraw) => FullSettlesSamePreviews(v, k, ok, canDraw);
    case DecodeLoads(k) => DecodeSamePreviews(v, k, true);
    case DecodeFails(k) => DecodeSamePreviews(v, k, false);
    case _ =>
  }

  lemma StepLoadsOnce(v: Viewer, e: Event, index: nat)
    requires LoadsOnce(v, index) && !e.Toggle?
    ensures LoadsOnce(Step(v, e), index)
  {
    match e
    case CallLoad(wanted) => CallLoadsOnce(v, wanted, index);
    case ReadEpoch(k) => ReadLoadsOnce(v, k, index);
    case LoadSettles(k, ok) => SettleLoadsOnce(v, k, ok, index);
    case _ => PreviewsStay(v, e);
  }

  lemma {:induction false} ExecLoadsOnce(v: Viewer, es: seq<Event>, index: nat)
    requires LoadsOnce(v, index) && Toggle !in es
    ensures LoadsOnce(Exec(v, es), index)
    decreases |es|
  {
    if es != [] {
      StepLoadsOnce(v, es[0], index);
      ExecLoadsOnce(Step(v, es[0]), es[1..], index);
    }
  }

  /** However often an index is asked for, at most one request for it is under way, and none once it is cached, until the first flip. */
  lemma NoIndexLoadsTwice(frames: seq<Frame>, es: seq<Event>, index: nat)
    requires Toggle !in es
    ensures var v := Exec(Opened(frames), es);
      Count(v.starts, StartIs(index)) + Count(v.loads, LoadIs(index)) == (if index in v.loading && index !in v.loaded then 1 else 0)
  {
    ExecLoadsOnce(Opened(frames), es, index);
  }

  /** With a flip it can happen: a load that had not read the epoch yet, and the same index asked for again, are both under way for the new variant. */
  lemma FlipLetsALoadInTwice(frames: seq<Frame>, index: nat)
    requires index < |frames|
    ensures var v := Exec(Opened(frames), [CallLoad(index), Toggle, ReadEpoch(0), CallLoad(index), ReadEpoch(0)]);
      |v.loads| == 2 && v.loads[0] == v.loads[1] && v.loads[0].epoch == v.epoch && v.loads[0].source.index == index
  {
    var v2 := ToggleStep(CallLoadStep(Opened(frames), index));
    ExecFive(Opened(frames), CallLoad(index), Toggle, ReadEpoch(0), CallLoad(index), ReadEpoch(0));
    assert v2.starts == [index] && v2.loads == [] && index !in v2.loading && index !in v2.loaded;
    LateStartLoadsTwice(v2, index);
  }

  lemma LateStartLoadsTwice(v: Viewer, index: nat)
    requires v.starts == [index] && v.loads == [] && index < |v.frames| && index !in v.loading && index !in v.loaded
    ensures var w := ReadEpochStep(CallLoadStep(ReadEpochStep(v, 0), index), 0);
      var load := PendingLoad(v.epoch, SourceOf(v.frames, v.alignedActive, index));
      w.loads == [load, load] && w.epoch == v.epoch
  {
    var w1 := ReadEpochStep(v, 0);
    assert w1.starts == [];
    var w2 := CallLoadStep(w1, index);
    assert w2.starts == [index];
  }

  /** How often the switch was flipped. */
  function Flips(es: seq<Event>): nat {
    if es == [] then 0 else Flips(es[1..]) + if es[0].Toggle? then 1 else 0
  }

  predicate OddlyFlipped(es: seq<Event>) {
    es != [] && es[0].Toggle? != OddlyFlipped(es[1..])
  }

  lemma {:induction false} OddMeansOdd(es: seq<Event>)
    ensures OddlyFlipped(es) <==> Flips(es) % 2 == 1
  {
    if es != [] {
      OddMeansOdd(es[1..]);
    }
  }

  lemma StepSwitch(v: Viewer, e: Event)
    requires Inv(v) && HasAligned(v.frames)
    ensures Step(v, e).alignedActive == (v.alignedActive != e.Toggle?)
  {
    match e
    case Toggle =>
    case Rerender =>
    case _ =>
  }

  lemma {:induction false} SwitchParity(v: Viewer, es: seq<Event>)
    requires Inv(v) && HasAligned(v.frames)
    ensures Exec(v, es).alignedActive == (v.alignedActive != OddlyFlipped(es))
    decreases |es|
  {
    if es != [] {
      StepKeeps(v, es[0]);
      StepSwitch(v, es[0]);
      StepKeepsFrames(v, es[0]);
      SwitchParity(Step(v, es[0]), es[1..]);
    }
  }

  /** With aligned frames to show, the viewer opens on them and every flip changes sides, renders in between or not. */
  lemma VariantFollowsTheSwitch(frames: seq<Frame>, es: seq<Event>)
    requires HasAligned(frames)
    ensures Exec(Opened(frames), es).alignedActive <==> Flips(es) % 2 == 0
  {
    SwitchParity(Opened(frames), es);
    OddMeansOdd(es);
  }

  // ---------------------------------------------------------------- the viewer itself

  /** The refs and state of the viewer; the pending lists record what the environment still owes. */
  class BlinkViewerRefs {
    const fitsFrames: seq<Frame>
    var alignedActive: bool
    var alignedMode: bool
    var variantEpoch: nat
    var renderLock: bool
    var loadedImages: map<nat, Image>
    var loadingIndices: set<nat>
    var currentImage: Option<Image>
    var canvas: Option<Image>
    var starts: seq<nat>
    var loads: seq<PendingLoad>
    var fullLoads: seq<PendingLoad>
    var decodes: seq<Decode>
    var nextUrl: nat

    function Snapshot(): Viewer
      reads this
    {
      Viewer(fitsFrames, alignedActive, alignedMode, variantEpoch, renderLock, loadedImages, loadingIndices,
             currentImage, canvas, starts, loads, fullLoads, decodes, nextUrl)
    }

    constructor (frames: seq<Frame>)
      ensures Snapshot() == Opened(frames)
    {
      fitsFrames := frames;
      alignedMode, variantEpoch, renderLock := true, 0, false;
      loadedImages, loadingIndices, currentImage, canvas := map[], {}, None, None;
      starts, loads, fullLoads, decodes, nextUrl := [], [], [], [], 0;
      new;
      var hasAligned := AnyAligned();
      alignedActive := hasAligned && alignedMode;
    }

    /** `alignedRunId !== null`: the search for an entry with an aligned frame. */
    method AnyAligned() returns (found: bool)
      ensures found == HasAligned(fitsFrames)
    {
      for i := 0 to |fitsFrames|
        invariant forall j :: 0 <= j < i ==> fitsFrames[j].aligned.None?
      {
        if fitsFrames[i].aligned.Some? {
          return true;
        }
      }
      return false;
    }

    method OnRender()
      modifies this
      ensures Snapshot() == Step(old(Snapshot()), Rerender)
    {
      var hasAligned := AnyAligned();
      alignedActive := hasAligned && alignedMode;
    }

    /** `loadImage` up to its first `await`. */
    method StartLoad(index: int)
      modifies this
      ensures Snapshot() == Step(old(Snapshot()), CallLoad(index))
    {
      if index < 0 || index >= |fitsFrames| {
        return;
      }
      if index in loadingIndices || index in loadedImages {
        return;
      }
      loadingIndices := loadingIndices + {index};
      starts := starts + [index];
    }

    /** `loadImage` between its `await`s. */
    method AskForPreview(k: nat)
      modifies this
      ensures Snapshot() == Step(old(Snapshot()), ReadEpoch(k))
    {
      if k >= |starts| || starts[k] >= |fitsFrames| {
        return;
      }
      var index := starts[k];
      starts := Removed(starts, k);
      var aligned := if alignedActive then fitsFrames[index].aligned else None;
      var source := if aligned.Some? then AlignedOf(index, aligned.value) else OriginalOf(index);
      loads := loads + [PendingLoad(variantEpoch, source)];
    }

    /** The rest of `loadImage`, its `finally` included. */
    method OnPreview(k: nat, ok: bool)
      modifies this
      ensures Snapshot() == Step(old(Snapshot()), LoadSettles(k, ok))
    {
      if k >= |loads| {
        return;
      }
      var load := loads[k];
      loads := Removed(loads, k);
      if load.epoch == variantEpoch {
        if ok {
          loadedImages := loadedImages[load.source.index := Image(nextUrl, load.source)];
          nextUrl := nextUrl + 1;
        }
        loadingIndices := loadingIndices - {load.source.index};
      }
    }

    method Render(image: Image, canDraw: bool)
      modifies this
      ensures Snapshot() == RenderImage(old(Snapshot()), image, canDraw)
    {
      if !canDraw || renderLock {
        return;
      }
      if currentImage == Some(image) {
        canvas := Some(image);
        return;
      }
      renderLock := true;
      decodes := decodes + [Decode(variantEpoch, image)];
    }

    method OnImageLoad(k: nat)
      modifies this
      ensures Snapshot() == Step(old(Snapshot()), DecodeLoads(k))
    {
      if k >= |decodes| {
        return;
      }
      var decode := decodes[k];
      decodes := Removed(decodes, k);
      if decode.epoch != variantEpoch {
        return;
      }
      currentImage := Some(decode.image);
      canvas := Some(decode.image);
      renderLock := false;
    }

    method OnImageError(k: nat)
      modifies this
      ensures Snapshot() == Step(old(Snapshot()), DecodeFails(k))
    {
      if k >= |decodes| {
        return;
      }
      var decode := decodes[k];
      decodes := Removed(decodes, k);
      if decode.epoch != variantEpoch {
        return;
      }
      renderLock := false;
    }

    /** The full-resolution button, after its `await`. */
    method OnFullResolution(k: nat, ok: bool, canDraw: bool)
      modifies this
      ensures Snapshot() == Step(old(Snapshot()), FullSettles(k, ok, canDraw))
    {
      if k >= |fullLoads| {
        return;
      }
      var load := fullLoads[k];
      fullLoads := Removed(fullLoads, k);
      if load.epoch != variantEpoch || !ok {
        return;
      }
      var url := nextUrl;
      nextUrl := nextUrl + 1;
      Render(Image(url, load.source), canDraw);
    }

    /** The pictures of the variant that leaves are released. */
    method ReleasePictures()
      modifies this`loadedImages, this`loadingIndices, this`currentImage, this`canvas
      ensures loadedImages == map[] && loadingIndices == {} && currentImage == None && canvas == None
    {
      loadedImages := map[];
      loadingIndices := {};
      currentImage := None;
      canvas := None;
    }

    method ToggleAligned()
      modifies this
      ensures Snapshot() == Step(old(Snapshot()), Toggle)
    {
      var next := !alignedActive;
      StartEpoch(next);
      ReleasePictures();
      alignedMode := next;
    }

    /** What was begun for the other variant is stale from here on. */
    method StartEpoch(next: bool)
      modifies this`alignedActive, this`variantEpoch, this`renderLock
      ensures alignedActive == next && variantEpoch == old(variantEpoch) + 1 && !renderLock
    {
      alignedActive := next;
      variantEpoch := variantEpoch + 1;
      renderLock := false;
    }
  }
}
