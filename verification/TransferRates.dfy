/**
  The transfer-rate trackers of `useTransferQueue`: an exponential moving average for the
  speed label and the median of a sliding window for the remaining time, both restarted
  when a transfer enters another stage or finishes. Rates are exact (`real`).
 */
module TransferRates {
  import opened Common
  import opened Lists

  datatype Tracker = Tracker(lastTs: int, lastBytes: int, ema: Option<real>, samples: seq<real>)

  /** What the row shows: a smoothed speed and the basis of the remaining time. */
  datatype Reading = Reading(bytesDone: int, bytesTotal: int, speedBps: Option<real>, etaBps: Option<real>)

  /** The outbound trackers and the last stage seen, by transfer id. */
  datatype Trackers = Trackers(speed: map<int, Tracker>, stage: map<int, string>)

  datatype Event =
    | Progress(id: Option<int>, stageName: string, bytesDone: Option<int>, bytesTotal: Option<int>, now: int)
    | Finished(doneId: Option<int>)

  const MEDIAN_WINDOW := 48
  const MEDIAN_MIN_SAMPLES := 6
  const EMA_ALPHA: real := 2.0 / (3.0 + 1.0)

  // ---------------------------------------------------------------- the median

  function Insert(x: real, sorted: seq<real>): seq<real> {
    if sorted == [] || x <= sorted[0] then [x] + sorted else [sorted[0]] + Insert(x, sorted[1..])
  }

  /** `[...samples].sort((a, b) => a - b)`. */
  function Sorted(s: seq<real>): seq<real> {
    if s == [] then [] else Insert(s[0], Sorted(s[1..]))
  }

  predicate Ascending(s: seq<real>) {
    forall i, j :: 0 <= i < j < |s| ==> s[i] <= s[j]
  }

  function Median(samples: seq<real>): real
    requires samples != []
  {
    var sorted := Sorted(samples);
    SortedFacts(samples);
    var mid := |sorted| / 2;
    if |sorted| % 2 == 1 then sorted[mid] else (sorted[mid - 1] + sorted[mid]) / 2.0
  }

  lemma {:induction false} InsertPermutes(x: real, s: seq<real>)
    ensures multiset(Insert(x, s)) == multiset(s) + multiset{x}
    ensures |Insert(x, s)| == |s| + 1
  {
    if s != [] && x > s[0] {
      InsertPermutes(x, s[1..]);
      assert s == [s[0]] + s[1..];
    }
  }

  lemma {:induction false} InsertAscends(x: real, s: seq<real>)
    requires Ascending(s)
    ensures Ascending(Insert(x, s)) && Insert(x, s)[0] == if s == [] || x <= s[0] then x else s[0]
  {
    if s != [] && x > s[0] {
      InsertAscends(x, s[1..]);
      var rest := Insert(x, s[1..]);
      assert s[0] <= rest[0];
      assert forall i :: 0 < i < |rest| ==> rest[0] <= rest[i];
    }
  }

  lemma {:induction false} SortedFacts(s: seq<real>)
    ensures Ascending(Sorted(s)) && multiset(Sorted(s)) == multiset(s) && |Sorted(s)| == |s|
  {
    if s != [] {
      SortedFacts(s[1..]);
      InsertPermutes(s[0], Sorted(s[1..]));
      InsertAscends(s[0], Sorted(s[1..]));
      assert s == [s[0]] + s[1..];
    }
  }

  /** How many samples are at most, and at least, `v`. */
  function AtMost(s: seq<real>, v: real): nat {
    if s == [] then 0 else AtMost(s[1..], v) + if s[0] <= v then 1 else 0
  }

  function AtLeast(s: seq<real>, v: real): nat {
    if s == [] then 0 else AtLeast(s[1..], v) + if s[0] >= v then 1 else 0
  }

  lemma {:induction false} InsertCounts(x: real, s: seq<real>, v: real)
    ensures AtMost(Insert(x, s), v) == AtMost(s, v) + if x <= v then 1 else 0
    ensures AtLeast(Insert(x, s), v) == AtLeast(s, v) + if x >= v then 1 else 0
  {
    if s == [] || x <= s[0] {
      assert ([x] + s)[1..] == s;
    } else {
      InsertCounts(x, s[1..], v);
      assert ([s[0]] + Insert(x, s[1..]))[1..] == Insert(x, s[1..]);
    }
  }

  lemma {:induction false} SortedCounts(s: seq<real>, v: real)
    ensures AtMost(Sorted(s), v) == AtMost(s, v) && AtLeast(Sorted(s), v) == AtLeast(s, v)
  {
    if s != [] {
      SortedCounts(s[1..], v);
      InsertCounts(s[0], Sorted(s[1..]), v);
    }
  }

  lemma {:induction false} PrefixCounts(s: seq<real>, v: real, k: nat)
    requires k <= |s| && forall i :: 0 <= i < k ==> s[i] <= v
    ensures AtMost(s, v) >= k
  {
    if k > 0 {
      PrefixCounts(s[1..], v, k - 1);
    }
  }

  lemma {:induction false} SuffixCounts(s: seq<real>, v: real, k: nat)
    requires k <= |s| && forall i :: k <= i < |s| ==> s[i] >= v
    ensures AtLeast(s, v) >= |s| - k
  {
    if s != [] {
      SuffixCounts(s[1..], v, if k > 0 then k - 1 else 0);
    }
  }

  lemma MiddleHalves(sorted: seq<real>, v: real)
    requires Ascending(sorted) && sorted != []
    requires sorted[(|sorted| - 1) / 2] <= v <= sorted[|sorted| / 2]
    ensures 2 * AtMost(sorted, v) >= |sorted| && 2 * AtLeast(sorted, v) >= |sorted|
  {
    var low, high := (|sorted| - 1) / 2, |sorted| / 2;
    assert forall i :: 0 <= i < low ==> sorted[i] <= sorted[low];
    assert forall i :: high < i < |sorted| ==> sorted[high] <= sorted[i];
    PrefixCounts(sorted, v, low + 1);
    SuffixCounts(sorted, v, high);
  }

  lemma SortedHalves(samples: seq<real>, v: real)
    requires Sorted(samples) != []
    requires var s := Sorted(samples); s[(|s| - 1) / 2] <= v <= s[|s| / 2]
    ensures 2 * AtMost(samples, v) >= |samples| && 2 * AtLeast(samples, v) >= |samples|
  {
    SortedFacts(samples);
    SortedCounts(samples, v);
    MiddleHalves(Sorted(samples), v);
  }

  lemma MedianInTheMiddle(samples: seq<real>)
    requires samples != []
    ensures Sorted(samples) != []
    ensures var s := Sorted(samples); s[(|s| - 1) / 2] <= Median(samples) <= s[|s| / 2]
  {
    SortedFacts(samples);
    var s := Sorted(samples);
    var mid := |s| / 2;
    if |s| % 2 == 1 {
      assert (|s| - 1) / 2 == mid;
    } else {
      assert (|s| - 1) / 2 == mid - 1;
      assert s[mid - 1] <= s[mid];
    }
  }

  /** At least half of the samples are at most the median, and at least half are at least it. */
  lemma MedianHalves(samples: seq<real>)
    requires samples != []
    ensures 2 * AtMost(samples, Median(samples)) >= |samples|
    ensures 2 * AtLeast(samples, Median(samples)) >= |samples|
  {
    MedianInTheMiddle(samples);
    SortedHalves(samples, Median(samples));
  }

  // ---------------------------------------------------------------- one sample

  predicate Accepts(lastBytes: int, lastTs: int, bytes: int, now: int) {
    bytes > lastBytes && now > lastTs
  }

  /** Bytes per second between two samples, the clock counting milliseconds. */
  function Rate(lastBytes: int, lastTs: int, bytes: int, now: int): real
    requires now > lastTs
  {
    ((bytes - lastBytes) as real / (now - lastTs) as real) * 1000.0
  }

  function Smooth(ema: Option<real>, rate: real): real {
    if ema.None? then rate else EMA_ALPHA * rate + (1.0 - EMA_ALPHA) * ema.value
  }

  function Track(prev: Option<Tracker>, bytes: int, now: int): Tracker {
    match prev
    case None => Tracker(now, bytes, None, [])
    case Some(t) =>
      if Accepts(t.lastBytes, t.lastTs, bytes, now) then
        var rate := Rate(t.lastBytes, t.lastTs, bytes, now);
        Tracker(now, bytes, Some(Smooth(t.ema, rate)), LastN(t.samples + [rate], MEDIAN_WINDOW))
      else
        Tracker(now, bytes, t.ema, t.samples)
  }

  function ReadingOf(t: Tracker, bytesTotal: int): Reading {
    Reading(t.lastBytes, bytesTotal, t.ema,
            if |t.samples| >= MEDIAN_MIN_SAMPLES then Some(Median(t.samples)) else None)
  }

  predicate BearsBytes(e: Event) {
    e.Progress? && e.id.Some? && e.bytesDone.Some? && e.bytesTotal.Some?
  }

  function Step(s: Trackers, e: Event): Trackers {
    match e
    case Progress(_, stage, _, _, now) =>
      if !BearsBytes(e) then s
      else
        var id := e.id.value;
        var changed := Lookup(s.stage, id) != Some(stage);
        var prev := if changed then None else Lookup(s.speed, id);
        Trackers(s.speed[id := Track(prev, e.bytesDone.value, now)], s.stage[id := stage])
    case Finished(None) => s
    case Finished(Some(id)) => Trackers(s.speed - {id}, s.stage - {id})
  }

  function Exec(es: seq<Event>): Trackers {
    if es == [] then Trackers(map[], map[]) else Step(Exec(Front(es)), Last(es))
  }

  // ---------------------------------------------------------------- the same numbers, read off the trace

  /** A sample of one transfer. */
  datatype Sample = Sample(stage: string, bytes: int, time: int)

  /** The sample of `id` that an event brings: only an event with an id and both byte counts brings one. */
  function SampleFor(e: Event, id: int): Option<Sample> {
    match e
    case Progress(Some(i), stage, Some(bytes), Some(_), now) => if i == id then Some(Sample(stage, bytes, now)) else None
    case _ => None
  }

  /** The stage of the latest sample of `id` since it last finished. */
  function StageNow(es: seq<Event>, id: int): Option<string> {
    if es == [] then None
    else if SampleFor(Last(es), id).Some? then Some(SampleFor(Last(es), id).value.stage)
    else if Last(es) == Finished(Some(id)) then None
    else StageNow(Front(es), id)
  }

  /** The samples of `id`, as (bytes, time), since its last stage change or finish. */
  function SamplesNow(es: seq<Event>, id: int): seq<(int, int)> {
    if es == [] then []
    else
      match SampleFor(Last(es), id)
      case Some(sample) =>
        (if StageNow(Front(es), id) == Some(sample.stage) then SamplesNow(Front(es), id) else [])
        + [(sample.bytes, sample.time)]
      case None => if Last(es) == Finished(Some(id)) then [] else SamplesNow(Front(es), id)
  }

  /** The rates accepted between consecutive samples. */
  function AcceptedRates(samples: seq<(int, int)>): seq<real> {
    if |samples| < 2 then []
    else
      var (b0, t0) := samples[|samples| - 2];
      var (b1, t1) := Last(samples);
      AcceptedRates(Front(samples)) + if Accepts(b0, t0, b1, t1) then [Rate(b0, t0, b1, t1)] else []
  }

  function Ema(rates: seq<real>): Option<real> {
    if rates == [] then None else Some(Smooth(Ema(Front(rates)), Last(rates)))
  }

  /** The tracker that belongs to a list of samples. */
  function TrackerOf(samples: seq<(int, int)>): Option<Tracker> {
    if samples == [] then None
    else
      var rates := AcceptedRates(samples);
      Some(Tracker(Last(samples).1, Last(samples).0, Ema(rates), LastN(rates, MEDIAN_WINDOW)))
  }

  lemma TrackIsTrackerOf(samples: seq<(int, int)>, bytes: int, now: int)
    ensures Some(Track(TrackerOf(samples), bytes, now)) == TrackerOf(samples + [(bytes, now)])
  {
    var more := samples + [(bytes, now)];
    assert Front(more) == samples;
    if samples != [] {
      var rates := AcceptedRates(samples);
      var (b0, t0) := Last(samples);
      if Accepts(b0, t0, bytes, now) {
        var rate := Rate(b0, t0, bytes, now);
        assert Front(rates + [rate]) == rates;
        LastNSnoc(LastN(rates, MEDIAN_WINDOW), rate, MEDIAN_WINDOW);
        LastNSnoc(rates, rate, MEDIAN_WINDOW);
        LastNTwice(rates, MEDIAN_WINDOW, MEDIAN_WINDOW - 1);
      } else {
        assert AcceptedRates(more) == rates;
      }
    }
  }

  /** At every moment each tracker holds exactly what the trace says about its transfer. */
  lemma {:induction false} TrackersFollowTheTrace(es: seq<Event>, id: int)
    ensures Lookup(Exec(es).stage, id) == StageNow(es, id)
    ensures Lookup(Exec(es).speed, id) == TrackerOf(SamplesNow(es, id))
  {
    if es != [] {
      var e := Last(es);
      TrackersFollowTheTrace(Front(es), id);
      if BearsBytes(e) && e.id.value == id {
        if StageNow(Front(es), id) == Some(e.stageName) {
          TrackIsTrackerOf(SamplesNow(Front(es), id), e.bytesDone.value, e.now);
        } else {
          TrackIsTrackerOf([], e.bytesDone.value, e.now);
        }
      }
    }
  }

  lemma {:induction false} EmaIsBetween(rates: seq<real>, lo: real, hi: real)
    requires rates != [] && forall i :: 0 <= i < |rates| ==> lo <= rates[i] <= hi
    ensures Ema(rates).Some? && lo <= Ema(rates).value <= hi
  {
    if |rates| > 1 {
      EmaIsBetween(Front(rates), lo, hi);
    }
  }

  /**
    What a row shows after any sequence of ticks: no speed before the first accepted rate, then one
    between the least and the greatest; a remaining-time basis from the sixth accepted rate on, which
    splits the last 48 of them into halves.
   */
  lemma ReadingIsExact(es: seq<Event>, id: int, total: int, lo: real, hi: real)
    requires SamplesNow(es, id) != []
    requires forall r :: r in AcceptedRates(SamplesNow(es, id)) ==> lo <= r <= hi
    ensures id in Exec(es).speed
    ensures var reading := ReadingOf(Exec(es).speed[id], total);
      var rates := AcceptedRates(SamplesNow(es, id));
      var window := LastN(rates, MEDIAN_WINDOW);
      && reading.bytesDone == Last(SamplesNow(es, id)).0
      && (reading.speedBps.Some? <==> rates != [])
      && (reading.speedBps.Some? ==> lo <= reading.speedBps.value <= hi)
      && Exec(es).speed[id].samples == window && |window| == Min(48, |rates|)
      && (reading.etaBps.Some? <==> |rates| >= 6)
      && (reading.etaBps.Some? ==>
            && 2 * AtMost(window, reading.etaBps.value) >= |window|
            && 2 * AtLeast(window, reading.etaBps.value) >= |window|)
  {
    TrackersFollowTheTrace(es, id);
    var rates := AcceptedRates(SamplesNow(es, id));
    if rates != [] {
      assert forall i :: 0 <= i < |rates| ==> rates[i] in rates;
      EmaIsBetween(rates, lo, hi);
    }
    var window := LastN(rates, MEDIAN_WINDOW);
    if |window| >= MEDIAN_MIN_SAMPLES {
      MedianHalves(window);
    }
  }

  lemma {:induction false} StagedHasSamples(es: seq<Event>, id: int)
    ensures StageNow(es, id).Some? ==> SamplesNow(es, id) != []
  {
    if es != [] {
      StagedHasSamples(Front(es), id);
    }
  }

  /** The rate between two samples, over the milliseconds between them, gives the bytes moved. */
  lemma RateMovesTheBytes(b0: int, t0: int, b1: int, t1: int)
    requires t1 > t0
    ensures Rate(b0, t0, b1, t1) * (t1 - t0) as real == 1000.0 * (b1 - b0) as real
  {
    var q := (b1 - b0) as real / (t1 - t0) as real;
    assert q * (t1 - t0) as real == (b1 - b0) as real;
  }

  lemma HalfWay(ema: Option<real>, rate: real)
    ensures rate == if ema.None? then Smooth(ema, rate) else 2.0 * Smooth(ema, rate) - ema.value
  {
  }

  /** The rate that moved the speed from `before` to `after`: half way to it, or all the way if there was no speed yet. */
  function RateOfMove(before: Option<real>, after: real): real {
    if before.None? then after else 2.0 * after - before.value
  }

  /** Bytes that grew over time move the speed half way to their rate and enter the window of 48; anything else leaves speed and window alone. */
  predicate MovesHalfWay(before: Tracker, after: Tracker, bytes: int, now: int) {
    if bytes > before.lastBytes && now > before.lastTs then
      && after.ema.Some?
      && var rate := RateOfMove(before.ema, after.ema.value);
      && rate * (now - before.lastTs) as real == 1000.0 * (bytes - before.lastBytes) as real
      && after.samples == LastN(before.samples + [rate], 48)
    else after.ema == before.ema && after.samples == before.samples
  }

  lemma TrackMovesHalfWay(t: Tracker, bytes: int, now: int)
    ensures MovesHalfWay(t, Track(Some(t), bytes, now), bytes, now)
  {
    if bytes > t.lastBytes && now > t.lastTs {
      var rate := Rate(t.lastBytes, t.lastTs, bytes, now);
      RateMovesTheBytes(t.lastBytes, t.lastTs, bytes, now);
      HalfWay(t.ema, rate);
      assert RateOfMove(t.ema, Smooth(t.ema, rate)) == rate;
    }
  }

  /** After any events a tick of a transfer in the stage it is in moves its speed half way to the rate since its last tick. */
  lemma TickMovesTheSpeedHalfWay(es: seq<Event>, id: int, stage: string, bytes: int, total: int, now: int)
    requires StageNow(es, id) == Some(stage)
    ensures SamplesNow(es, id) != []
    ensures var before, after := Exec(es), Exec(es + [Progress(Some(id), stage, Some(bytes), Some(total), now)]);
      && id in before.speed && id in after.speed
      && (before.speed[id].lastBytes, before.speed[id].lastTs) == Last(SamplesNow(es, id))
      && MovesHalfWay(before.speed[id], after.speed[id], bytes, now)
  {
    var tick := Progress(Some(id), stage, Some(bytes), Some(total), now);
    StagedHasSamples(es, id);
    TrackersFollowTheTrace(es, id);
    assert Front(es + [tick]) == es;
    TrackMovesHalfWay(Exec(es).speed[id], bytes, now);
  }

  // ---------------------------------------------------------------- the refs themselves

  /** The two refs the `sync-progress` and `sync-finished` listeners keep for sends. */
  class SpeedRefs {
    var outSpeed: map<int, Tracker>
    var outStage: map<int, string>

    function Snapshot(): Trackers
      reads this
    {
      Trackers(outSpeed, outStage)
    }

    constructor ()
      ensures Snapshot() == Exec([])
    {
      outSpeed, outStage := map[], map[];
    }

    method TrackBytes(id: int, bytesDone: int, bytesTotal: int, now: int) returns (reading: Reading)
      modifies this`outSpeed
      ensures outSpeed == old(outSpeed)[id := Track(Lookup(old(outSpeed), id), bytesDone, now)]
      ensures reading == ReadingOf(outSpeed[id], bytesTotal)
    {
      var ema: Option<real> := None;
      var samples: seq<real> := [];
      if id in outSpeed {
        var prev := outSpeed[id];
        ema, samples := prev.ema, prev.samples;
        if bytesDone > prev.lastBytes && now > prev.lastTs {
          var rate := Rate(prev.lastBytes, prev.lastTs, bytesDone, now);
          ema := Some(Smooth(ema, rate));
          samples := samples + [rate];
          if |samples| > MEDIAN_WINDOW {
            samples := samples[|samples| - MEDIAN_WINDOW..];
          }
        }
      }
      outSpeed := outSpeed[id := Tracker(now, bytesDone, ema, samples)];
      var etaBps: Option<real> := None;
      if |samples| >= MEDIAN_MIN_SAMPLES {
        etaBps := Some(Median(samples));
      }
      reading := Reading(bytesDone, bytesTotal, ema, etaBps);
    }

    method OnProgress(id: Option<int>, stage: string, bytesDone: Option<int>, bytesTotal: Option<int>, now: int)
      returns (reading: Option<Reading>)
      modifies this
      ensures Snapshot() == Step(old(Snapshot()), Progress(id, stage, bytesDone, bytesTotal, now))
      ensures reading.Some? <==> BearsBytes(Progress(id, stage, bytesDone, bytesTotal, now))
      ensures reading.Some? ==> id.value in outSpeed && reading.value == ReadingOf(outSpeed[id.value], bytesTotal.value)
    {
      reading := None;
      if bytesDone.None? || bytesTotal.None? || id.None? {
        return;
      }
      if id.value !in outStage || outStage[id.value] != stage {
        outStage := outStage[id.value := stage];
        outSpeed := outSpeed - {id.value};
      }
      var r := TrackBytes(id.value, bytesDone.value, bytesTotal.value, now);
      reading := Some(r);
    }

    method OnFinished(id: Option<int>)
      modifies this
      ensures Snapshot() == Step(old(Snapshot()), Finished(id))
    {
      if id.Some? {
        outSpeed := outSpeed - {id.value};
        outStage := outStage - {id.value};
      }
    }
  }
}
