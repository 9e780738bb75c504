/**
  The unified row list of `useTransferQueue`: five sources (live sends, session ledger,
  durable sends, inbound live and durable, queued ghosts) merge into one list.

  A step is one settled callback: a status poll, a durable read, a finish event, a resend or
  a delete that the backend answered, each followed by the effect that refreshes `outboundSeen`.
 */
module TransferRows {
  import opened Common
  import opened Lists
  import opened Text
  import Rates = TransferRates

  /** The fields a row copies from its summary whatever its source. */
  datatype Details = Details(packageShort: string, peerShort: string, displayName: Option<string>, createdAt: string)

  datatype Outbound = Outbound(id: int, batchUuid: string, state: string, displayState: string,
                               stalledUntil: Option<string>, retrying: bool, nextRetryAt: Option<string>,
                               resendable: bool, details: Details)
  datatype Inbound = Inbound(id: int, packageId: string, batchUuid: string, state: string, displayState: string,
                             stalledUntil: Option<string>, bytesDone: int, details: Details)
  datatype Queued = Queued(batchUuid: string, details: Details)

  datatype Status = Status(sending: seq<Outbound>, receiving: seq<Inbound>, queued: seq<Queued>)

  datatype LedgerEntry = LedgerEntry(summary: Outbound, outcome: string)

  datatype Kind = Sent | Received

  datatype Row = Row(key: string, kind: Kind, id: int, packageId: Option<string>, batchUuid: string,
                     state: string, displayState: string, stalledUntil: Option<string>, retrying: bool,
                     nextRetryAt: Option<string>, bytesDone: int, terminal: bool, resendable: bool,
                     liveStage: Option<string>, speedBps: Option<real>, etaBps: Option<real>,
                     isTransferring: bool, finishNonce: nat, ghostly: bool, details: Details)

  /**
    The hook's state; `ledger` lists the values of an insertion-ordered map keyed by the summary's id,
    `outRates` and `inRates` are the tracker refs of sends and of received packages.
   */
  datatype Queue = Queue(status: Option<Status>, seen: map<int, Outbound>, ledger: seq<LedgerEntry>,
                         dbSent: seq<Outbound>, dbReceived: seq<Inbound>,
                         liveOut: map<int, Rates.Reading>, liveStage: map<int, string>, liveIn: map<string, Rates.Reading>,
                         nonce: map<string, nat>, outRates: Rates.Trackers, inRates: map<string, Rates.Tracker>)

  datatype Event =
    | Poll(status: Status)
    | TerminalRead(sent: seq<Outbound>, received: seq<Inbound>)
    | OutTick(id: int, stage: string, bytesDone: int, bytesTotal: int, now: int)
    | InTick(packageId: string, bytesDone: int, bytesTotal: int, now: int)
    | FinishedSent(id: int, outcome: string, fallback: Outbound)
    | FinishedReceived(packageId: string)
    | Resent(id: int, newId: int)
    | Deleted(kind: Kind, batchUuid: string)

  const INITIAL := Queue(None, map[], [], [], [], map[], map[], map[], map[], Rates.Trackers(map[], map[]), map[])

  // ---------------------------------------------------------------- the rows

  function Sending(q: Queue): seq<Outbound> {
    if q.status.Some? then q.status.value.sending else []
  }

  function Receiving(q: Queue): seq<Inbound> {
    if q.status.Some? then q.status.value.receiving else []
  }

  function Ghosts(q: Queue): seq<Queued> {
    if q.status.Some? then q.status.value.queued else []
  }

  function OutKey(id: int): string {
    "out:" + Decimal(id)
  }

  function InKey(id: int): string {
    "in:" + Decimal(id)
  }

  function KeyFor(kind: Kind, id: int): string {
    if kind == Sent then OutKey(id) else InKey(id)
  }

  function GhostKey(batchUuid: string): string {
    "inq:" + batchUuid
  }

  function Nonce(q: Queue, key: string): nat {
    if key in q.nonce then q.nonce[key] else 0
  }

  function LiveOutRow(q: Queue, s: Outbound): Row {
    var live := Lookup(q.liveOut, s.id);
    var stage := Lookup(q.liveStage, s.id);
    var indexingNow := s.displayState == "queued" && stage == Some("indexing");
    var moving := s.state == "transferring" || s.state == "preparing" || indexingNow;
    Row(OutKey(s.id), Sent, s.id, None, s.batchUuid, s.state,
        if indexingNow then "indexing" else s.displayState, s.stalledUntil, s.retrying, s.nextRetryAt,
        if live.Some? then live.value.bytesDone else 0, false, false, stage,
        if moving && live.Some? then live.value.speedBps else None,
        if moving && live.Some? then live.value.etaBps else None,
        moving, Nonce(q, OutKey(s.id)), false, s.details)
  }

  function LedgerRow(q: Queue, e: LedgerEntry): Row {
    var s := e.summary;
    Row(OutKey(s.id), Sent, s.id, None, s.batchUuid, e.outcome, e.outcome, None, false, None,
        0, true, s.resendable, None, None, None, false, Nonce(q, OutKey(s.id)), false, s.details)
  }

  function DurableOutRow(q: Queue, s: Outbound): Row {
    Row(OutKey(s.id), Sent, s.id, None, s.batchUuid, s.state, s.displayState, None, false, None,
        0, true, s.resendable, None, None, None, false, Nonce(q, OutKey(s.id)), false, s.details)
  }

  function LiveInRow(q: Queue, s: Inbound): Row {
    var live := Lookup(q.liveIn, s.packageId);
    var fetching := s.state == "fetching";
    Row(InKey(s.id), Received, s.id, Some(s.packageId), s.batchUuid, s.state, s.displayState, s.stalledUntil, false, None,
        Max(s.bytesDone, if live.Some? then live.value.bytesDone else 0), false, false, None,
        if fetching && live.Some? then live.value.speedBps else None,
        if fetching && live.Some? then live.value.etaBps else None,
        fetching, Nonce(q, "in:" + s.packageId), false, s.details)
  }

  function DurableInRow(q: Queue, s: Inbound): Row {
    Row(InKey(s.id), Received, s.id, Some(s.packageId), s.batchUuid, s.state, s.displayState, None, false, None,
        s.bytesDone, true, false, None, None, None, false, Nonce(q, "in:" + s.packageId), false, s.details)
  }

  function GhostRow(g: Queued): Row {
    Row(GhostKey(g.batchUuid), Received, -1, None, g.batchUuid, "queued", "queued", None, false, None,
        0, false, false, None, None, None, false, 0, true, g.details)
  }

  function OutIds(s: seq<Outbound>): set<int> {
    set i | 0 <= i < |s| :: s[i].id
  }

  function InIds(s: seq<Inbound>): set<int> {
    set i | 0 <= i < |s| :: s[i].id
  }

  function LiveOutRows(q: Queue, s: seq<Outbound>): seq<Row> {
    Transform(s, (x: Outbound) => LiveOutRow(q, x))
  }

  function LedgerRows(q: Queue, l: seq<LedgerEntry>): seq<Row> {
    Transform(l, (e: LedgerEntry) => LedgerRow(q, e))
  }

  function DurableOutRows(q: Queue, s: seq<Outbound>): seq<Row> {
    Transform(s, (x: Outbound) => DurableOutRow(q, x))
  }

  function LiveInRows(q: Queue, s: seq<Inbound>): seq<Row> {
    Transform(s, (x: Inbound) => LiveInRow(q, x))
  }

  function DurableInRows(q: Queue, s: seq<Inbound>): seq<Row> {
    Transform(s, (x: Inbound) => DurableInRow(q, x))
  }

  function GhostRows(s: seq<Queued>): seq<Row> {
    Transform(s, (x: Queued) => GhostRow(x))
  }

  function UncoveredOut(s: seq<Outbound>, covered: set<int>): seq<Outbound> {
    Keep(s, (x: Outbound) => x.id !in covered)
  }

  function UncoveredIn(s: seq<Inbound>, covered: set<int>): seq<Inbound> {
    Keep(s, (x: Inbound) => x.id !in covered)
  }

  function UncoveredEntries(l: seq<LedgerEntry>, covered: set<int>): seq<LedgerEntry> {
    Keep(l, (e: LedgerEntry) => e.summary.id !in covered)
  }

  /** Ledger entries that neither the poll nor the durable read covers. */
  function Entries(q: Queue): seq<LedgerEntry> {
    UncoveredEntries(q.ledger, OutIds(Sending(q)) + OutIds(q.dbSent))
  }

  function DurableOut(q: Queue): seq<Outbound> {
    UncoveredOut(q.dbSent, OutIds(Sending(q)))
  }

  function DurableIn(q: Queue): seq<Inbound> {
    UncoveredIn(q.dbReceived, InIds(Receiving(q)))
  }

  function SentRows(q: Queue): seq<Row> {
    LiveOutRows(q, Sending(q)) + LedgerRows(q, Entries(q)) + DurableOutRows(q, DurableOut(q))
  }

  function ReceivedRows(q: Queue): seq<Row> {
    LiveInRows(q, Receiving(q)) + DurableInRows(q, DurableIn(q))
  }

  function Rows(q: Queue): seq<Row> {
    SentRows(q) + ReceivedRows(q) + GhostRows(Ghosts(q))
  }

  // ---------------------------------------------------------------- the steps

  function LedgerIds(l: seq<LedgerEntry>): set<int> {
    set i | 0 <= i < |l| :: l[i].summary.id
  }

  /** `Map.prototype.set`: an existing key keeps its place. */
  function PutEntry(l: seq<LedgerEntry>, e: LedgerEntry): seq<LedgerEntry> {
    if e.summary.id in LedgerIds(l) then
      Transform(l, (x: LedgerEntry) => if x.summary.id == e.summary.id then e else x)
    else l + [e]
  }

  function DropEntry(l: seq<LedgerEntry>, id: int): seq<LedgerEntry> {
    Keep(l, (e: LedgerEntry) => e.summary.id != id)
  }

  function DropBatch(l: seq<LedgerEntry>, batchUuid: string): seq<LedgerEntry> {
    Keep(l, (e: LedgerEntry) => e.summary.batchUuid != batchUuid)
  }

  function RetireOne(e: LedgerEntry, id: int): LedgerEntry {
    if e.summary.id == id then e.(summary := e.summary.(resendable := false)) else e
  }

  function Retire(l: seq<LedgerEntry>, id: int): seq<LedgerEntry> {
    Transform(l, (e: LedgerEntry) => RetireOne(e, id))
  }

  function SentWithoutId(s: seq<Outbound>, id: int): seq<Outbound> {
    Keep(s, (x: Outbound) => x.id != id)
  }

  function SentWithoutBatch(s: seq<Outbound>, batchUuid: string): seq<Outbound> {
    Keep(s, (x: Outbound) => x.batchUuid != batchUuid)
  }

  function ReceivedWithoutBatch(s: seq<Inbound>, batchUuid: string): seq<Inbound> {
    Keep(s, (x: Inbound) => x.batchUuid != batchUuid)
  }

  function SeenAfter(seen: map<int, Outbound>, sending: seq<Outbound>): map<int, Outbound> {
    if sending == [] then seen
    else SeenAfter(seen, Front(sending))[Last(sending).id := Last(sending)]
  }

  /** The effect on `[status, terminalOutbound]`: remember what is active, forget what is neither active nor pinned. */
  function NoteSeen(q: Queue): Queue {
    if q.status.None? then q
    else
      var seen := SeenAfter(q.seen, Sending(q));
      q.(seen := map id | id in seen.Keys && (id in OutIds(Sending(q)) || id in LedgerIds(q.ledger)) :: seen[id])
  }

  /** `p.outcome === 'cancelled' || p.outcome.startsWith('failed')`. */
  predicate Unsuccessful(outcome: string) {
    outcome == "cancelled" || "failed" <= outcome
  }

  function SettledAs(outcome: string): string {
    if outcome == "cancelled" then "cancelled" else "failed"
  }

  function Promote(q: Queue, id: int, outcome: string, fallback: Outbound): Outbound {
    if id in q.seen then q.seen[id].(state := outcome, displayState := outcome, resendable := true)
    else fallback.(id := id, batchUuid := Decimal(id), state := outcome, displayState := outcome,
                   stalledUntil := None, retrying := false, nextRetryAt := None, resendable := true)
  }

  function Promoted(q: Queue, id: int, outcome: string, fallback: Outbound): Queue {
    var settled := SettledAs(outcome);
    Unpinned(q, id).(ledger := PutEntry(q.ledger, LedgerEntry(Promote(q, id, settled, fallback), settled)))
  }

  /** A finish drops the live readings of the id and bumps the row's nonce. */
  function Unpinned(q: Queue, id: int): Queue {
    q.(nonce := q.nonce[OutKey(id) := Nonce(q, OutKey(id)) + 1],
       liveOut := q.liveOut - {id}, liveStage := q.liveStage - {id},
       outRates := Rates.Step(q.outRates, Rates.Finished(Some(id))))
  }

  /** A byte tick of a send. */
  function OutTickStep(q: Queue, id: int, stage: string, bytesDone: int, bytesTotal: int, now: int): Queue {
    var rates := Rates.Step(q.outRates, Rates.Progress(Some(id), stage, Some(bytesDone), Some(bytesTotal), now));
    q.(outRates := rates, liveOut := q.liveOut[id := Rates.ReadingOf(rates.speed[id], bytesTotal)],
       liveStage := q.liveStage[id := stage])
  }

  /** A byte tick of a package being received. */
  function InTickStep(q: Queue, packageId: string, bytesDone: int, bytesTotal: int, now: int): Queue {
    var t := Rates.Track(Lookup(q.inRates, packageId), bytesDone, now);
    q.(inRates := q.inRates[packageId := t], liveIn := q.liveIn[packageId := Rates.ReadingOf(t, bytesTotal)])
  }

  /** A package finished: its live data go and its rows' nonce moves. */
  function FinishedReceivedStep(q: Queue, packageId: string): Queue {
    var key := "in:" + packageId;
    q.(nonce := q.nonce[key := Nonce(q, key) + 1], liveIn := q.liveIn - {packageId}, inRates := q.inRates - {packageId})
  }

  function Step(q: Queue, e: Event): Queue {
    match e
    case Poll(status) => NoteSeen(q.(status := Some(status)))
    case TerminalRead(sent, received) => q.(dbSent := sent, dbReceived := received)
    case OutTick(id, stage, bytesDone, bytesTotal, now) => OutTickStep(q, id, stage, bytesDone, bytesTotal, now)
    case InTick(packageId, bytesDone, bytesTotal, now) => InTickStep(q, packageId, bytesDone, bytesTotal, now)
    case FinishedSent(id, outcome, fallback) =>
      if Unsuccessful(outcome) then NoteSeen(Promoted(q, id, outcome, fallback)) else Unpinned(q, id)
    case FinishedReceived(packageId) => FinishedReceivedStep(q, packageId)
    case Resent(id, newId) =>
      if newId == id then NoteSeen(q.(ledger := DropEntry(q.ledger, id), dbSent := SentWithoutId(q.dbSent, id)))
      else NoteSeen(q.(ledger := Retire(q.ledger, id)))
    case Deleted(Received, batchUuid) => q.(dbReceived := ReceivedWithoutBatch(q.dbReceived, batchUuid))
    case Deleted(Sent, batchUuid) =>
      NoteSeen(q.(ledger := DropBatch(q.ledger, batchUuid), dbSent := SentWithoutBatch(q.dbSent, batchUuid)))
  }

  function Exec(q: Queue, es: seq<Event>): Queue
    decreases |es|
  {
    if es == [] then q else Exec(Step(q, es[0]), es[1..])
  }

  // ---------------------------------------------------------------- what every run keeps

  const OUT_ID := (s: Outbound) => s.id
  const IN_ID := (s: Inbound) => s.id
  const BATCH_OF := (s: Queued) => s.batchUuid
  const ENTRY_ID := (e: LedgerEntry) => e.summary.id
  const KEY_OF := (r: Row) => r.key

  ghost predicate Inv(q: Queue) {
    && DistinctBy(Sending(q), OUT_ID) && DistinctBy(Receiving(q), IN_ID) && DistinctBy(Ghosts(q), BATCH_OF)
    && DistinctBy(q.dbSent, OUT_ID) && DistinctBy(q.dbReceived, IN_ID)
    && DistinctBy(q.ledger, ENTRY_ID)
    && (forall id :: id in q.seen ==> q.seen[id].id == id)
  }

  /** The one thing asked of the backend: ids are distinct inside each list it sends. */
  ghost predicate WellFormed(e: Event) {
    match e
    case Poll(s) => DistinctBy(s.sending, OUT_ID) && DistinctBy(s.receiving, IN_ID) && DistinctBy(s.queued, BATCH_OF)
    case TerminalRead(sent, received) => DistinctBy(sent, OUT_ID) && DistinctBy(received, IN_ID)
    case _ => true
  }

  lemma PutEntryDistinct(l: seq<LedgerEntry>, e: LedgerEntry)
    requires DistinctBy(l, ENTRY_ID)
    ensures DistinctBy(PutEntry(l, e), ENTRY_ID)
  {
  }

  lemma DropsDistinct(q: Queue, id: int, batchUuid: string)
    requires Inv(q)
    ensures DistinctBy(DropEntry(q.ledger, id), ENTRY_ID) && DistinctBy(DropBatch(q.ledger, batchUuid), ENTRY_ID)
    ensures DistinctBy(SentWithoutId(q.dbSent, id), OUT_ID) && DistinctBy(SentWithoutBatch(q.dbSent, batchUuid), OUT_ID)
    ensures DistinctBy(ReceivedWithoutBatch(q.dbReceived, batchUuid), IN_ID)
  {
    KeepDistinct(q.ledger, (e: LedgerEntry) => e.summary.id != id, ENTRY_ID);
    KeepDistinct(q.ledger, (e: LedgerEntry) => e.summary.batchUuid != batchUuid, ENTRY_ID);
    KeepDistinct(q.dbSent, (x: Outbound) => x.id != id, OUT_ID);
    KeepDistinct(q.dbSent, (x: Outbound) => x.batchUuid != batchUuid, OUT_ID);
    KeepDistinct(q.dbReceived, (x: Inbound) => x.batchUuid != batchUuid, IN_ID);
  }

  /** What is remembered is the latest active snapshot of each id. */
  lemma {:induction false} SeenAfterFacts(seen: map<int, Outbound>, sending: seq<Outbound>)
    requires forall id :: id in seen ==> seen[id].id == id
    ensures forall id :: id in SeenAfter(seen, sending) ==> SeenAfter(seen, sending)[id].id == id
    ensures DistinctBy(sending, OUT_ID) ==> forall i :: 0 <= i < |sending| ==>
      sending[i].id in SeenAfter(seen, sending) && SeenAfter(seen, sending)[sending[i].id] == sending[i]
  {
    if sending != [] {
      SeenAfterFacts(seen, Front(sending));
      if DistinctBy(sending, OUT_ID) {
        forall i | 0 <= i < |sending| - 1
          ensures sending[i].id != Last(sending).id && Front(sending)[i] == sending[i]
        {
          assert OUT_ID(sending[i]) != OUT_ID(Last(sending));
        }
      }
    }
  }

  lemma NoteSeenKeeps(q: Queue)
    requires Inv(q)
    ensures Inv(NoteSeen(q))
  {
    SeenAfterFacts(q.seen, Sending(q));
  }

  lemma FinishKeeps(q: Queue, id: int, outcome: string, fallback: Outbound)
    requires Inv(q)
    ensures Inv(Step(q, FinishedSent(id, outcome, fallback)))
  {
    if Unsuccessful(outcome) {
      PutEntryDistinct(q.ledger, LedgerEntry(Promote(q, id, SettledAs(outcome), fallback), SettledAs(outcome)));
      NoteSeenKeeps(Promoted(q, id, outcome, fallback));
    }
  }

  lemma ResentKeeps(q: Queue, id: int, newId: int)
    requires Inv(q)
    ensures Inv(Step(q, Resent(id, newId)))
  {
    if newId == id {
      DropsDistinct(q, id, "");
      NoteSeenKeeps(q.(ledger := DropEntry(q.ledger, id), dbSent := SentWithoutId(q.dbSent, id)));
    } else {
      NoteSeenKeeps(q.(ledger := Retire(q.ledger, id)));
    }
  }

  lemma DeletedKeeps(q: Queue, kind: Kind, batchUuid: string)
    requires Inv(q)
    ensures Inv(Step(q, Deleted(kind, batchUuid)))
  {
    DropsDistinct(q, 0, batchUuid);
    if kind == Sent {
      NoteSeenKeeps(q.(ledger := DropBatch(q.ledger, batchUuid), dbSent := SentWithoutBatch(q.dbSent, batchUuid)));
    }
  }

  lemma StepKeeps(q: Queue, e: Event)
    requires Inv(q) && WellFormed(e)
    ensures Inv(Step(q, e))
  {
    match e
    case Poll(status) => NoteSeenKeeps(q.(status := Some(status)));
    case FinishedSent(id, outcome, fallback) => FinishKeeps(q, id, outcome, fallback);
    case Resent(id, newId) => ResentKeeps(q, id, newId);
    case Deleted(kind, batchUuid) => DeletedKeeps(q, kind, batchUuid);
    case _ =>
  }

  lemma {:induction false} ExecKeeps(q: Queue, es: seq<Event>)
    requires Inv(q) && forall e :: e in es ==> WellFormed(e)
    ensures Inv(Exec(q, es))
    decreases |es|
  {
    if es != [] {
      assert es[0] in es;
      StepKeeps(q, es[0]);
      ExecKeeps(Step(q, es[0]), es[1..]);
    }
  }

  // ---------------------------------------------------------------- one row for each transfer, from the right source

  /** The outbound rows the sources call for: live before durable before ledger. */
  ghost predicate IsSentRow(q: Queue, row: Row) {
    || (exists s :: s in Sending(q) && row == LiveOutRow(q, s))
    || IsSettledSentRow(q, row)
  }

  ghost predicate IsSettledSentRow(q: Queue, row: Row) {
    || (exists e :: e in q.ledger && e.summary.id !in OutIds(Sending(q)) + OutIds(q.dbSent) && row == LedgerRow(q, e))
    || (exists s :: s in q.dbSent && s.id !in OutIds(Sending(q)) && row == DurableOutRow(q, s))
  }

  /** The inbound rows the sources call for: live before durable, and a ghost for each queued announce. */
  ghost predicate IsReceivedRow(q: Queue, row: Row) {
    || IsLiveInRow(q, row)
    || IsSettledReceivedRow(q, row)
    || (exists g :: g in Ghosts(q) && row == GhostRow(g))
  }

  ghost predicate IsLiveInRow(q: Queue, row: Row) {
    exists s :: s in Receiving(q) && row == LiveInRow(q, s)
  }

  ghost predicate IsSettledReceivedRow(q: Queue, row: Row) {
    exists s :: s in q.dbReceived && s.id !in InIds(Receiving(q)) && row == DurableInRow(q, s)
  }

  ghost predicate IsRow(q: Queue, row: Row) {
    if row.kind == Sent then IsSentRow(q, row) else IsReceivedRow(q, row)
  }

  lemma InTransform<T, R>(s: seq<T>, f: T -> R, row: R)
    ensures row in Transform(s, f) <==> exists x :: x in s && row == f(x)
  {
    var r := Transform(s, f);
    if row in r {
      var i :| 0 <= i < |r| && r[i] == row;
      assert s[i] in s && row == f(s[i]);
    }
    if x :| x in s && row == f(x) {
      var i :| 0 <= i < |s| && s[i] == x;
      assert r[i] == row;
    }
  }

  lemma LiveOutCover(q: Queue, row: Row)
    ensures row in LiveOutRows(q, Sending(q)) <==> exists s :: s in Sending(q) && row == LiveOutRow(q, s)
  {
    InTransform(Sending(q), (x: Outbound) => LiveOutRow(q, x), row);
  }

  lemma LedgerCover(q: Queue, row: Row)
    ensures row in LedgerRows(q, Entries(q)) <==>
      exists e :: e in q.ledger && e.summary.id !in OutIds(Sending(q)) + OutIds(q.dbSent) && row == LedgerRow(q, e)
  {
    var covered := OutIds(Sending(q)) + OutIds(q.dbSent);
    KeepElements(q.ledger, (e: LedgerEntry) => e.summary.id !in covered);
    InTransform(Entries(q), (e: LedgerEntry) => LedgerRow(q, e), row);
  }

  lemma DurableOutCover(q: Queue, row: Row)
    ensures row in DurableOutRows(q, DurableOut(q)) <==>
      exists s :: s in q.dbSent && s.id !in OutIds(Sending(q)) && row == DurableOutRow(q, s)
  {
    var covered := OutIds(Sending(q));
    KeepElements(q.dbSent, (x: Outbound) => x.id !in covered);
    InTransform(DurableOut(q), (x: Outbound) => DurableOutRow(q, x), row);
  }

  lemma SentRowsCover(q: Queue, row: Row)
    ensures row in SentRows(q) <==> IsSentRow(q, row)
    ensures row in SentRows(q) ==> row.kind == Sent && !row.ghostly && row.key == OutKey(row.id)
  {
    LiveOutCover(q, row);
    LedgerCover(q, row);
    DurableOutCover(q, row);
  }

  lemma ReceivedRowsCover(q: Queue, row: Row)
    ensures row in ReceivedRows(q) + GhostRows(Ghosts(q)) <==> IsReceivedRow(q, row)
    ensures row in ReceivedRows(q) + GhostRows(Ghosts(q)) ==>
      row.kind == Received && (!row.ghostly ==> row.key == InKey(row.id))
  {
    InTransform(Receiving(q), (x: Inbound) => LiveInRow(q, x), row);
    KeepElements(q.dbReceived, (x: Inbound) => x.id !in InIds(Receiving(q)));
    InTransform(DurableIn(q), (x: Inbound) => DurableInRow(q, x), row);
    InTransform(Ghosts(q), (x: Queued) => GhostRow(x), row);
  }

  /** Nothing else is listed. */
  lemma RowsCoverTheSources(q: Queue, row: Row)
    ensures row in Rows(q) <==> IsRow(q, row)
    ensures row in Rows(q) && !row.ghostly ==> row.key == KeyFor(row.kind, row.id)
    ensures row in Rows(q) && row.ghostly ==> row.kind == Received
  {
    SentRowsCover(q, row);
    ReceivedRowsCover(q, row);
  }

  lemma KeysAreInjective(a: int, b: int, u: string, v: string)
    ensures OutKey(a) == OutKey(b) ==> a == b
    ensures InKey(a) == InKey(b) ==> a == b
    ensures GhostKey(u) == GhostKey(v) ==> u == v
    ensures OutKey(a) != InKey(b) && OutKey(a) != GhostKey(u) && InKey(a) != GhostKey(u)
  {
    assert OutKey(a)[0] == 'o' && InKey(b)[0] == 'i' && GhostKey(u)[0] == 'i';
    assert InKey(a)[2] == ':' && GhostKey(u)[2] == 'q';
    if OutKey(a) == OutKey(b) {
      assert Decimal(a) == OutKey(a)[4..] == OutKey(b)[4..] == Decimal(b);
      DecimalIsInjective(a, b);
    }
    if InKey(a) == InKey(b) {
      assert Decimal(a) == InKey(a)[3..] == InKey(b)[3..] == Decimal(b);
      DecimalIsInjective(a, b);
    }
    if GhostKey(u) == GhostKey(v) {
      assert u == GhostKey(u)[4..] == GhostKey(v)[4..] == v;
    }
  }

  /** Rows of one list, and what their keys are made of. */
  lemma SentRowsDistinct(q: Queue, s: seq<Outbound>, l: seq<LedgerEntry>)
    requires DistinctBy(s, OUT_ID) && DistinctBy(l, ENTRY_ID)
    ensures DistinctBy(LiveOutRows(q, s), KEY_OF) && DistinctBy(DurableOutRows(q, s), KEY_OF)
    ensures DistinctBy(LedgerRows(q, l), KEY_OF)
  {
    forall x: int, y: int
      ensures OutKey(x) == OutKey(y) ==> x == y
    {
      KeysAreInjective(x, y, "", "");
    }
    TransformDistinct(s, (x: Outbound) => LiveOutRow(q, x), OUT_ID, KEY_OF);
    TransformDistinct(s, (x: Outbound) => DurableOutRow(q, x), OUT_ID, KEY_OF);
    TransformDistinct(l, (e: LedgerEntry) => LedgerRow(q, e), ENTRY_ID, KEY_OF);
  }

  lemma ReceivedRowsDistinct(q: Queue, s: seq<Inbound>, g: seq<Queued>)
    requires DistinctBy(s, IN_ID) && DistinctBy(g, BATCH_OF)
    ensures DistinctBy(LiveInRows(q, s), KEY_OF) && DistinctBy(DurableInRows(q, s), KEY_OF)
    ensures DistinctBy(GhostRows(g), KEY_OF)
  {
    forall x: int, y: int
      ensures InKey(x) == InKey(y) ==> x == y
    {
      KeysAreInjective(x, y, "", "");
    }
    forall u: string, v: string
      ensures GhostKey(u) == GhostKey(v) ==> u == v
    {
      KeysAreInjective(0, 0, u, v);
    }
    TransformDistinct(s, (x: Inbound) => LiveInRow(q, x), IN_ID, KEY_OF);
    TransformDistinct(s, (x: Inbound) => DurableInRow(q, x), IN_ID, KEY_OF);
    TransformDistinct(g, (x: Queued) => GhostRow(x), BATCH_OF, KEY_OF);
  }

  /** Key of every row of `rows` is the key of an id in `ids`. */
  ghost predicate KeyedBy(rows: seq<Row>, ids: set<int>, key: int -> string) {
    forall r :: r in rows ==> exists id :: id in ids && r.key == key(id)
  }

  lemma KeyedApart(a: seq<Row>, b: seq<Row>, ia: set<int>, ib: set<int>, key: int -> string)
    requires KeyedBy(a, ia, key) && KeyedBy(b, ib, key) && ia !! ib
    requires forall x, y :: key(x) == key(y) ==> x == y
    ensures forall r, t :: r in a && t in b ==> r.key != t.key
    ensures KeyedBy(a + b, ia + ib, key)
  {
    forall r, t | r in a && t in b
      ensures r.key != t.key
    {
      var x :| x in ia && r.key == key(x);
      var y :| y in ib && t.key == key(y);
    }
  }

  const OUT_KEY := (id: int) => OutKey(id)
  const IN_KEY := (id: int) => InKey(id)

  lemma KeyFnsInjective()
    ensures forall x, y :: OUT_KEY(x) == OUT_KEY(y) ==> x == y
    ensures forall x, y :: IN_KEY(x) == IN_KEY(y) ==> x == y
  {
    forall x: int, y: int
      ensures OutKey(x) == OutKey(y) ==> x == y
      ensures InKey(x) == InKey(y) ==> x == y
    {
      KeysAreInjective(x, y, "", "");
    }
  }

  lemma TransformKeyed<T>(s: seq<T>, f: T -> Row, id: T -> int, ids: set<int>, key: int -> string)
    requires forall x :: x in s ==> id(x) in ids && f(x).key == key(id(x))
    ensures KeyedBy(Transform(s, f), ids, key)
  {
    forall r | r in Transform(s, f)
      ensures exists n :: n in ids && r.key == key(n)
    {
      InTransform(s, f, r);
      var x :| x in s && r == f(x);
      var n := id(x);
      assert n in ids && r.key == key(n);
    }
  }

  lemma RowsKeyed(q: Queue, s: seq<Outbound>, l: seq<LedgerEntry>, r: seq<Inbound>)
    ensures KeyedBy(LiveOutRows(q, s), OutIds(s), OUT_KEY) && KeyedBy(DurableOutRows(q, s), OutIds(s), OUT_KEY)
    ensures KeyedBy(LedgerRows(q, l), LedgerIds(l), OUT_KEY)
    ensures KeyedBy(LiveInRows(q, r), InIds(r), IN_KEY) && KeyedBy(DurableInRows(q, r), InIds(r), IN_KEY)
  {
    TransformKeyed(s, (x: Outbound) => LiveOutRow(q, x), OUT_ID, OutIds(s), OUT_KEY);
    TransformKeyed(s, (x: Outbound) => DurableOutRow(q, x), OUT_ID, OutIds(s), OUT_KEY);
    TransformKeyed(l, (e: LedgerEntry) => LedgerRow(q, e), ENTRY_ID, LedgerIds(l), OUT_KEY);
    TransformKeyed(r, (x: Inbound) => LiveInRow(q, x), IN_ID, InIds(r), IN_KEY);
    TransformKeyed(r, (x: Inbound) => DurableInRow(q, x), IN_ID, InIds(r), IN_KEY);
  }

  lemma EntriesUncovered(q: Queue)
    ensures LedgerIds(Entries(q)) !! OutIds(Sending(q)) + OutIds(q.dbSent)
  {
    var covered := OutIds(Sending(q)) + OutIds(q.dbSent);
    KeepElements(q.ledger, (e: LedgerEntry) => e.summary.id !in covered);
    forall i | 0 <= i < |Entries(q)|
      ensures Entries(q)[i].summary.id !in covered
    {
      assert Entries(q)[i] in Entries(q);
    }
  }

  lemma DurableOutUncovered(q: Queue)
    ensures OutIds(DurableOut(q)) !! OutIds(Sending(q)) && OutIds(DurableOut(q)) <= OutIds(q.dbSent)
  {
    KeepElements(q.dbSent, (x: Outbound) => x.id !in OutIds(Sending(q)));
    forall i | 0 <= i < |DurableOut(q)|
      ensures DurableOut(q)[i].id in OutIds(q.dbSent) - OutIds(Sending(q))
    {
      assert DurableOut(q)[i] in DurableOut(q);
    }
  }

  lemma DurableInUncovered(q: Queue)
    ensures InIds(DurableIn(q)) !! InIds(Receiving(q))
  {
    KeepElements(q.dbReceived, (x: Inbound) => x.id !in InIds(Receiving(q)));
    forall i | 0 <= i < |DurableIn(q)|
      ensures DurableIn(q)[i].id !in InIds(Receiving(q))
    {
      assert DurableIn(q)[i] in DurableIn(q);
    }
  }

  lemma SourcesDistinct(q: Queue)
    requires Inv(q)
    ensures DistinctBy(Entries(q), ENTRY_ID) && DistinctBy(DurableOut(q), OUT_ID) && DistinctBy(DurableIn(q), IN_ID)
  {
    var covered := OutIds(Sending(q)) + OutIds(q.dbSent);
    KeepDistinct(q.ledger, (e: LedgerEntry) => e.summary.id !in covered, ENTRY_ID);
    KeepDistinct(q.dbSent, (x: Outbound) => x.id !in OutIds(Sending(q)), OUT_ID);
    KeepDistinct(q.dbReceived, (x: Inbound) => x.id !in InIds(Receiving(q)), IN_ID);
  }

  /** Two lists keyed by disjoint id sets make one list with distinct keys. */
  lemma Append(a: seq<Row>, b: seq<Row>, ia: set<int>, ib: set<int>, key: int -> string)
    requires KeyedBy(a, ia, key) && KeyedBy(b, ib, key) && ia !! ib
    requires forall x, y :: key(x) == key(y) ==> x == y
    requires DistinctBy(a, KEY_OF) && DistinctBy(b, KEY_OF)
    ensures DistinctBy(a + b, KEY_OF) && KeyedBy(a + b, ia + ib, key)
  {
    KeyedApart(a, b, ia, ib, key);
    ConcatDistinct(a, b, KEY_OF);
  }

  lemma SentRowsKeysDistinct(q: Queue)
    requires Inv(q)
    ensures DistinctBy(SentRows(q), KEY_OF)
    ensures KeyedBy(SentRows(q), OutIds(Sending(q)) + LedgerIds(Entries(q)) + OutIds(DurableOut(q)), OUT_KEY)
  {
    SourcesDistinct(q);
    SentRowsDistinct(q, Sending(q), Entries(q));
    SentRowsDistinct(q, DurableOut(q), Entries(q));
    RowsKeyed(q, Sending(q), Entries(q), []);
    RowsKeyed(q, DurableOut(q), Entries(q), []);
    EntriesUncovered(q);
    DurableOutUncovered(q);
    KeyFnsInjective();
    Append(LiveOutRows(q, Sending(q)), LedgerRows(q, Entries(q)), OutIds(Sending(q)), LedgerIds(Entries(q)), OUT_KEY);
    Append(LiveOutRows(q, Sending(q)) + LedgerRows(q, Entries(q)), DurableOutRows(q, DurableOut(q)),
           OutIds(Sending(q)) + LedgerIds(Entries(q)), OutIds(DurableOut(q)), OUT_KEY);
  }

  lemma ReceivedRowsKeysDistinct(q: Queue)
    requires Inv(q)
    ensures DistinctBy(ReceivedRows(q), KEY_OF)
    ensures KeyedBy(ReceivedRows(q), InIds(Receiving(q)) + InIds(DurableIn(q)), IN_KEY)
  {
    SourcesDistinct(q);
    ReceivedRowsDistinct(q, Receiving(q), Ghosts(q));
    ReceivedRowsDistinct(q, DurableIn(q), Ghosts(q));
    RowsKeyed(q, [], [], Receiving(q));
    RowsKeyed(q, [], [], DurableIn(q));
    DurableInUncovered(q);
    KeyFnsInjective();
    Append(LiveInRows(q, Receiving(q)), DurableInRows(q, DurableIn(q)), InIds(Receiving(q)), InIds(DurableIn(q)), IN_KEY);
  }

  ghost predicate AllGhosts(rows: seq<Row>) {
    forall r :: r in rows ==> exists u :: r.key == GhostKey(u)
  }

  lemma PartsApart(sent: seq<Row>, received: seq<Row>, ghosts: seq<Row>, outIds: set<int>, inIds: set<int>)
    requires KeyedBy(sent, outIds, OUT_KEY) && KeyedBy(received, inIds, IN_KEY) && AllGhosts(ghosts)
    requires DistinctBy(sent, KEY_OF) && DistinctBy(received, KEY_OF) && DistinctBy(ghosts, KEY_OF)
    ensures DistinctBy(sent + received + ghosts, KEY_OF)
  {
    forall r, t | r in sent && t in received
      ensures r.key != t.key
    {
      var a :| a in outIds && r.key == OutKey(a);
      var b :| b in inIds && t.key == InKey(b);
      KeysAreInjective(a, b, "", "");
    }
    ConcatDistinct(sent, received, KEY_OF);
    forall r, t | r in sent + received && t in ghosts
      ensures r.key != t.key
    {
      var u :| t.key == GhostKey(u);
      if r in sent {
        var a :| a in outIds && r.key == OutKey(a);
        KeysAreInjective(a, 0, u, "");
      } else {
        var b :| b in inIds && r.key == InKey(b);
        KeysAreInjective(b, 0, u, "");
      }
    }
    ConcatDistinct(sent + received, ghosts, KEY_OF);
  }

  lemma RowKeysDistinct(q: Queue)
    requires Inv(q)
    ensures DistinctBy(Rows(q), KEY_OF)
  {
    SentRowsKeysDistinct(q);
    ReceivedRowsKeysDistinct(q);
    ReceivedRowsDistinct(q, Receiving(q), Ghosts(q));
    var ghosts := GhostRows(Ghosts(q));
    forall r | r in ghosts
      ensures exists u :: r.key == GhostKey(u)
    {
      InTransform(Ghosts(q), (x: Queued) => GhostRow(x), r);
    }
    PartsApart(SentRows(q), ReceivedRows(q), ghosts,
               OutIds(Sending(q)) + LedgerIds(Entries(q)) + OutIds(DurableOut(q)),
               InIds(Receiving(q)) + InIds(DurableIn(q)));
  }

  /** After any run: keys are pairwise distinct and the rows are exactly those of the union, live before durable before ledger. */
  lemma EveryTransferOnceFromItsBestSource(es: seq<Event>)
    requires forall e :: e in es ==> WellFormed(e)
    ensures var q := Exec(INITIAL, es);
      DistinctBy(Rows(q), KEY_OF) && forall row :: row in Rows(q) <==> IsRow(q, row)
  {
    ExecKeeps(INITIAL, es);
    var q := Exec(INITIAL, es);
    RowKeysDistinct(q);
    forall row: Row
      ensures row in Rows(q) <==> IsRow(q, row)
    {
      RowsCoverTheSources(q, row);
    }
  }

  /** A row of the transfer `id`; ghosts stand for announces that have no id yet. */
  predicate IsRowOf(row: Row, kind: Kind, id: int) {
    row.kind == kind && row.id == id && !row.ghostly
  }

  /** How many rows the list has for one transfer. */
  function CountRows(rows: seq<Row>, kind: Kind, id: int): nat {
    if rows == [] then 0
    else CountRows(Front(rows), kind, id) + if IsRowOf(Last(rows), kind, id) then 1 else 0
  }

  ghost predicate HasRow(rows: seq<Row>, kind: Kind, id: int) {
    exists r :: r in rows && IsRowOf(r, kind, id)
  }

  lemma {:induction false} DistinctKeysCountOnce(rows: seq<Row>, kind: Kind, id: int)
    requires DistinctBy(rows, KEY_OF)
    requires forall r :: r in rows && IsRowOf(r, kind, id) ==> r.key == KeyFor(kind, id)
    ensures CountRows(rows, kind, id) == if HasRow(rows, kind, id) then 1 else 0
  {
    if rows != [] {
      var last := Last(rows);
      assert rows == Front(rows) + [last];
      DistinctKeysCountOnce(Front(rows), kind, id);
      if IsRowOf(last, kind, id) {
        forall i | 0 <= i < |Front(rows)|
          ensures !IsRowOf(rows[i], kind, id)
        {
          assert rows[i] in rows && KEY_OF(rows[i]) != KEY_OF(last);
        }
      }
    }
  }

  /** The ids known to any source of one direction. */
  function SourceIds(q: Queue, kind: Kind): set<int> {
    if kind == Sent then OutIds(Sending(q)) + OutIds(q.dbSent) + LedgerIds(q.ledger)
    else InIds(Receiving(q)) + InIds(q.dbReceived)
  }

  lemma SentIdIsListed(q: Queue, id: int)
    requires id in SourceIds(q, Sent)
    ensures HasRow(Rows(q), Sent, id)
  {
    if id in OutIds(Sending(q)) {
      var s :| s in Sending(q) && s.id == id;
      SentRowsCover(q, LiveOutRow(q, s));
      assert IsRowOf(LiveOutRow(q, s), Sent, id);
    } else if id in OutIds(q.dbSent) {
      var s :| s in q.dbSent && s.id == id;
      SentRowsCover(q, DurableOutRow(q, s));
      assert IsRowOf(DurableOutRow(q, s), Sent, id);
    } else {
      var e :| e in q.ledger && e.summary.id == id;
      SentRowsCover(q, LedgerRow(q, e));
      assert IsRowOf(LedgerRow(q, e), Sent, id);
    }
  }

  lemma ReceivedIdIsListed(q: Queue, id: int)
    requires id in SourceIds(q, Received)
    ensures HasRow(Rows(q), Received, id)
  {
    if id in InIds(Receiving(q)) {
      var s :| s in Receiving(q) && s.id == id;
      ReceivedRowsCover(q, LiveInRow(q, s));
      assert IsRowOf(LiveInRow(q, s), Received, id);
    } else {
      var s :| s in q.dbReceived && s.id == id;
      ReceivedRowsCover(q, DurableInRow(q, s));
      assert IsRowOf(DurableInRow(q, s), Received, id);
    }
  }

  lemma SentRowIdIsKnown(q: Queue, row: Row)
    requires IsSentRow(q, row)
    ensures row.id in SourceIds(q, Sent)
  {
  }

  lemma ReceivedRowIdIsKnown(q: Queue, row: Row)
    requires IsReceivedRow(q, row) && !row.ghostly
    ensures row.id in SourceIds(q, Received)
  {
  }

  lemma SourceIdHasRow(q: Queue, kind: Kind, id: int)
    ensures HasRow(Rows(q), kind, id) <==> id in SourceIds(q, kind)
  {
    if id in SourceIds(q, kind) {
      if kind == Sent {
        SentIdIsListed(q, id);
      } else {
        ReceivedIdIsListed(q, id);
      }
    }
    if r :| r in Rows(q) && IsRowOf(r, kind, id) {
      RowsCoverTheSources(q, r);
      if kind == Sent {
        SentRowIdIsKnown(q, r);
      } else {
        ReceivedRowIdIsKnown(q, r);
      }
    }
  }

  /** A transfer known to any source of its direction has exactly one row; any other has none. */
  lemma OneRowForEachTransfer(es: seq<Event>, kind: Kind, id: int)
    requires forall e :: e in es ==> WellFormed(e)
    ensures var q := Exec(INITIAL, es);
      CountRows(Rows(q), kind, id) == if id in SourceIds(q, kind) then 1 else 0
  {
    ExecKeeps(INITIAL, es);
    var q := Exec(INITIAL, es);
    RowKeysDistinct(q);
    forall r | r in Rows(q) && IsRowOf(r, kind, id)
      ensures r.key == KeyFor(kind, id)
    {
      RowsCoverTheSources(q, r);
    }
    SourceIdHasRow(q, kind, id);
    DistinctKeysCountOnce(Rows(q), kind, id);
  }

  // ---------------------------------------------------------------- what a row shows of the events

  /** What the outbound trackers see of an event. */
  function RateEvent(e: Event): Rates.Event {
    match e
    case OutTick(id, stage, bytesDone, bytesTotal, now) => Rates.Progress(Some(id), stage, Some(bytesDone), Some(bytesTotal), now)
    case FinishedSent(id, _, _) => Rates.Finished(Some(id))
    case _ => Rates.Finished(None)
  }

  function RateEvents(es: seq<Event>): seq<Rates.Event> {
    if es == [] then [] else RateEvents(Front(es)) + [RateEvent(Last(es))]
  }

  /** The samples of a send, as (bytes, time), since it last changed stage or finished. */
  function OutSamples(es: seq<Event>, id: int): seq<(int, int)> {
    Rates.SamplesNow(RateEvents(es), id)
  }

  /** The samples of a received package since it last finished. */
  function InSamples(es: seq<Event>, packageId: string): seq<(int, int)> {
    if es == [] then []
    else
      match Last(es)
      case InTick(p, bytesDone, _, now) =>
        InSamples(Front(es), packageId) + if p == packageId then [(bytesDone, now)] else []
      case FinishedReceived(p) => if p == packageId then [] else InSamples(Front(es), packageId)
      case _ => InSamples(Front(es), packageId)
  }

  function SentFinishes(es: seq<Event>, id: int): nat {
    if es == [] then 0
    else SentFinishes(Front(es), id) + if Last(es).FinishedSent? && Last(es).id == id then 1 else 0
  }

  function ReceivedFinishes(es: seq<Event>, packageId: string): nat {
    if es == [] then 0
    else ReceivedFinishes(Front(es), packageId) + if Last(es) == FinishedReceived(packageId) then 1 else 0
  }

  lemma {:induction false} ExecSnoc(q: Queue, es: seq<Event>)
    requires es != []
    ensures Exec(q, es) == Step(Exec(q, Front(es)), Last(es))
    decreases |es|
  {
    if |es| > 1 {
      ExecSnoc(Step(q, es[0]), es[1..]);
      assert Front(es)[1..] == Front(es[1..]);
    }
  }

  /** Nothing of the live data differs. */
  predicate SameLive(a: Queue, b: Queue) {
    && a.liveOut == b.liveOut && a.liveStage == b.liveStage && a.liveIn == b.liveIn && a.nonce == b.nonce
    && a.outRates == b.outRates && a.inRates == b.inRates
  }

  lemma NoteSeenKeepsLive(q: Queue)
    ensures SameLive(NoteSeen(q), q)
  {
  }

  lemma SameLiveTwice(a: Queue, b: Queue, c: Queue)
    requires SameLive(a, b) && SameLive(b, c)
    ensures SameLive(a, c)
  {
  }

  /** Only ticks and finishes touch the live data. */
  lemma LiveKept(q: Queue, e: Event)
    requires e.Poll? || e.TerminalRead? || e.Resent? || e.Deleted?
    ensures SameLive(Step(q, e), q)
  {
    match e
    case Poll(status) => NoteSeenKeepsLive(q.(status := Some(status)));
    case Resent(id, newId) => ResentKeepsLive(q, id, newId);
    case Deleted(kind, batchUuid) => DeletedKeepsLive(q, kind, batchUuid);
    case TerminalRead(_, _) =>
  }

  lemma ResentKeepsLive(q: Queue, id: int, newId: int)
    ensures SameLive(Step(q, Resent(id, newId)), q)
  {
    var q1 := if newId == id then q.(ledger := DropEntry(q.ledger, id), dbSent := SentWithoutId(q.dbSent, id))
              else q.(ledger := Retire(q.ledger, id));
    assert Step(q, Resent(id, newId)) == NoteSeen(q1);
    NoteSeenKeepsLive(q1);
    SameLiveTwice(NoteSeen(q1), q1, q);
  }

  lemma DeletedKeepsLive(q: Queue, kind: Kind, batchUuid: string)
    ensures SameLive(Step(q, Deleted(kind, batchUuid)), q)
  {
    if kind == Sent {
      var q1 := q.(ledger := DropBatch(q.ledger, batchUuid), dbSent := SentWithoutBatch(q.dbSent, batchUuid));
      assert Step(q, Deleted(kind, batchUuid)) == NoteSeen(q1);
      NoteSeenKeepsLive(q1);
      SameLiveTwice(NoteSeen(q1), q1, q);
    }
  }

  lemma FinishLive(q: Queue, e: Event)
    requires e.FinishedSent?
    ensures SameLive(Step(q, e), Unpinned(q, e.id))
  {
    NoteSeenKeepsLive(Promoted(q, e.id, e.outcome, e.fallback));
  }

  lemma StepRates(q: Queue, e: Event)
    ensures Step(q, e).outRates == Rates.Step(q.outRates, RateEvent(e))
  {
    match e
    case FinishedSent(_, _, _) => FinishLive(q, e);
    case OutTick(_, _, _, _, _) =>
    case InTick(_, _, _, _) =>
    case FinishedReceived(_) =>
    case _ => LiveKept(q, e);
  }

  lemma {:induction false} RatesFollowTheTrace(es: seq<Event>)
    ensures Exec(INITIAL, es).outRates == Rates.Exec(RateEvents(es))
  {
    if es != [] {
      RatesFollowTheTrace(Front(es));
      ExecSnoc(INITIAL, es);
      StepRates(Exec(INITIAL, Front(es)), Last(es));
      assert Front(RateEvents(es)) == RateEvents(Front(es));
    }
  }

  /** What is shown of a transfer is the latest reading of its tracker. */
  predicate ReadsTracker(live: Option<Rates.Reading>, tracker: Option<Rates.Tracker>) {
    && (live.Some? <==> tracker.Some?)
    && (live.Some? ==> live.value == Rates.ReadingOf(tracker.value, live.value.bytesTotal))
  }

  predicate SendMatches(q: Queue, id: int, finishes: nat) {
    && ReadsTracker(Lookup(q.liveOut, id), Lookup(q.outRates.speed, id))
    && Lookup(q.liveStage, id) == Lookup(q.outRates.stage, id)
    && Nonce(q, OutKey(id)) == finishes
  }

  lemma StepKeepsSend(q: Queue, e: Event, id: int, finishes: nat)
    requires SendMatches(q, id, finishes)
    ensures SendMatches(Step(q, e), id, finishes + if e.FinishedSent? && e.id == id then 1 else 0)
  {
    match e
    case FinishedSent(i, _, _) =>
      FinishLive(q, e);
      KeysAreInjective(i, id, "", "");
    case FinishedReceived(p) => assert ("in:" + p)[0] != OutKey(id)[0];
    case OutTick(_, _, _, _, _) =>
    case InTick(_, _, _, _) =>
    case _ => LiveKept(q, e);
  }

  lemma {:induction false} SendsMatch(es: seq<Event>, id: int)
    ensures SendMatches(Exec(INITIAL, es), id, SentFinishes(es, id))
  {
    if es != [] {
      SendsMatch(Front(es), id);
      ExecSnoc(INITIAL, es);
      StepKeepsSend(Exec(INITIAL, Front(es)), Last(es), id, SentFinishes(Front(es), id));
    }
  }

  predicate PackageMatches(q: Queue, packageId: string, samples: seq<(int, int)>, finishes: nat) {
    && Lookup(q.inRates, packageId) == Rates.TrackerOf(samples)
    && ReadsTracker(Lookup(q.liveIn, packageId), Lookup(q.inRates, packageId))
    && Nonce(q, "in:" + packageId) == finishes
  }

  /** What one event leaves of a package's samples. */
  function SamplesAfter(samples: seq<(int, int)>, e: Event, packageId: string): seq<(int, int)> {
    if e.InTick? && e.packageId == packageId then samples + [(e.bytesDone, e.now)]
    else if e == FinishedReceived(packageId) then []
    else samples
  }

  lemma SameLivePackage(q: Queue, q': Queue, packageId: string, samples: seq<(int, int)>, finishes: nat)
    requires PackageMatches(q, packageId, samples, finishes)
    requires q'.inRates == q.inRates && q'.liveIn == q.liveIn && Nonce(q', "in:" + packageId) == Nonce(q, "in:" + packageId)
    ensures PackageMatches(q', packageId, samples, finishes)
  {
  }

  lemma SentFinishKeepsPackage(q: Queue, e: Event, packageId: string, samples: seq<(int, int)>, finishes: nat)
    requires PackageMatches(q, packageId, samples, finishes) && e.FinishedSent?
    ensures PackageMatches(Step(q, e), packageId, samples, finishes)
  {
    FinishLive(q, e);
    assert OutKey(e.id)[0] != ("in:" + packageId)[0];
    SameLivePackage(q, Step(q, e), packageId, samples, finishes);
  }

  lemma TickKeepsPackage(q: Queue, e: Event, packageId: string, samples: seq<(int, int)>, finishes: nat)
    requires PackageMatches(q, packageId, samples, finishes) && e.InTick?
    ensures PackageMatches(Step(q, e), packageId, SamplesAfter(samples, e, packageId), finishes)
  {
    Rates.TrackIsTrackerOf(samples, e.bytesDone, e.now);
  }

  lemma FinishKeepsPackage(q: Queue, e: Event, packageId: string, samples: seq<(int, int)>, finishes: nat)
    requires PackageMatches(q, packageId, samples, finishes) && e.FinishedReceived?
    ensures PackageMatches(Step(q, e), packageId, SamplesAfter(samples, e, packageId),
                           finishes + if e.packageId == packageId then 1 else 0)
  {
    assert ("in:" + e.packageId)[3..] == e.packageId && ("in:" + packageId)[3..] == packageId;
  }

  lemma StepKeepsPackage(q: Queue, e: Event, packageId: string, samples: seq<(int, int)>, finishes: nat)
    requires PackageMatches(q, packageId, samples, finishes)
    ensures PackageMatches(Step(q, e), packageId, SamplesAfter(samples, e, packageId),
                           finishes + if e == FinishedReceived(packageId) then 1 else 0)
  {
    match e
    case FinishedSent(_, _, _) => SentFinishKeepsPackage(q, e, packageId, samples, finishes);
    case FinishedReceived(_) => FinishKeepsPackage(q, e, packageId, samples, finishes);
    case InTick(_, _, _, _) => TickKeepsPackage(q, e, packageId, samples, finishes);
    case OutTick(_, _, _, _, _) => SameLivePackage(q, Step(q, e), packageId, samples, finishes);
    case _ =>
      LiveKept(q, e);
      SameLivePackage(q, Step(q, e), packageId, samples, finishes);
  }

  lemma {:induction false} PackagesMatch(es: seq<Event>, packageId: string)
    ensures PackageMatches(Exec(INITIAL, es), packageId, InSamples(es, packageId), ReceivedFinishes(es, packageId))
  {
    if es != [] {
      PackagesMatch(Front(es), packageId);
      ExecSnoc(INITIAL, es);
      assert InSamples(es, packageId) == SamplesAfter(InSamples(Front(es), packageId), Last(es), packageId);
      StepKeepsPackage(Exec(INITIAL, Front(es)), Last(es), packageId, InSamples(Front(es), packageId),
                       ReceivedFinishes(Front(es), packageId));
    }
  }

  /** The basis of the remaining time that a list of accepted rates gives. */
  function EtaOf(rates: seq<real>): Option<real> {
    if |rates| >= Rates.MEDIAN_MIN_SAMPLES then Some(Rates.Median(LastN(rates, Rates.MEDIAN_WINDOW))) else None
  }

  /** A moving row shows the smoothed speed and the median that its samples give; a still one shows neither. */
  predicate ShowsRates(row: Row, samples: seq<(int, int)>) {
    var rates := Rates.AcceptedRates(samples);
    && row.speedBps == (if row.isTransferring then Rates.Ema(rates) else None)
    && row.etaBps == (if row.isTransferring then EtaOf(rates) else None)
  }

  function BytesOf(samples: seq<(int, int)>): int {
    if samples == [] then 0 else Last(samples).0
  }

  /** A reading of the tracker of some samples says what the samples say. */
  lemma ReadingOfSamples(live: Option<Rates.Reading>, samples: seq<(int, int)>)
    requires ReadsTracker(live, Rates.TrackerOf(samples))
    ensures live.None? <==> samples == []
    ensures live.Some? ==>
      && live.value.bytesDone == BytesOf(samples)
      && live.value.speedBps == Rates.Ema(Rates.AcceptedRates(samples))
      && live.value.etaBps == EtaOf(Rates.AcceptedRates(samples))
  {
  }

  /** What a row of a send shows of its samples. */
  predicate ShowsSend(row: Row, samples: seq<(int, int)>, stage: Option<string>, finishes: nat) {
    && row.finishNonce == finishes
    && (row.terminal ==> row.bytesDone == 0 && row.liveStage.None? && !row.isTransferring && row.speedBps.None? && row.etaBps.None?)
    && (!row.terminal ==> row.bytesDone == BytesOf(samples) && row.liveStage == stage && ShowsRates(row, samples))
  }

  /**
    A live outbound row shows the send the poll shows. It moves while the poll says transferring or
    preparing, and while the poll says queued and the last stage ticked is the indexing one.
   */
  predicate ShowsPolledSend(row: Row, s: Outbound, stage: Option<string>) {
    var indexing := s.displayState == "queued" && stage == Some("indexing");
    && row.id == s.id && row.batchUuid == s.batchUuid && row.details == s.details
    && row.state == s.state && row.displayState == (if indexing then "indexing" else s.displayState)
    && row.stalledUntil == s.stalledUntil && row.retrying == s.retrying && row.nextRetryAt == s.nextRetryAt
    && !row.terminal && !row.resendable
    && (row.isTransferring <==> s.state in {"transferring", "preparing"} || indexing)
  }

  /** The poll lists the send that a live outbound row shows. */
  ghost predicate ShowsSomePolledSend(q: Queue, row: Row, stage: Option<string>) {
    exists s :: s in Sending(q) && ShowsPolledSend(row, s, stage)
  }

  lemma LiveOutShows(q: Queue, s: Outbound, samples: seq<(int, int)>, finishes: nat)
    requires SendMatches(q, s.id, finishes) && Lookup(q.outRates.speed, s.id) == Rates.TrackerOf(samples)
    ensures ShowsSend(LiveOutRow(q, s), samples, Lookup(q.outRates.stage, s.id), finishes)
    ensures ShowsPolledSend(LiveOutRow(q, s), s, Lookup(q.outRates.stage, s.id))
  {
    ReadingOfSamples(Lookup(q.liveOut, s.id), samples);
  }

  lemma SettledOutShows(q: Queue, row: Row, samples: seq<(int, int)>, stage: Option<string>)
    requires IsSettledSentRow(q, row)
    ensures ShowsSend(row, samples, stage, Nonce(q, OutKey(row.id)))
  {
  }

  lemma SettledOutIsTerminal(q: Queue, row: Row)
    requires IsSettledSentRow(q, row)
    ensures row.terminal
  {
  }

  /** Every outbound row shows what the byte ticks of its own transfer since its last stage change or finish give, a settled one shows none, and its nonce counts the finishes. */
  lemma SentRowsFollowTheTrace(es: seq<Event>, row: Row)
    ensures row in Rows(Exec(INITIAL, es)) && row.kind == Sent ==>
      && ShowsSend(row, OutSamples(es, row.id), Rates.StageNow(RateEvents(es), row.id), SentFinishes(es, row.id))
      && (!row.terminal ==> ShowsSomePolledSend(Exec(INITIAL, es), row, Rates.StageNow(RateEvents(es), row.id)))
  {
    var q := Exec(INITIAL, es);
    if row in Rows(q) && row.kind == Sent {
      RowsCoverTheSources(q, row);
      SendsMatch(es, row.id);
      RatesFollowTheTrace(es);
      Rates.TrackersFollowTheTrace(RateEvents(es), row.id);
      if s :| s in Sending(q) && row == LiveOutRow(q, s) {
        LiveOutShows(q, s, OutSamples(es, s.id), SentFinishes(es, s.id));
      } else {
        SettledOutShows(q, row, OutSamples(es, row.id), Rates.StageNow(RateEvents(es), row.id));
        SettledOutIsTerminal(q, row);
      }
    }
  }

  /** What a row of a received package shows of its samples. */
  predicate ShowsPackage(row: Row, samples: seq<(int, int)>, finishes: nat) {
    && row.finishNonce == finishes
    && (row.isTransferring <==> !row.terminal && row.state == "fetching")
    && (!row.terminal ==> row.bytesDone >= BytesOf(samples))
    && ShowsRates(row, samples)
  }

  /** A live inbound row shows the package the poll shows, and its bytes or those last ticked, whichever are more. */
  predicate ShowsPolledReceive(row: Row, s: Inbound, samples: seq<(int, int)>) {
    && row.id == s.id && row.packageId == Some(s.packageId) && row.batchUuid == s.batchUuid && row.details == s.details
    && row.state == s.state && row.displayState == s.displayState && row.stalledUntil == s.stalledUntil
    && row.bytesDone == Max(s.bytesDone, BytesOf(samples))
    && !row.terminal && !row.resendable && !row.retrying && row.nextRetryAt.None?
  }

  lemma LiveInShows(q: Queue, s: Inbound, samples: seq<(int, int)>, finishes: nat)
    requires PackageMatches(q, s.packageId, samples, finishes)
    ensures ShowsPackage(LiveInRow(q, s), samples, finishes)
    ensures ShowsPolledReceive(LiveInRow(q, s), s, samples)
  {
    ReadingOfSamples(Lookup(q.liveIn, s.packageId), samples);
  }

  lemma DurableInShows(q: Queue, s: Inbound, samples: seq<(int, int)>)
    ensures ShowsPackage(DurableInRow(q, s), samples, Nonce(q, "in:" + s.packageId))
  {
  }

  lemma LiveInRowShows(es: seq<Event>, row: Row)
    requires IsLiveInRow(Exec(INITIAL, es), row)
    ensures row.packageId.Some?
    ensures ShowsPackage(row, InSamples(es, row.packageId.value), ReceivedFinishes(es, row.packageId.value))
  {
    var q := Exec(INITIAL, es);
    var s :| s in Receiving(q) && row == LiveInRow(q, s);
    PackagesMatch(es, s.packageId);
    LiveInShows(q, s, InSamples(es, s.packageId), ReceivedFinishes(es, s.packageId));
  }

  lemma SettledInRowShows(es: seq<Event>, row: Row)
    requires IsSettledReceivedRow(Exec(INITIAL, es), row)
    ensures row.packageId.Some?
    ensures ShowsPackage(row, InSamples(es, row.packageId.value), ReceivedFinishes(es, row.packageId.value))
  {
    var q := Exec(INITIAL, es);
    var s :| s in q.dbReceived && s.id !in InIds(Receiving(q)) && row == DurableInRow(q, s);
    PackagesMatch(es, s.packageId);
    DurableInShows(q, s, InSamples(es, s.packageId));
  }

  /** Every inbound row but a ghost shows at least the bytes last ticked since its package finished, the speed its ticks give, and a nonce that counts the finishes. */
  lemma ReceivedRowsFollowTheTrace(es: seq<Event>, row: Row)
    ensures row in Rows(Exec(INITIAL, es)) && row.kind == Received && !row.ghostly ==>
      && row.packageId.Some?
      && ShowsPackage(row, InSamples(es, row.packageId.value), ReceivedFinishes(es, row.packageId.value))
  {
    var q := Exec(INITIAL, es);
    RowsCoverTheSources(q, row);
    if IsLiveInRow(q, row) {
      LiveInRowShows(es, row);
    } else if IsSettledReceivedRow(q, row) {
      SettledInRowShows(es, row);
    }
  }

  /** The samples a row's transfer has since its tracker last started afresh. */
  function SamplesOf(es: seq<Event>, row: Row): seq<(int, int)> {
    if row.kind == Sent then OutSamples(es, row.id)
    else if row.packageId.Some? then InSamples(es, row.packageId.value)
    else []
  }

  /**
    A moving row shows a speed from the first accepted rate on, within the bounds of the rates, and the
    basis of the remaining time from six rates on, which splits the last 48 into halves.
   */
  predicate RatesAreReal(row: Row, rates: seq<real>, lo: real, hi: real) {
    var window := LastN(rates, Rates.MEDIAN_WINDOW);
    && (row.speedBps.Some? <==> row.isTransferring && rates != [])
    && (row.speedBps.Some? ==> lo <= row.speedBps.value <= hi)
    && (row.etaBps.Some? <==> row.isTransferring && |rates| >= Rates.MEDIAN_MIN_SAMPLES)
    && (row.etaBps.Some? ==>
          && 2 * Rates.AtMost(window, row.etaBps.value) >= |window|
          && 2 * Rates.AtLeast(window, row.etaBps.value) >= |window|)
  }

  /** No row ever shows a speed outside the rates accepted since its tracker started afresh. */
  lemma ShownRatesAreReal(es: seq<Event>, row: Row, lo: real, hi: real)
    requires forall r :: r in Rates.AcceptedRates(SamplesOf(es, row)) ==> lo <= r <= hi
    ensures row in Rows(Exec(INITIAL, es)) ==> RatesAreReal(row, Rates.AcceptedRates(SamplesOf(es, row)), lo, hi)
  {
    if row in Rows(Exec(INITIAL, es)) {
      RowsShowRates(es, row);
      ShownAreReal(row, SamplesOf(es, row), lo, hi);
    }
  }

  lemma SendShowsRates(row: Row, samples: seq<(int, int)>, stage: Option<string>, finishes: nat)
    requires ShowsSend(row, samples, stage, finishes)
    ensures ShowsRates(row, samples)
  {
  }

  lemma GhostShowsRates(q: Queue, row: Row)
    requires IsReceivedRow(q, row) && row.ghostly
    ensures ShowsRates(row, [])
    ensures row.packageId.None?
  {
  }

  lemma RowsShowRates(es: seq<Event>, row: Row)
    ensures row in Rows(Exec(INITIAL, es)) ==> ShowsRates(row, SamplesOf(es, row))
  {
    var q := Exec(INITIAL, es);
    RowsCoverTheSources(q, row);
    if row in Rows(q) {
      if row.kind == Sent {
        SentRowsFollowTheTrace(es, row);
        SendShowsRates(row, OutSamples(es, row.id), Rates.StageNow(RateEvents(es), row.id), SentFinishes(es, row.id));
      } else if row.ghostly {
        GhostShowsRates(q, row);
      } else {
        ReceivedRowsFollowTheTrace(es, row);
      }
    }
  }

  lemma ShownAreReal(row: Row, samples: seq<(int, int)>, lo: real, hi: real)
    requires forall r :: r in Rates.AcceptedRates(samples) ==> lo <= r <= hi
    requires ShowsRates(row, samples)
    ensures RatesAreReal(row, Rates.AcceptedRates(samples), lo, hi)
  {
    var rates := Rates.AcceptedRates(samples);
    if rates != [] {
      assert forall i :: 0 <= i < |rates| ==> rates[i] in rates;
      Rates.EmaIsBetween(rates, lo, hi);
      Rates.MedianHalves(LastN(rates, Rates.MEDIAN_WINDOW));
    }
  }

  // ---------------------------------------------------------------- what an action does to the list

  /** Where a settled row comes from. */
  ghost predicate FromLedger(l: seq<LedgerEntry>, row: Row) {
    exists e :: e in l && row.id == e.summary.id && row.batchUuid == e.summary.batchUuid && row.resendable == e.summary.resendable
  }

  ghost predicate FromDurableOut(s: seq<Outbound>, row: Row) {
    exists x :: x in s && row.id == x.id && row.batchUuid == x.batchUuid
  }

  ghost predicate FromDurableIn(s: seq<Inbound>, row: Row) {
    exists x :: x in s && row.id == x.id && row.batchUuid == x.batchUuid
  }

  lemma SettledRowsHaveSources(q: Queue, row: Row)
    requires IsRow(q, row) && row.terminal
    ensures row.kind == Sent ==> FromLedger(q.ledger, row) || FromDurableOut(q.dbSent, row)
    ensures row.kind == Received ==> FromDurableIn(q.dbReceived, row)
  {
    if row.kind == Sent {
      SettledSentSources(q, row);
    } else {
      SettledReceivedSources(q, row);
    }
  }

  lemma SettledSentSources(q: Queue, row: Row)
    requires IsSentRow(q, row) && row.terminal
    ensures FromLedger(q.ledger, row) || FromDurableOut(q.dbSent, row)
  {
  }

  lemma SettledReceivedSources(q: Queue, row: Row)
    requires IsReceivedRow(q, row) && row.terminal
    ensures FromDurableIn(q.dbReceived, row)
  {
  }

  lemma DeletedSources(q: Queue, kind: Kind, batchUuid: string)
    ensures var q' := Step(q, Deleted(kind, batchUuid));
      if kind == Sent then
        q'.ledger == DropBatch(q.ledger, batchUuid) && q'.dbSent == SentWithoutBatch(q.dbSent, batchUuid)
      else
        q'.dbReceived == ReceivedWithoutBatch(q.dbReceived, batchUuid)
  {
  }

  /** Right after a successful delete no settled row of that direction carries the batch. */
  lemma DeletedBatchIsGone(q: Queue, kind: Kind, batchUuid: string, row: Row)
    ensures row in Rows(Step(q, Deleted(kind, batchUuid))) ==>
      !(row.terminal && row.kind == kind && row.batchUuid == batchUuid)
  {
    var q' := Step(q, Deleted(kind, batchUuid));
    RowsCoverTheSources(q', row);
    if IsRow(q', row) {
      DeletedSources(q, kind, batchUuid);
      SettledRowsLackBatch(q', q, kind, batchUuid, row);
    }
  }

  lemma SettledRowsLackBatch(q': Queue, q: Queue, kind: Kind, batchUuid: string, row: Row)
    requires kind == Sent ==>
      q'.ledger == DropBatch(q.ledger, batchUuid) && q'.dbSent == SentWithoutBatch(q.dbSent, batchUuid)
    requires kind == Received ==> q'.dbReceived == ReceivedWithoutBatch(q.dbReceived, batchUuid)
    requires IsRow(q', row)
    ensures !(row.terminal && row.kind == kind && row.batchUuid == batchUuid)
  {
    if row.terminal && row.kind == kind && row.batchUuid == batchUuid {
      SettledRowsHaveSources(q', row);
      BatchDropped(q.ledger, q.dbSent, q.dbReceived, batchUuid, row);
    }
  }

  lemma BatchDropped(l: seq<LedgerEntry>, s: seq<Outbound>, r: seq<Inbound>, batchUuid: string, row: Row)
    requires row.batchUuid == batchUuid
    ensures !FromLedger(DropBatch(l, batchUuid), row) && !FromDurableOut(SentWithoutBatch(s, batchUuid), row)
    ensures !FromDurableIn(ReceivedWithoutBatch(r, batchUuid), row)
  {
    KeepElements(l, (e: LedgerEntry) => e.summary.batchUuid != batchUuid);
    KeepElements(s, (x: Outbound) => x.batchUuid != batchUuid);
    KeepElements(r, (x: Inbound) => x.batchUuid != batchUuid);
  }

  lemma ResentSources(q: Queue, id: int, newId: int)
    ensures var q' := Step(q, Resent(id, newId));
      if newId == id then q'.ledger == DropEntry(q.ledger, id) && q'.dbSent == SentWithoutId(q.dbSent, id)
      else q'.ledger == Retire(q.ledger, id) && q'.dbSent == q.dbSent
  {
  }

  /** A resend that reuses the row leaves no settled row of it; one that was declined keeps the row, without its button. */
  lemma ResendSettlesTheOldRow(q: Queue, id: int, newId: int, row: Row)
    ensures row in Rows(Step(q, Resent(id, newId))) && row.kind == Sent && row.terminal && row.id == id ==>
      newId != id && (id !in OutIds(q.dbSent) ==> !row.resendable)
  {
    var q' := Step(q, Resent(id, newId));
    RowsCoverTheSources(q', row);
    if IsRow(q', row) && row.kind == Sent && row.terminal && row.id == id {
      ResentSources(q, id, newId);
      SettledRowsHaveSources(q', row);
      IdDropped(q.ledger, q.dbSent, row);
      IdRetired(q.ledger, q.dbSent, row);
    }
  }

  lemma IdDropped(l: seq<LedgerEntry>, s: seq<Outbound>, row: Row)
    ensures !FromLedger(DropEntry(l, row.id), row) && !FromDurableOut(SentWithoutId(s, row.id), row)
  {
    KeepElements(l, (e: LedgerEntry) => e.summary.id != row.id);
    KeepElements(s, (x: Outbound) => x.id != row.id);
  }

  lemma IdRetired(l: seq<LedgerEntry>, s: seq<Outbound>, row: Row)
    ensures FromLedger(Retire(l, row.id), row) ==> !row.resendable
    ensures FromDurableOut(s, row) ==> row.id in OutIds(s)
  {
    if FromLedger(Retire(l, row.id), row) {
      var r := Retire(l, row.id);
      var e :| e in r && row.id == e.summary.id && row.resendable == e.summary.resendable;
      var i :| 0 <= i < |r| && r[i] == e;
      assert e == RetireOne(l[i], row.id);
    }
  }

  lemma PutEntryHas(l: seq<LedgerEntry>, e: LedgerEntry)
    ensures e in PutEntry(l, e)
  {
    if e.summary.id in LedgerIds(l) {
      var i :| 0 <= i < |l| && l[i].summary.id == e.summary.id;
      assert PutEntry(l, e)[i] == e;
    }
  }

  lemma PutEntrySpares(l: seq<LedgerEntry>, e: LedgerEntry, other: LedgerEntry)
    requires other in l && other.summary.id != e.summary.id
    ensures other in PutEntry(l, e)
  {
    var i :| 0 <= i < |l| && l[i] == other;
    assert PutEntry(l, e)[i] == other;
  }

  lemma RetireSpares(l: seq<LedgerEntry>, id: int, other: LedgerEntry)
    requires other in l && other.summary.id != id
    ensures other in Retire(l, id)
  {
    var i :| 0 <= i < |l| && l[i] == other;
    assert Retire(l, id)[i] == other;
  }

  lemma DropsSpare(l: seq<LedgerEntry>, id: int, batchUuid: string, other: LedgerEntry)
    requires other in l
    ensures other.summary.id != id ==> other in DropEntry(l, id)
    ensures other.summary.batchUuid != batchUuid ==> other in DropBatch(l, batchUuid)
  {
    KeepElements(l, (e: LedgerEntry) => e.summary.id != id);
    KeepElements(l, (e: LedgerEntry) => e.summary.batchUuid != batchUuid);
  }

  /** The event neither settles the send anew, nor sends it again, nor deletes its batch. */
  predicate Spares(e: Event, id: int, batchUuid: string) {
    match e
    case FinishedSent(i, outcome, _) => i != id || !Unsuccessful(outcome)
    case Resent(i, _) => i != id
    case Deleted(Sent, batch) => batch != batchUuid
    case _ => true
  }

  lemma FinishKeepsEntry(q: Queue, id: int, outcome: string, fallback: Outbound, entry: LedgerEntry)
    requires Inv(q) && entry in q.ledger && (id != entry.summary.id || !Unsuccessful(outcome))
    ensures entry in Step(q, FinishedSent(id, outcome, fallback)).ledger
  {
    if Unsuccessful(outcome) {
      PutEntrySpares(q.ledger, LedgerEntry(Promote(q, id, SettledAs(outcome), fallback), SettledAs(outcome)), entry);
    }
  }

  lemma StepKeepsEntry(q: Queue, e: Event, entry: LedgerEntry)
    requires Inv(q) && entry in q.ledger && Spares(e, entry.summary.id, entry.summary.batchUuid)
    ensures entry in Step(q, e).ledger
  {
    match e
    case FinishedSent(i, outcome, fallback) => FinishKeepsEntry(q, i, outcome, fallback, entry);
    case Resent(i, _) =>
      DropsSpare(q.ledger, i, "", entry);
      RetireSpares(q.ledger, i, entry);
    case Deleted(_, batch) => DropsSpare(q.ledger, 0, batch, entry);
    case _ =>
  }

  lemma {:induction false} ExecKeepsEntry(q: Queue, es: seq<Event>, entry: LedgerEntry)
    requires Inv(q) && entry in q.ledger
    requires forall e :: e in es ==> WellFormed(e) && Spares(e, entry.summary.id, entry.summary.batchUuid)
    ensures entry in Exec(q, es).ledger
    decreases |es|
  {
    if es != [] {
      assert es[0] in es;
      StepKeeps(q, es[0]);
      StepKeepsEntry(q, es[0], entry);
      ExecKeepsEntry(Step(q, es[0]), es[1..], entry);
    }
  }

  /** What the session knows of a send: what a poll last showed of it, or else what the finish event says. */
  function Known(q: Queue, id: int, fallback: Outbound): Outbound {
    if id in q.seen then q.seen[id] else fallback.(id := id, batchUuid := Decimal(id))
  }

  /** The settled, resendable row of a send that failed, carrying what was known of it. */
  ghost predicate ShowsFailure(row: Row, s: Outbound, outcome: string) {
    && row.kind == Sent && row.id == s.id && row.terminal && row.resendable
    && row.state == row.displayState == SettledAs(outcome)
    && row.batchUuid == s.batchUuid && row.details == s.details
  }

  /**
    A send that fails or is cancelled shows as a settled row that can be sent again whenever neither the
    poll nor the durable read lists it, whatever else happens, until it settles anew, is sent again or its
    batch is deleted.
   */
  lemma FailureShowsUntilActedOn(q: Queue, id: int, outcome: string, fallback: Outbound, es: seq<Event>)
    requires Inv(q) && Unsuccessful(outcome)
    requires forall e :: e in es ==> WellFormed(e) && Spares(e, id, Known(q, id, fallback).batchUuid)
    ensures var q' := Exec(Step(q, FinishedSent(id, outcome, fallback)), es);
      id !in OutIds(Sending(q')) + OutIds(q'.dbSent) ==>
        exists row :: row in Rows(q') && ShowsFailure(row, Known(q, id, fallback), outcome)
  {
    var q1 := Step(q, FinishedSent(id, outcome, fallback));
    var settled := SettledAs(outcome);
    var entry := LedgerEntry(Promote(q, id, settled, fallback), settled);
    PutEntryHas(q.ledger, entry);
    FinishKeeps(q, id, outcome, fallback);
    ExecKeepsEntry(q1, es, entry);
    var q' := Exec(q1, es);
    if id !in OutIds(Sending(q')) + OutIds(q'.dbSent) {
      LedgerEntryShows(q', entry);
      assert ShowsFailure(LedgerRow(q', entry), Known(q, id, fallback), outcome);
    }
  }

  /** What a poll shows of a send is known of it. */
  lemma PolledIsKnown(q: Queue, status: Status, s: Outbound, fallback: Outbound)
    requires Inv(q) && DistinctBy(status.sending, OUT_ID) && s in status.sending
    ensures Known(Step(q, Poll(status)), s.id, fallback) == s
  {
    SeenAfterFacts(q.seen, status.sending);
    var i :| 0 <= i < |status.sending| && status.sending[i] == s;
  }

  lemma LedgerEntryShows(q: Queue, e: LedgerEntry)
    requires e in q.ledger && e.summary.id !in OutIds(Sending(q)) + OutIds(q.dbSent)
    ensures LedgerRow(q, e) in Rows(q)
  {
    SentRowsCover(q, LedgerRow(q, e));
  }

  // ---------------------------------------------------------------- the hook itself

  /** The refs and state of the hook, and the loops that keep them. */
  class TransferQueueHook {
    var status: Option<Status>
    var outboundSeen: map<int, Outbound>
    var terminalOutbound: seq<LedgerEntry>
    var dbTerminalSent: seq<Outbound>
    var dbTerminalReceived: seq<Inbound>
    var liveOutboundBytes: map<int, Rates.Reading>
    var liveOutboundStage: map<int, string>
    var liveInboundBytes: map<string, Rates.Reading>
    var finishNonce: map<string, nat>
    var outSpeed: map<int, Rates.Tracker>
    var outStage: map<int, string>
    var inSpeed: map<string, Rates.Tracker>

    function Snapshot(): Queue
      reads this
    {
      Queue(status, outboundSeen, terminalOutbound, dbTerminalSent, dbTerminalReceived,
            liveOutboundBytes, liveOutboundStage, liveInboundBytes, finishNonce, Rates.Trackers(outSpeed, outStage), inSpeed)
    }

    constructor ()
      ensures Snapshot() == INITIAL
    {
      status, outboundSeen, terminalOutbound := None, map[], [];
      dbTerminalSent, dbTerminalReceived := [], [];
      liveOutboundBytes, liveOutboundStage, liveInboundBytes, finishNonce := map[], map[], map[], map[];
      outSpeed, outStage, inSpeed := map[], map[], map[];
    }

    static method PushLiveOut(q: Queue, sending: seq<Outbound>) returns (out: seq<Row>)
      ensures out == LiveOutRows(q, sending)
    {
      out := [];
      for i := 0 to |sending|
        invariant out == LiveOutRows(q, sending[..i])
      {
        assert Front(sending[..i + 1]) == sending[..i];
        out := out + [LiveOutRow(q, sending[i])];
      }
      assert sending[..|sending|] == sending;
    }

    static method PushLedger(q: Queue, entries: seq<LedgerEntry>, covered: set<int>) returns (out: seq<Row>)
      ensures out == LedgerRows(q, UncoveredEntries(entries, covered))
    {
      out := [];
      for i := 0 to |entries|
        invariant out == LedgerRows(q, UncoveredEntries(entries[..i], covered))
      {
        LedgerPush(q, entries, i, covered);
        if entries[i].summary.id !in covered {
          out := out + [LedgerRow(q, entries[i])];
        }
      }
      assert entries[..|entries|] == entries;
    }

    static method PushDurableOut(q: Queue, sent: seq<Outbound>, covered: set<int>) returns (out: seq<Row>)
      ensures out == DurableOutRows(q, UncoveredOut(sent, covered))
    {
      out := [];
      for i := 0 to |sent|
        invariant out == DurableOutRows(q, UncoveredOut(sent[..i], covered))
      {
        DurableOutPush(q, sent, i, covered);
        if sent[i].id !in covered {
          out := out + [DurableOutRow(q, sent[i])];
        }
      }
      assert sent[..|sent|] == sent;
    }

    static method PushLiveIn(q: Queue, receiving: seq<Inbound>) returns (out: seq<Row>)
      ensures out == LiveInRows(q, receiving)
    {
      out := [];
      for i := 0 to |receiving|
        invariant out == LiveInRows(q, receiving[..i])
      {
        assert Front(receiving[..i + 1]) == receiving[..i];
        out := out + [LiveInRow(q, receiving[i])];
      }
      assert receiving[..|receiving|] == receiving;
    }

    static method PushDurableIn(q: Queue, received: seq<Inbound>, covered: set<int>) returns (out: seq<Row>)
      ensures out == DurableInRows(q, UncoveredIn(received, covered))
    {
      out := [];
      for i := 0 to |received|
        invariant out == DurableInRows(q, UncoveredIn(received[..i], covered))
      {
        DurableInPush(q, received, i, covered);
        if received[i].id !in covered {
          out := out + [DurableInRow(q, received[i])];
        }
      }
      assert received[..|received|] == received;
    }

    static method PushGhosts(ghosts: seq<Queued>) returns (out: seq<Row>)
      ensures out == GhostRows(ghosts)
    {
      out := [];
      for i := 0 to |ghosts|
        invariant out == GhostRows(ghosts[..i])
      {
        assert Front(ghosts[..i + 1]) == ghosts[..i];
        out := out + [GhostRow(ghosts[i])];
      }
      assert ghosts[..|ghosts|] == ghosts;
    }

    /** The six push loops of the `rows` memo, in the code's order. */
    method BuildRows() returns (out: seq<Row>)
      ensures out == Rows(Snapshot())
    {
      var q := Snapshot();
      var liveOut := PushLiveOut(q, Sending(q));
      var ledger := PushLedger(q, terminalOutbound, OutIds(Sending(q)) + OutIds(dbTerminalSent));
      var durableOut := PushDurableOut(q, dbTerminalSent, OutIds(Sending(q)));
      var liveIn := PushLiveIn(q, Receiving(q));
      var durableIn := PushDurableIn(q, dbTerminalReceived, InIds(Receiving(q)));
      var ghosts := PushGhosts(Ghosts(q));
      out := (liveOut + ledger + durableOut) + (liveIn + durableIn) + ghosts;
    }

    /** The effect that refreshes the snapshot map and prunes it. */
    method RefreshSeen()
      modifies this`outboundSeen
      ensures Snapshot() == NoteSeen(old(Snapshot()))
    {
      if status.None? {
        return;
      }
      var sending := status.value.sending;
      var seen := outboundSeen;
      for i := 0 to |sending|
        invariant seen == SeenAfter(outboundSeen, sending[..i])
      {
        assert Front(sending[..i + 1]) == sending[..i];
        seen := seen[sending[i].id := sending[i]];
      }
      assert sending[..|sending|] == sending;
      outboundSeen := map id | id in seen.Keys && (id in OutIds(sending) || id in LedgerIds(terminalOutbound)) :: seen[id];
    }

    method OnPoll(polled: Status)
      modifies this
      ensures Snapshot() == Step(old(Snapshot()), Poll(polled))
    {
      status := Some(polled);
      RefreshSeen();
    }

    method OnTerminalRead(sent: seq<Outbound>, received: seq<Inbound>)
      modifies this
      ensures Snapshot() == Step(old(Snapshot()), TerminalRead(sent, received))
    {
      dbTerminalSent := sent;
      dbTerminalReceived := received;
    }

    /** The tracker of a send starts afresh in another stage, then takes the sample. */
    method TrackOut(id: int, stage: string, bytesDone: int, bytesTotal: int, now: int)
      modifies this`outSpeed, this`outStage
      ensures Rates.Trackers(outSpeed, outStage)
           == Rates.Step(Rates.Trackers(old(outSpeed), old(outStage)),
                         Rates.Progress(Some(id), stage, Some(bytesDone), Some(bytesTotal), now))
      ensures id in outSpeed
    {
      if id !in outStage || outStage[id] != stage {
        outStage := outStage[id := stage];
        outSpeed := outSpeed - {id};
      }
      outSpeed := outSpeed[id := Rates.Track(Lookup(outSpeed, id), bytesDone, now)];
    }

    method OnOutTick(id: int, stage: string, bytesDone: int, bytesTotal: int, now: int)
      modifies this
      ensures Snapshot() == Step(old(Snapshot()), OutTick(id, stage, bytesDone, bytesTotal, now))
    {
      TrackOut(id, stage, bytesDone, bytesTotal, now);
      liveOutboundBytes := liveOutboundBytes[id := Rates.ReadingOf(outSpeed[id], bytesTotal)];
      liveOutboundStage := liveOutboundStage[id := stage];
    }

    method OnInTick(packageId: string, bytesDone: int, bytesTotal: int, now: int)
      modifies this
      ensures Snapshot() == Step(old(Snapshot()), InTick(packageId, bytesDone, bytesTotal, now))
    {
      var t := Rates.Track(Lookup(inSpeed, packageId), bytesDone, now);
      inSpeed := inSpeed[packageId := t];
      liveInboundBytes := liveInboundBytes[packageId := Rates.ReadingOf(t, bytesTotal)];
    }

    method OnFinishedReceived(packageId: string)
      modifies this
      ensures Snapshot() == Step(old(Snapshot()), FinishedReceived(packageId))
    {
      var key := "in:" + packageId;
      finishNonce := finishNonce[key := if key in finishNonce then finishNonce[key] + 1 else 1];
      inSpeed := inSpeed - {packageId};
      liveInboundBytes := liveInboundBytes - {packageId};
    }

    method DropTracker(id: int)
      modifies this`outSpeed, this`outStage
      ensures Rates.Trackers(outSpeed, outStage)
           == Rates.Step(Rates.Trackers(old(outSpeed), old(outStage)), Rates.Finished(Some(id)))
    {
      outSpeed := outSpeed - {id};
      outStage := outStage - {id};
    }

    /** A finish drops the live data of a send and bumps its nonce. */
    method DropLive(id: int)
      modifies this
      ensures Snapshot() == Unpinned(old(Snapshot()), id)
    {
      var key := OutKey(id);
      finishNonce := finishNonce[key := if key in finishNonce then finishNonce[key] + 1 else 1];
      DropTracker(id);
      DropReading(id);
    }

    method DropReading(id: int)
      modifies this`liveOutboundBytes, this`liveOutboundStage
      ensures liveOutboundBytes == old(liveOutboundBytes) - {id} && liveOutboundStage == old(liveOutboundStage) - {id}
    {
      liveOutboundBytes := liveOutboundBytes - {id};
      liveOutboundStage := liveOutboundStage - {id};
    }

    method OnFinishedSent(id: int, outcome: string, fallback: Outbound)
      modifies this
      ensures Snapshot() == Step(old(Snapshot()), FinishedSent(id, outcome, fallback))
    {
      DropLive(id);
      if outcome == "cancelled" || "failed" <= outcome {
        var settled := if outcome == "cancelled" then "cancelled" else "failed";
        var summary := Promote(Snapshot(), id, settled, fallback);
        terminalOutbound := PutEntry(terminalOutbound, LedgerEntry(summary, settled));
        assert Snapshot() == Promoted(old(Snapshot()), id, outcome, fallback);
        RefreshSeen();
      }
    }

    method OnResent(id: int, newId: int)
      modifies this
      ensures Snapshot() == Step(old(Snapshot()), Resent(id, newId))
    {
      if newId == id {
        terminalOutbound := DropEntry(terminalOutbound, id);
        dbTerminalSent := SentWithoutId(dbTerminalSent, id);
      } else {
        terminalOutbound := Retire(terminalOutbound, id);
      }
      RefreshSeen();
    }

    method OnDeleted(kind: Kind, batchUuid: string)
      modifies this
      ensures Snapshot() == Step(old(Snapshot()), Deleted(kind, batchUuid))
    {
      if kind == Received {
        dbTerminalReceived := ReceivedWithoutBatch(dbTerminalReceived, batchUuid);
      } else {
        dbTerminalSent := SentWithoutBatch(dbTerminalSent, batchUuid);
        terminalOutbound := DropBatch(terminalOutbound, batchUuid);
        RefreshSeen();
      }
    }
  }

  lemma LedgerPush(q: Queue, l: seq<LedgerEntry>, i: nat, covered: set<int>)
    requires i < |l|
    ensures LedgerRows(q, UncoveredEntries(l[..i + 1], covered))
         == LedgerRows(q, UncoveredEntries(l[..i], covered)) + if l[i].summary.id in covered then [] else [LedgerRow(q, l[i])]
  {
    assert Front(l[..i + 1]) == l[..i];
    var kept := UncoveredEntries(l[..i], covered);
    assert UncoveredEntries(l[..i + 1], covered) == kept + if l[i].summary.id in covered then [] else [l[i]];
    assert Front(kept + [l[i]]) == kept;
  }

  lemma DurableOutPush(q: Queue, s: seq<Outbound>, i: nat, covered: set<int>)
    requires i < |s|
    ensures DurableOutRows(q, UncoveredOut(s[..i + 1], covered))
         == DurableOutRows(q, UncoveredOut(s[..i], covered)) + if s[i].id in covered then [] else [DurableOutRow(q, s[i])]
  {
    assert Front(s[..i + 1]) == s[..i];
    var kept := UncoveredOut(s[..i], covered);
    assert UncoveredOut(s[..i + 1], covered) == kept + if s[i].id in covered then [] else [s[i]];
    assert Front(kept + [s[i]]) == kept;
  }

  lemma DurableInPush(q: Queue, s: seq<Inbound>, i: nat, covered: set<int>)
    requires i < |s|
    ensures DurableInRows(q, UncoveredIn(s[..i + 1], covered))
         == DurableInRows(q, UncoveredIn(s[..i], covered)) + if s[i].id in covered then [] else [DurableInRow(q, s[i])]
  {
    assert Front(s[..i + 1]) == s[..i];
    var kept := UncoveredIn(s[..i], covered);
    assert UncoveredIn(s[..i + 1], covered) == kept + if s[i].id in covered then [] else [s[i]];
    assert Front(kept + [s[i]]) == kept;
  }
}
