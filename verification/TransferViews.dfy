/**
  The transfer queue seen one transfer at a time. The hook keeps lists and maps over all transfers;
  here each transfer has a few optional fields of its own, changed by its own events only, and the
  row the queue shows for it is the one those fields call for.
 */
module TransferViews {
  import opened Common
  import opened Lists
  import opened Text
  import opened TransferRows
  import Rates = TransferRates

  /** What the queue holds of one send: what the poll lists, what is remembered of it, its ledger entry, its durable summary. */
  datatype SendView = SendView(polled: Option<Outbound>, known: Option<Outbound>, entry: Option<LedgerEntry>, durable: Option<Outbound>)

  /** What the queue holds of one received transfer. */
  datatype ReceiveView = ReceiveView(polled: Option<Inbound>, durable: Option<Inbound>)

  function OutIs(id: int): Outbound -> bool {
    (s: Outbound) => s.id == id
  }

  function InIs(id: int): Inbound -> bool {
    (s: Inbound) => s.id == id
  }

  function EntryIs(id: int): LedgerEntry -> bool {
    (e: LedgerEntry) => e.summary.id == id
  }

  function SendViewOf(q: Queue, id: int): SendView {
    SendView(Latest(Sending(q), OutIs(id)), Lookup(q.seen, id), Latest(q.ledger, EntryIs(id)), Latest(q.dbSent, OutIs(id)))
  }

  function ReceiveViewOf(q: Queue, id: int): ReceiveView {
    ReceiveView(Latest(Receiving(q), InIs(id)), Latest(q.dbReceived, InIs(id)))
  }

  // ---------------------------------------------------------------- one transfer on its own

  /** The summary of a send that just settled: what was known of it, or else what its finish event says, ready to be sent again. */
  function Settlement(known: Option<Outbound>, id: int, outcome: string, fallback: Outbound): LedgerEntry {
    match known
    case Some(s) => LedgerEntry(s.(state := outcome, displayState := outcome, resendable := true), outcome)
    case None =>
      LedgerEntry(Outbound(id, Decimal(id), outcome, outcome, None, false, None, true, fallback.details), outcome)
  }

  function EntryAfter(w: SendView, e: Event, id: int): Option<LedgerEntry> {
    match e
    case FinishedSent(i, outcome, fallback) =>
      if i != id then w.entry
      else if outcome == "cancelled" then Some(Settlement(w.known, id, "cancelled", fallback))
      else if "failed" <= outcome then Some(Settlement(w.known, id, "failed", fallback))
      else w.entry
    case Resent(i, newId) =>
      if i != id then w.entry
      else if newId == id || w.entry.None? then None
      else Some(w.entry.value.(summary := w.entry.value.summary.(resendable := false)))
    case Deleted(Sent, batchUuid) =>
      if w.entry.Some? && w.entry.value.summary.batchUuid == batchUuid then None else w.entry
    case _ => w.entry
  }

  function DurableSentAfter(durable: Option<Outbound>, e: Event, id: int): Option<Outbound> {
    match e
    case TerminalRead(sent, _) => Latest(sent, OutIs(id))
    case Resent(i, newId) => if i == newId == id then None else durable
    case Deleted(Sent, batchUuid) => if durable.Some? && durable.value.batchUuid == batchUuid then None else durable
    case _ => durable
  }

  /** What is polled is remembered; what is not is remembered only while the ledger holds the send. */
  function Remember(polled: Option<Outbound>, known: Option<Outbound>, entry: Option<LedgerEntry>): Option<Outbound> {
    if polled.Some? then polled else if entry.Some? then known else None
  }

  function SendViewStep(w: SendView, e: Event, id: int): SendView {
    var polled := if e.Poll? then Latest(e.status.sending, OutIs(id)) else w.polled;
    var entry := EntryAfter(w, e, id);
    SendView(polled, Remember(polled, w.known, entry), entry, DurableSentAfter(w.durable, e, id))
  }

  function SendRun(es: seq<Event>, id: int): SendView {
    if es == [] then SendView(None, None, None, None) else SendViewStep(SendRun(Front(es), id), Last(es), id)
  }

  function ReceiveViewStep(w: ReceiveView, e: Event, id: int): ReceiveView {
    match e
    case Poll(status) => w.(polled := Latest(status.receiving, InIs(id)))
    case TerminalRead(_, received) => w.(durable := Latest(received, InIs(id)))
    case Deleted(Received, batchUuid) =>
      if w.durable.Some? && w.durable.value.batchUuid == batchUuid then w.(durable := None) else w
    case _ => w
  }

  function ReceiveRun(es: seq<Event>, id: int): ReceiveView {
    if es == [] then ReceiveView(None, None) else ReceiveViewStep(ReceiveRun(Front(es), id), Last(es), id)
  }

  /** The queued announces of the latest poll. */
  function GhostsNow(es: seq<Event>): seq<Queued> {
    if es == [] then [] else if Last(es).Poll? then Last(es).status.queued else GhostsNow(Front(es))
  }

  // ---------------------------------------------------------------- the lists hold each transfer's own fields

  lemma {:induction false} SeenAfterFinds(seen: map<int, Outbound>, sending: seq<Outbound>, id: int)
    ensures Lookup(SeenAfter(seen, sending), id)
         == if Latest(sending, OutIs(id)).Some? then Latest(sending, OutIs(id)) else Lookup(seen, id)
  {
    if sending != [] {
      SeenAfterFinds(seen, Front(sending), id);
    }
  }

  lemma OutIdListed(s: seq<Outbound>, id: int)
    ensures id in OutIds(s) <==> Latest(s, OutIs(id)).Some?
  {
    LatestIsIn(s, OutIs(id));
    if id in OutIds(s) {
      var i :| 0 <= i < |s| && s[i].id == id;
      assert s[i] in s;
    }
  }

  lemma EntryIdListed(l: seq<LedgerEntry>, id: int)
    ensures id in LedgerIds(l) <==> Latest(l, EntryIs(id)).Some?
  {
    LatestIsIn(l, EntryIs(id));
    if id in LedgerIds(l) {
      var i :| 0 <= i < |l| && l[i].summary.id == id;
      assert l[i] in l;
    }
  }

  lemma NoteSeenView(q: Queue, id: int)
    requires q.status.None? ==> id !in q.seen
    ensures var w := SendViewOf(q, id);
      SendViewOf(NoteSeen(q), id) == w.(known := Remember(w.polled, w.known, w.entry))
    ensures NoteSeen(q).status == q.status
  {
    if q.status.Some? {
      SeenAfterFinds(q.seen, Sending(q), id);
      OutIdListed(Sending(q), id);
      EntryIdListed(q.ledger, id);
    }
  }

  lemma PutEntryFinds(l: seq<LedgerEntry>, e: LedgerEntry, id: int)
    ensures Latest(PutEntry(l, e), EntryIs(id)) == if e.summary.id == id then Some(e) else Latest(l, EntryIs(id))
  {
    if e.summary.id in LedgerIds(l) {
      LatestInTransform(l, (x: LedgerEntry) => if x.summary.id == e.summary.id then e else x, EntryIs(id));
      LatestIsIn(l, EntryIs(id));
      EntryIdListed(l, id);
    } else {
      assert Front(l + [e]) == l;
    }
  }

  lemma RetireFinds(l: seq<LedgerEntry>, i: int, id: int)
    ensures var found := Latest(l, EntryIs(id));
      Latest(Retire(l, i), EntryIs(id)) == if found.Some? then Some(RetireOne(found.value, i)) else None
  {
    LatestInTransform(l, (e: LedgerEntry) => RetireOne(e, i), EntryIs(id));
  }

  lemma DropEntryFinds(l: seq<LedgerEntry>, i: int, id: int)
    ensures Latest(DropEntry(l, i), EntryIs(id)) == if i == id then None else Latest(l, EntryIs(id))
  {
    LatestInKeep(l, (e: LedgerEntry) => e.summary.id != i, EntryIs(id));
  }

  lemma SentWithoutIdFinds(s: seq<Outbound>, i: int, id: int)
    ensures Latest(SentWithoutId(s, i), OutIs(id)) == if i == id then None else Latest(s, OutIs(id))
  {
    LatestInKeep(s, (x: Outbound) => x.id != i, OutIs(id));
  }

  /** In a list with distinct keys what is found is the only candidate. */
  lemma OnlyOne<T(!new), K>(s: seq<T>, key: T -> K, p: T -> bool, k: K)
    requires DistinctBy(s, key) && forall x :: p(x) <==> key(x) == k
    ensures Latest(s, p).Some? ==> forall x :: x in s && p(x) ==> x == Latest(s, p).value
  {
    LatestIsIn(s, p);
    if Latest(s, p).Some? {
      var found := Latest(s, p).value;
      var i :| 0 <= i < |s| && s[i] == found;
      forall x | x in s && p(x)
        ensures x == found
      {
        var j :| 0 <= j < |s| && s[j] == x;
        assert key(s[i]) == key(s[j]);
      }
    }
  }

  lemma DropBatchFinds(l: seq<LedgerEntry>, batchUuid: string, id: int)
    requires DistinctBy(l, ENTRY_ID)
    ensures var found := Latest(l, EntryIs(id));
      Latest(DropBatch(l, batchUuid), EntryIs(id))
      == if found.Some? && found.value.summary.batchUuid == batchUuid then None else found
  {
    OnlyOne(l, ENTRY_ID, EntryIs(id), id);
    LatestIsIn(l, EntryIs(id));
    LatestInKeep(l, (e: LedgerEntry) => e.summary.batchUuid != batchUuid, EntryIs(id));
  }

  lemma SentWithoutBatchFinds(s: seq<Outbound>, batchUuid: string, id: int)
    requires DistinctBy(s, OUT_ID)
    ensures var found := Latest(s, OutIs(id));
      Latest(SentWithoutBatch(s, batchUuid), OutIs(id))
      == if found.Some? && found.value.batchUuid == batchUuid then None else found
  {
    OnlyOne(s, OUT_ID, OutIs(id), id);
    LatestIsIn(s, OutIs(id));
    LatestInKeep(s, (x: Outbound) => x.batchUuid != batchUuid, OutIs(id));
  }

  lemma ReceivedWithoutBatchFinds(s: seq<Inbound>, batchUuid: string, id: int)
    requires DistinctBy(s, IN_ID)
    ensures var found := Latest(s, InIs(id));
      Latest(ReceivedWithoutBatch(s, batchUuid), InIs(id))
      == if found.Some? && found.value.batchUuid == batchUuid then None else found
  {
    OnlyOne(s, IN_ID, InIs(id), id);
    LatestIsIn(s, InIs(id));
    LatestInKeep(s, (x: Inbound) => x.batchUuid != batchUuid, InIs(id));
  }

  // ---------------------------------------------------------------- every step, one transfer at a time

  /** What is remembered of the send is up to date. */
  predicate UpToDate(q: Queue, id: int) {
    var w := SendViewOf(q, id);
    w.known == Remember(w.polled, w.known, w.entry) && (q.status.None? ==> id !in q.seen)
  }

  lemma UpToDateAfter(q: Queue, id: int)
    requires q.status.None? ==> id !in q.seen
    ensures UpToDate(NoteSeen(q), id)
  {
    NoteSeenView(q, id);
  }

  lemma FinishView(q: Queue, i: int, outcome: string, fallback: Outbound, id: int)
    requires Inv(q) && UpToDate(q, id)
    ensures var e := FinishedSent(i, outcome, fallback);
      SendViewOf(Step(q, e), id) == SendViewStep(SendViewOf(q, id), e, id) && UpToDate(Step(q, e), id)
  {
    if Unsuccessful(outcome) {
      var settled := SettledAs(outcome);
      var entry := LedgerEntry(Promote(q, i, settled, fallback), settled);
      PutEntryFinds(q.ledger, entry, id);
      NoteSeenView(Promoted(q, i, outcome, fallback), id);
      UpToDateAfter(Promoted(q, i, outcome, fallback), id);
      assert i == id ==> entry == Settlement(Lookup(q.seen, id), id, settled, fallback);
    }
  }

  lemma ResentView(q: Queue, i: int, newId: int, id: int)
    requires Inv(q) && UpToDate(q, id)
    ensures var e := Resent(i, newId);
      SendViewOf(Step(q, e), id) == SendViewStep(SendViewOf(q, id), e, id) && UpToDate(Step(q, e), id)
  {
    if newId == i {
      var q1 := q.(ledger := DropEntry(q.ledger, i), dbSent := SentWithoutId(q.dbSent, i));
      DropEntryFinds(q.ledger, i, id);
      SentWithoutIdFinds(q.dbSent, i, id);
      NoteSeenView(q1, id);
      UpToDateAfter(q1, id);
    } else {
      var q1 := q.(ledger := Retire(q.ledger, i));
      RetireFinds(q.ledger, i, id);
      LatestIsIn(q.ledger, EntryIs(id));
      NoteSeenView(q1, id);
      UpToDateAfter(q1, id);
    }
  }

  lemma DeletedView(q: Queue, batchUuid: string, id: int)
    requires Inv(q) && UpToDate(q, id)
    ensures var e := Deleted(Sent, batchUuid);
      SendViewOf(Step(q, e), id) == SendViewStep(SendViewOf(q, id), e, id) && UpToDate(Step(q, e), id)
  {
    var q1 := q.(ledger := DropBatch(q.ledger, batchUuid), dbSent := SentWithoutBatch(q.dbSent, batchUuid));
    DropBatchFinds(q.ledger, batchUuid, id);
    SentWithoutBatchFinds(q.dbSent, batchUuid, id);
    NoteSeenView(q1, id);
    UpToDateAfter(q1, id);
  }

  lemma PollView(q: Queue, status: Status, id: int)
    requires UpToDate(q, id)
    ensures var e := Poll(status);
      SendViewOf(Step(q, e), id) == SendViewStep(SendViewOf(q, id), e, id) && UpToDate(Step(q, e), id)
  {
    var q1 := q.(status := Some(status));
    NoteSeenView(q1, id);
    UpToDateAfter(q1, id);
  }

  lemma StepSendView(q: Queue, e: Event, id: int)
    requires Inv(q) && UpToDate(q, id)
    ensures SendViewOf(Step(q, e), id) == SendViewStep(SendViewOf(q, id), e, id) && UpToDate(Step(q, e), id)
  {
    match e
    case Poll(status) => PollView(q, status, id);
    case FinishedSent(i, outcome, fallback) => FinishView(q, i, outcome, fallback, id);
    case Resent(i, newId) => ResentView(q, i, newId, id);
    case Deleted(Sent, batchUuid) => DeletedView(q, batchUuid, id);
    case _ =>
  }

  /** The finish of a send, or an action on one, leaves the poll and the durable receives alone. */
  lemma SendsKeepReceives(q: Queue, e: Event)
    requires e.FinishedSent? || e.Resent? || (e.Deleted? && e.kind == Sent)
    ensures Step(q, e).status == q.status && Step(q, e).dbReceived == q.dbReceived
  {
    match e
    case FinishedSent(i, outcome, fallback) =>
      if Unsuccessful(outcome) {
        assert Step(q, e) == NoteSeen(Promoted(q, i, outcome, fallback));
      }
    case _ =>
  }

  /** The poll and the durable receives are touched by three events only. */
  lemma OthersKeepReceives(q: Queue, e: Event)
    ensures Step(q, e).status == if e.Poll? then Some(e.status) else q.status
    ensures Step(q, e).dbReceived ==
      match e
      case TerminalRead(_, received) => received
      case Deleted(Received, batchUuid) => ReceivedWithoutBatch(q.dbReceived, batchUuid)
      case _ => q.dbReceived
  {
    if e.FinishedSent? || e.Resent? || (e.Deleted? && e.kind == Sent) {
      SendsKeepReceives(q, e);
    }
  }

  lemma StepReceiveView(q: Queue, e: Event, id: int)
    requires Inv(q)
    ensures ReceiveViewOf(Step(q, e), id) == ReceiveViewStep(ReceiveViewOf(q, id), e, id)
  {
    OthersKeepReceives(q, e);
    match e
    case Deleted(Received, batchUuid) => ReceivedWithoutBatchFinds(q.dbReceived, batchUuid, id);
    case _ =>
  }

  /** After any run the queue holds of a send exactly what the send's own events made of it. */
  lemma {:induction false} SendsAreTheirOwn(es: seq<Event>, id: int)
    requires forall e :: e in es ==> WellFormed(e)
    ensures SendViewOf(Exec(INITIAL, es), id) == SendRun(es, id) && UpToDate(Exec(INITIAL, es), id)
  {
    if es != [] {
      assert forall e :: e in Front(es) ==> e in es;
      SendsAreTheirOwn(Front(es), id);
      ExecKeeps(INITIAL, Front(es));
      ExecSnoc(INITIAL, es);
      StepSendView(Exec(INITIAL, Front(es)), Last(es), id);
    }
  }

  /** And of a received transfer. */
  lemma {:induction false} ReceivesAreTheirOwn(es: seq<Event>, id: int)
    requires forall e :: e in es ==> WellFormed(e)
    ensures ReceiveViewOf(Exec(INITIAL, es), id) == ReceiveRun(es, id)
  {
    if es != [] {
      assert forall e :: e in Front(es) ==> e in es;
      ReceivesAreTheirOwn(Front(es), id);
      ExecKeeps(INITIAL, Front(es));
      ExecSnoc(INITIAL, es);
      StepReceiveView(Exec(INITIAL, Front(es)), Last(es), id);
    }
  }

  // ---------------------------------------------------------------- the row of one transfer

  /** A settled row from the durable list shows the summary's own outcome. */
  predicate ShowsDurableSend(row: Row, s: Outbound) {
    && row.id == s.id && row.batchUuid == s.batchUuid && row.details == s.details
    && row.state == s.state && row.displayState == s.displayState && row.resendable == s.resendable
    && row.terminal && row.stalledUntil.None? && !row.retrying && row.nextRetryAt.None?
  }

  /** A settled row from the session ledger shows the outcome of the finish. */
  predicate ShowsEntry(row: Row, e: LedgerEntry) {
    && row.id == e.summary.id && row.batchUuid == e.summary.batchUuid && row.details == e.summary.details
    && row.state == row.displayState == e.outcome && row.resendable == e.summary.resendable
    && row.terminal && row.stalledUntil.None? && !row.retrying && row.nextRetryAt.None?
  }

  /** Live before durable before ledger. */
  predicate ShowsSendView(row: Row, w: SendView, stage: Option<string>) {
    if w.polled.Some? then ShowsPolledSend(row, w.polled.value, stage)
    else if w.durable.Some? then ShowsDurableSend(row, w.durable.value)
    else w.entry.Some? && ShowsEntry(row, w.entry.value)
  }

  lemma FindOutIs(s: seq<Outbound>, x: Outbound)
    requires DistinctBy(s, OUT_ID) && x in s
    ensures Latest(s, OutIs(x.id)) == Some(x)
  {
    OnlyOne(s, OUT_ID, OutIs(x.id), x.id);
    LatestIsIn(s, OutIs(x.id));
  }

  lemma FindInIs(s: seq<Inbound>, x: Inbound)
    requires DistinctBy(s, IN_ID) && x in s
    ensures Latest(s, InIs(x.id)) == Some(x)
  {
    OnlyOne(s, IN_ID, InIs(x.id), x.id);
    LatestIsIn(s, InIs(x.id));
  }

  lemma FindEntryIs(l: seq<LedgerEntry>, e: LedgerEntry)
    requires DistinctBy(l, ENTRY_ID) && e in l
    ensures Latest(l, EntryIs(e.summary.id)) == Some(e)
  {
    OnlyOne(l, ENTRY_ID, EntryIs(e.summary.id), e.summary.id);
    LatestIsIn(l, EntryIs(e.summary.id));
  }

  lemma LedgerRowShows(q: Queue, e: LedgerEntry, stage: Option<string>)
    requires Inv(q) && e in q.ledger && e.summary.id !in OutIds(Sending(q)) + OutIds(q.dbSent)
    ensures ShowsSendView(LedgerRow(q, e), SendViewOf(q, e.summary.id), stage)
  {
    FindEntryIs(q.ledger, e);
    OutIdListed(Sending(q), e.summary.id);
    OutIdListed(q.dbSent, e.summary.id);
  }

  lemma DurableRowShows(q: Queue, s: Outbound, stage: Option<string>)
    requires Inv(q) && s in q.dbSent && s.id !in OutIds(Sending(q))
    ensures ShowsSendView(DurableOutRow(q, s), SendViewOf(q, s.id), stage)
  {
    FindOutIs(q.dbSent, s);
    OutIdListed(Sending(q), s.id);
  }

  lemma SettledRowShows(q: Queue, row: Row, stage: Option<string>)
    requires Inv(q) && IsSettledSentRow(q, row)
    ensures ShowsSendView(row, SendViewOf(q, row.id), stage)
  {
    if e :| e in q.ledger && e.summary.id !in OutIds(Sending(q)) + OutIds(q.dbSent) && row == LedgerRow(q, e) {
      LedgerRowShows(q, e, stage);
    } else {
      var s :| s in q.dbSent && s.id !in OutIds(Sending(q)) && row == DurableOutRow(q, s);
      DurableRowShows(q, s, stage);
    }
  }

  lemma PolledRowShows(q: Queue, row: Row, stage: Option<string>)
    requires Inv(q) && ShowsSomePolledSend(q, row, stage)
    ensures ShowsSendView(row, SendViewOf(q, row.id), stage)
  {
    var s :| s in Sending(q) && ShowsPolledSend(row, s, stage);
    FindOutIs(Sending(q), s);
  }

  /** A row that is not settled is one the poll lists. */
  lemma TerminalIsSettled(q: Queue, row: Row)
    requires row in Rows(q) && row.kind == Sent && row.terminal
    ensures IsSettledSentRow(q, row)
  {
    RowsCoverTheSources(q, row);
  }

  /** After any run the row of a send is the one its own events call for, whatever else the queue went through. */
  lemma SendRowIsItsOwn(es: seq<Event>, row: Row)
    requires forall e :: e in es ==> WellFormed(e)
    requires row in Rows(Exec(INITIAL, es)) && row.kind == Sent
    ensures ShowsSendView(row, SendRun(es, row.id), Rates.StageNow(RateEvents(es), row.id))
  {
    var q, stage := Exec(INITIAL, es), Rates.StageNow(RateEvents(es), row.id);
    ExecKeeps(INITIAL, es);
    SendsAreTheirOwn(es, row.id);
    SentRowsFollowTheTrace(es, row);
    if row.terminal {
      TerminalIsSettled(q, row);
      SettledRowShows(q, row, stage);
    } else {
      PolledRowShows(q, row, stage);
    }
  }

  /** And there is exactly one such row while any of the three sources holds the send, and none otherwise. */
  lemma SendHasOneRow(es: seq<Event>, id: int)
    requires forall e :: e in es ==> WellFormed(e)
    ensures var w := SendRun(es, id);
      CountRows(Rows(Exec(INITIAL, es)), Sent, id)
      == if w.polled.Some? || w.durable.Some? || w.entry.Some? then 1 else 0
  {
    var q := Exec(INITIAL, es);
    SendsAreTheirOwn(es, id);
    OneRowForEachTransfer(es, Sent, id);
    OutIdListed(Sending(q), id);
    OutIdListed(q.dbSent, id);
    EntryIdListed(q.ledger, id);
  }

  lemma {:induction false} CountedIsThere(rows: seq<Row>, kind: Kind, id: int)
    requires CountRows(rows, kind, id) > 0
    ensures exists row :: row in rows && IsRowOf(row, kind, id)
  {
    if !IsRowOf(Last(rows), kind, id) {
      CountedIsThere(Front(rows), kind, id);
      assert rows == Front(rows) + [Last(rows)];
    }
  }

  /** A moving row with the bytes and the speed of these samples. */
  predicate MovesWith(row: Row, samples: seq<(int, int)>) {
    row.isTransferring && row.bytesDone == BytesOf(samples) && row.speedBps == Rates.Ema(Rates.AcceptedRates(samples))
  }

  /** A send that the poll says is transferring or preparing has a moving row with the speed of its own ticks. */
  lemma PolledTransferMoves(es: seq<Event>, s: Outbound)
    requires forall e :: e in es ==> WellFormed(e)
    requires s in Sending(Exec(INITIAL, es)) && s.state in {"transferring", "preparing"}
    ensures exists row ::
      row in Rows(Exec(INITIAL, es)) && IsRowOf(row, Sent, s.id) && MovesWith(row, OutSamples(es, s.id))
  {
    var rows := Rows(Exec(INITIAL, es));
    ExecKeeps(INITIAL, es);
    SendsAreTheirOwn(es, s.id);
    FindOutIs(Sending(Exec(INITIAL, es)), s);
    SendHasOneRow(es, s.id);
    CountedIsThere(rows, Sent, s.id);
    var row :| row in rows && IsRowOf(row, Sent, s.id);
    SendRowIsItsOwn(es, row);
    SentRowsFollowTheTrace(es, row);
  }

  /** A settled received row shows the durable summary. */
  predicate ShowsDurableReceive(row: Row, s: Inbound) {
    && row.id == s.id && row.packageId == Some(s.packageId) && row.batchUuid == s.batchUuid && row.details == s.details
    && row.state == s.state && row.displayState == s.displayState && row.bytesDone == s.bytesDone
    && row.terminal && !row.resendable && row.stalledUntil.None? && !row.retrying && row.nextRetryAt.None?
  }

  /** Live before durable. */
  ghost predicate ShowsReceiveView(row: Row, w: ReceiveView, es: seq<Event>) {
    if w.polled.Some? then ShowsPolledReceive(row, w.polled.value, InSamples(es, w.polled.value.packageId))
    else w.durable.Some? && ShowsDurableReceive(row, w.durable.value)
  }

  lemma InIdListed(s: seq<Inbound>, id: int)
    ensures id in InIds(s) <==> Latest(s, InIs(id)).Some?
  {
    LatestIsIn(s, InIs(id));
    if id in InIds(s) {
      var i :| 0 <= i < |s| && s[i].id == id;
      assert s[i] in s;
    }
  }

  lemma LiveReceiveShows(es: seq<Event>, q: Queue, row: Row)
    requires q == Exec(INITIAL, es) && Inv(q) && IsLiveInRow(q, row)
    ensures ShowsReceiveView(row, ReceiveViewOf(q, row.id), es)
  {
    var s :| s in Receiving(q) && row == LiveInRow(q, s);
    FindInIs(Receiving(q), s);
    PackagesMatch(es, s.packageId);
    LiveInShows(q, s, InSamples(es, s.packageId), ReceivedFinishes(es, s.packageId));
  }

  lemma DurableReceiveShows(es: seq<Event>, q: Queue, row: Row)
    requires Inv(q) && IsSettledReceivedRow(q, row)
    ensures ShowsReceiveView(row, ReceiveViewOf(q, row.id), es)
  {
    var s :| s in q.dbReceived && s.id !in InIds(Receiving(q)) && row == DurableInRow(q, s);
    FindInIs(q.dbReceived, s);
    InIdListed(Receiving(q), s.id);
  }

  /** After any run the row of a received transfer is the one its own events call for. */
  lemma ReceiveRowIsItsOwn(es: seq<Event>, row: Row)
    requires forall e :: e in es ==> WellFormed(e)
    requires row in Rows(Exec(INITIAL, es)) && row.kind == Received && !row.ghostly
    ensures ShowsReceiveView(row, ReceiveRun(es, row.id), es)
  {
    var q := Exec(INITIAL, es);
    ExecKeeps(INITIAL, es);
    ReceivesAreTheirOwn(es, row.id);
    RowsCoverTheSources(q, row);
    if IsLiveInRow(q, row) {
      LiveReceiveShows(es, q, row);
    } else {
      NotGhostly(q, row);
      DurableReceiveShows(es, q, row);
    }
  }

  lemma NotGhostly(q: Queue, row: Row)
    requires IsReceivedRow(q, row) && !row.ghostly && !IsLiveInRow(q, row)
    ensures IsSettledReceivedRow(q, row)
  {
  }

  lemma ReceiveHasOneRow(es: seq<Event>, id: int)
    requires forall e :: e in es ==> WellFormed(e)
    ensures var w := ReceiveRun(es, id);
      CountRows(Rows(Exec(INITIAL, es)), Received, id) == if w.polled.Some? || w.durable.Some? then 1 else 0
  {
    var q := Exec(INITIAL, es);
    ReceivesAreTheirOwn(es, id);
    OneRowForEachTransfer(es, Received, id);
    InIdListed(Receiving(q), id);
    InIdListed(q.dbReceived, id);
  }

  /** A ghost row stands for an announce that has no id yet: queued, with nothing done and nothing to act on. */
  predicate ShowsGhost(row: Row, g: Queued) {
    && row.kind == Received && row.ghostly && row.packageId.None?
    && row.batchUuid == g.batchUuid && row.details == g.details
    && row.state == row.displayState == "queued" && row.bytesDone == 0
    && !row.terminal && !row.resendable && !row.isTransferring && row.speedBps.None? && row.etaBps.None?
  }

  lemma {:induction false} GhostsFollow(es: seq<Event>)
    ensures Ghosts(Exec(INITIAL, es)) == GhostsNow(es)
  {
    if es != [] {
      GhostsFollow(Front(es));
      ExecSnoc(INITIAL, es);
      OthersKeepReceives(Exec(INITIAL, Front(es)), Last(es));
    }
  }

  /** The ghost rows are those of the announces queued in the latest poll. */
  lemma GhostRowsAreQueued(es: seq<Event>, row: Row, g: Queued)
    ensures row in Rows(Exec(INITIAL, es)) && row.ghostly ==> exists h :: h in GhostsNow(es) && ShowsGhost(row, h)
    ensures g in GhostsNow(es) ==> exists r :: r in Rows(Exec(INITIAL, es)) && ShowsGhost(r, g)
  {
    var q := Exec(INITIAL, es);
    GhostsFollow(es);
    RowsCoverTheSources(q, row);
    if row in Rows(q) && row.ghostly {
      GhostHasAnnounce(q, row);
    }
    if g in Ghosts(q) {
      RowsCoverTheSources(q, GhostRow(g));
      assert ShowsGhost(GhostRow(g), g);
    }
  }

  lemma GhostHasAnnounce(q: Queue, row: Row)
    requires IsReceivedRow(q, row) && row.ghostly
    ensures exists h :: h in Ghosts(q) && ShowsGhost(row, h)
  {
    var h :| h in Ghosts(q) && row == GhostRow(h);
    assert ShowsGhost(row, h);
  }

  // ---------------------------------------------------------------- the order of the rows

  /** Which of the six groups of the list a row belongs to. */
  function Place(q: Queue, row: Row): nat {
    if row.kind == Sent then
      if !row.terminal then 0 else if row.id !in OutIds(q.dbSent) then 1 else 2
    else if row.ghostly then 5
    else if !row.terminal then 3 else 4
  }

  ghost predicate AllAt(q: Queue, rows: seq<Row>, place: nat) {
    forall row :: row in rows ==> Place(q, row) == place
  }

  /** Places only go up along the list, and stay at most `last`. */
  ghost predicate InOrder(q: Queue, rows: seq<Row>, last: nat) {
    && (forall i :: 0 <= i < |rows| ==> Place(q, rows[i]) <= last)
    && (forall i, j :: 0 <= i < j < |rows| ==> Place(q, rows[i]) <= Place(q, rows[j]))
  }

  lemma OrderGrows(q: Queue, front: seq<Row>, more: seq<Row>, last: nat, place: nat)
    requires InOrder(q, front, last) && AllAt(q, more, place) && last <= place
    ensures InOrder(q, front + more, place)
  {
    forall i | |front| <= i < |front + more|
      ensures Place(q, (front + more)[i]) == place
    {
      assert (front + more)[i] in more;
    }
  }

  lemma LedgerPlace(q: Queue, row: Row)
    ensures row in LedgerRows(q, Entries(q)) ==> Place(q, row) == 1
  {
    LedgerCover(q, row);
  }

  lemma SentPlaces(q: Queue)
    ensures AllAt(q, LiveOutRows(q, Sending(q)), 0)
    ensures AllAt(q, LedgerRows(q, Entries(q)), 1)
    ensures AllAt(q, DurableOutRows(q, DurableOut(q)), 2)
  {
    forall row: Row
      ensures row in LiveOutRows(q, Sending(q)) ==> Place(q, row) == 0
      ensures row in LedgerRows(q, Entries(q)) ==> Place(q, row) == 1
      ensures row in DurableOutRows(q, DurableOut(q)) ==> Place(q, row) == 2
    {
      LiveOutCover(q, row);
      LedgerPlace(q, row);
      DurableOutCover(q, row);
    }
  }

  lemma ReceivedPlaces(q: Queue)
    ensures AllAt(q, LiveInRows(q, Receiving(q)), 3)
    ensures AllAt(q, DurableInRows(q, DurableIn(q)), 4)
    ensures AllAt(q, GhostRows(Ghosts(q)), 5)
  {
    forall row: Row
      ensures row in LiveInRows(q, Receiving(q)) ==> Place(q, row) == 3
      ensures row in DurableInRows(q, DurableIn(q)) ==> Place(q, row) == 4
      ensures row in GhostRows(Ghosts(q)) ==> Place(q, row) == 5
    {
      InTransform(Receiving(q), (x: Inbound) => LiveInRow(q, x), row);
      InTransform(DurableIn(q), (x: Inbound) => DurableInRow(q, x), row);
      InTransform(Ghosts(q), (x: Queued) => GhostRow(x), row);
    }
  }

  lemma SixGroups(q: Queue, a: seq<Row>, b: seq<Row>, c: seq<Row>, d: seq<Row>, e: seq<Row>, f: seq<Row>)
    requires AllAt(q, a, 0) && AllAt(q, b, 1) && AllAt(q, c, 2) && AllAt(q, d, 3) && AllAt(q, e, 4) && AllAt(q, f, 5)
    ensures InOrder(q, a + b + c + d + e + f, 5)
  {
    OrderGrows(q, [], a, 0, 0);
    assert [] + a == a;
    OrderGrows(q, a, b, 0, 1);
    OrderGrows(q, a + b, c, 1, 2);
    OrderGrows(q, a + b + c, d, 2, 3);
    OrderGrows(q, a + b + c + d, e, 3, 4);
    OrderGrows(q, a + b + c + d + e, f, 4, 5);
  }

  lemma Regrouped(a: seq<Row>, b: seq<Row>, c: seq<Row>, d: seq<Row>, e: seq<Row>, f: seq<Row>)
    ensures (a + b + c) + (d + e) + f == a + b + c + d + e + f
  {
    assert (a + b + c) + (d + e) == a + b + c + d + e;
  }

  /** The list runs through polled sends, ledger sends, durable sends, polled receives, durable receives and ghosts, in this order. */
  lemma RowsAreGrouped(q: Queue)
    ensures InOrder(q, Rows(q), 5)
  {
    SentPlaces(q);
    ReceivedPlaces(q);
    SixGroups(q, LiveOutRows(q, Sending(q)), LedgerRows(q, Entries(q)), DurableOutRows(q, DurableOut(q)),
              LiveInRows(q, Receiving(q)), DurableInRows(q, DurableIn(q)), GhostRows(Ghosts(q)));
    Regrouped(LiveOutRows(q, Sending(q)), LedgerRows(q, Entries(q)), DurableOutRows(q, DurableOut(q)),
              LiveInRows(q, Receiving(q)), DurableInRows(q, DurableIn(q)), GhostRows(Ghosts(q)));
  }
}
