/**
  The dedupe set of `NotificationContext`: an insertion-ordered set used as a capped
  most-recently-fired cache, persisted with the history and reloaded at start.

  A step here is a settled one: the callback together with the persist effect its state change triggers.
 */
module Notifications {
  import opened Common
  import opened Lists

  datatype Note = Note(id: string, title: string, unread: bool)

  /** `freshId` is the random id the code would make for this input. */
  datatype Input = Input(title: string, dedupeKey: Option<string>, freshId: string)

  /** Array elements of a stored value, before they are checked. */
  datatype StoredNote = GoodNote(note: Note) | BadNote
  datatype StoredKey = Text(key: string) | NotText

  /** What `localStorage` may hold under the storage key. */
  datatype Stored =
    | Missing
    | Unreadable
    | Shape(v: int, notes: Option<seq<StoredNote>>, seen: Option<seq<StoredKey>>)

  datatype Store = Store(seen: seq<string>, notes: seq<Note>, stored: Stored)

  datatype Event =
    | Notify(input: Input)
    | Clear
    | MarkAllRead
    | Dismiss(id: string)
    | Reload

  const MAX_HISTORY := 100
  const SEEN_CAP := 200

  // ---------------------------------------------------------------- sequences as ordered sets

  /** `Set.prototype.delete` on the iteration order. */
  function Without(s: seq<string>, k: string): seq<string> {
    Keep(s, Except(k))
  }

  function Except(k: string): string -> bool {
    (x: string) => x != k
  }

  /** `new Set(array)`: the first of equal elements keeps its place. */
  function Distinct(s: seq<string>): seq<string> {
    if s == [] then []
    else
      var front := Distinct(Front(s));
      front + if Last(s) in front then [] else [Last(s)]
  }

  /** The part of `s` after the last occurrence of `k`. */
  function AfterLast(s: seq<string>, k: string): seq<string> {
    if s == [] || Last(s) == k then [] else AfterLast(Front(s), k) + [Last(s)]
  }

  // ---------------------------------------------------------------- load, save, push

  function GoodNotes(items: seq<StoredNote>): seq<Note> {
    if items == [] then []
    else GoodNotes(Front(items)) + if Last(items).GoodNote? then [Last(items).note] else []
  }

  function Texts(items: seq<StoredKey>): seq<string> {
    if items == [] then []
    else Texts(Front(items)) + if Last(items).Text? then [Last(items).key] else []
  }

  function LoadPersisted(stored: Stored): (seq<Note>, seq<string>) {
    if !stored.Shape? || stored.v != 1 then ([], [])
    else
      (if stored.notes.Some? then FirstN(GoodNotes(stored.notes.value), MAX_HISTORY) else [],
       if stored.seen.Some? then LastN(Texts(stored.seen.value), SEEN_CAP) else [])
  }

  function AsNotes(ns: seq<Note>): seq<StoredNote> {
    seq(|ns|, i requires 0 <= i < |ns| => GoodNote(ns[i]))
  }

  function AsTexts(ks: seq<string>): seq<StoredKey> {
    seq(|ks|, i requires 0 <= i < |ks| => Text(ks[i]))
  }

  function SavePersisted(notes: seq<Note>, seen: seq<string>): Stored {
    var ns := FirstN(notes, MAX_HISTORY);
    var ks := LastN(seen, SEEN_CAP);
    Shape(1, Some(AsNotes(ns)), Some(AsTexts(ks)))
  }

  /** Mounting the provider over what is stored, its persist effect included. */
  function Boot(stored: Stored): Store {
    var (notes, keys) := LoadPersisted(stored);
    Store(Distinct(keys), notes, SavePersisted(notes, Distinct(keys)))
  }

  function Persisted(s: Store): Store {
    s.(stored := SavePersisted(s.notes, s.seen))
  }

  /** An empty key is falsy and does not take part. */
  predicate Keyed(input: Input) {
    input.dedupeKey.Some? && input.dedupeKey.value != ""
  }

  predicate Suppresses(s: Store, input: Input) {
    Keyed(input) && input.dedupeKey.value in s.seen
  }

  function Push(s: Store, input: Input): Store {
    if Suppresses(s, input) then
      s.(seen := Without(s.seen, input.dedupeKey.value) + [input.dedupeKey.value])
    else
      var note := Note(if input.dedupeKey.Some? then input.dedupeKey.value else input.freshId, input.title, true);
      s.(seen := if Keyed(input) then LastN(s.seen + [input.dedupeKey.value], SEEN_CAP) else s.seen,
         notes := FirstN([note] + s.notes, MAX_HISTORY))
  }

  function Read(notes: seq<Note>): seq<Note> {
    seq(|notes|, i requires 0 <= i < |notes| => notes[i].(unread := false))
  }

  function Dropped(notes: seq<Note>, id: string): seq<Note> {
    Keep(notes, (n: Note) => n.id != id)
  }

  function Step(s: Store, e: Event): Store {
    match e
    case Notify(input) => Persisted(Push(s, input))
    case Clear => Persisted(s.(seen := [], notes := []))
    case MarkAllRead => Persisted(s.(notes := Read(s.notes)))
    case Dismiss(id) => Persisted(s.(notes := Dropped(s.notes, id)))
    case Reload => Boot(s.stored)
  }

  function Exec(s: Store, es: seq<Event>): Store {
    if es == [] then s else Step(Exec(s, Front(es)), Last(es))
  }

  // ---------------------------------------------------------------- what fired, and how recently

  /** The keys fired, accepted or suppressed, since the last clear; `earlier` fired before the run. */
  function FiredSinceClear(earlier: seq<string>, es: seq<Event>): seq<string> {
    if es == [] then earlier
    else
      match Last(es)
      case Notify(input) => FiredSinceClear(earlier, Front(es)) + if Keyed(input) then [input.dedupeKey.value] else []
      case Clear => []
      case _ => FiredSinceClear(earlier, Front(es))
  }

  /** What is loaded at start counts as fired in the order it is stored. */
  function FiredEarlier(stored: Stored): seq<string> {
    Boot(stored).seen
  }

  function Elements(s: seq<string>): set<string> {
    set x | x in s
  }

  /** Fired, and fewer than `SEEN_CAP` distinct other keys fired after its last firing. */
  predicate FiredRecently(fired: seq<string>, k: string) {
    k in fired && |Elements(AfterLast(fired, k))| < 200
  }

  /** The distinct keys of `fired`, ordered by their last firing. */
  function Recency(fired: seq<string>): seq<string> {
    if fired == [] then [] else Without(Recency(Front(fired)), Last(fired)) + [Last(fired)]
  }

  lemma ElementsSnoc(s: seq<string>, x: string)
    ensures Elements(s + [x]) == Elements(s) + {x}
    ensures Front(s + [x]) == s
  {
    assert forall y :: y in s + [x] <==> y in s || y == x;
  }

  lemma Snoc(s: seq<string>)
    requires s != []
    ensures s == Front(s) + [Last(s)]
    ensures Elements(s) == Elements(Front(s)) + {Last(s)}
  {
    ElementsSnoc(Front(s), Last(s));
    assert s == Front(s) + [Last(s)];
  }

  lemma {:induction false} WithoutElements(s: seq<string>, k: string)
    ensures Elements(Without(s, k)) == Elements(s) - {k}
    ensures |Without(s, k)| <= |s|
    ensures k !in s ==> Without(s, k) == s
  {
    if s != [] {
      Snoc(s);
      WithoutElements(Front(s), k);
      ElementsSnoc(Without(Front(s), k), Last(s));
    }
  }

  lemma NotInWithout(s: seq<string>, k: string, x: string)
    ensures x in Without(s, k) <==> x in s && x != k
  {
    WithoutElements(s, k);
    assert x in Without(s, k) <==> x in Elements(Without(s, k));
  }

  lemma NoRepeatSnoc(s: seq<string>, k: string)
    requires NoRepeat(s) && k !in s
    ensures NoRepeat(s + [k])
  {
    assert Front(s + [k]) == s;
  }

  lemma {:induction false} WithoutNoRepeat(s: seq<string>, k: string)
    requires NoRepeat(s)
    ensures NoRepeat(Without(s, k))
  {
    if s != [] {
      WithoutNoRepeat(Front(s), k);
      if Last(s) != k {
        NotInWithout(Front(s), k, Last(s));
        NoRepeatSnoc(Without(Front(s), k), Last(s));
      } else {
        assert Without(s, k) == Without(Front(s), k);
      }
    }
  }

  lemma {:induction false} RecencyFacts(fired: seq<string>)
    ensures NoRepeat(Recency(fired))
    ensures Elements(Recency(fired)) == Elements(fired)
  {
    if fired != [] {
      var r := Recency(Front(fired));
      var k := Last(fired);
      RecencyFacts(Front(fired));
      WithoutNoRepeat(r, k);
      WithoutElements(r, k);
      NotInWithout(r, k, k);
      NoRepeatSnoc(Without(r, k), k);
      ElementsSnoc(Without(r, k), k);
      Snoc(fired);
    }
  }

  lemma WithoutSnoc(s: seq<string>, x: string, k: string)
    ensures Without(s + [x], k) == Without(s, k) + if x == k then [] else [x]
  {
    assert Front(s + [x]) == s;
  }

  lemma AfterLastSnoc(s: seq<string>, x: string, k: string)
    requires x != k
    ensures AfterLast(s + [x], k) == AfterLast(s, k) + [x]
  {
    assert Front(s + [x]) == s;
  }

  lemma {:induction false} AfterLastWithout(s: seq<string>, x: string, k: string)
    requires x != k
    ensures AfterLast(Without(s, x), k) == Without(AfterLast(s, k), x)
  {
    if s != [] {
      var front, last := Front(s), Last(s);
      assert s == front + [last];
      AfterLastWithout(front, x, k);
      WithoutSnoc(front, last, x);
      if last == k {
        AfterLastAtEnd(Without(front, x), k);
      } else {
        AfterLastSnoc(front, last, k);
        WithoutSnoc(AfterLast(front, k), last, x);
        if last == x {
          assert Without(s, x) == Without(front, x);
          assert Without(AfterLast(s, k), x) == Without(AfterLast(front, k), x);
        } else {
          AfterLastSnoc(Without(front, x), last, k);
        }
      }
    }
  }

  lemma AfterLastAtEnd(s: seq<string>, k: string)
    ensures AfterLast(s + [k], k) == []
  {
  }

  lemma RecencyAfterStep(r: seq<string>, front: seq<string>, x: string, k: string)
    requires x != k && Elements(AfterLast(r, k)) == Elements(AfterLast(front, k))
    ensures Elements(AfterLast(Without(r, x) + [x], k)) == Elements(AfterLast(front + [x], k))
  {
    var after := AfterLast(r, k);
    AfterLastSnoc(Without(r, x), x, k);
    AfterLastSnoc(front, x, k);
    AfterLastWithout(r, x, k);
    WithoutElements(after, x);
    ElementsSnoc(Without(after, x), x);
    ElementsSnoc(AfterLast(front, k), x);
  }

  /** The keys fired after the last firing of `k` are the ones more recent than `k`. */
  lemma {:induction false} RecencyAfter(fired: seq<string>, k: string)
    ensures Elements(AfterLast(Recency(fired), k)) == Elements(AfterLast(fired, k))
  {
    if fired != [] && Last(fired) != k {
      RecencyAfter(Front(fired), k);
      RecencyAfterStep(Recency(Front(fired)), Front(fired), Last(fired), k);
      Snoc(fired);
    }
  }

  lemma {:induction false} AfterLastNoRepeat(s: seq<string>, k: string)
    requires NoRepeat(s)
    ensures NoRepeat(AfterLast(s, k)) && forall x :: x in AfterLast(s, k) ==> x in s
  {
    if s != [] && Last(s) != k {
      AfterLastNoRepeat(Front(s), k);
      NoRepeatSnoc(AfterLast(Front(s), k), Last(s));
    }
  }

  lemma {:induction false} NoRepeatCount(s: seq<string>)
    requires NoRepeat(s)
    ensures |Elements(s)| == |s|
  {
    if s != [] {
      NoRepeatCount(Front(s));
      Snoc(s);
    }
  }

  /** An element is among the last `n` exactly when fewer than `n` follow it. */
  lemma {:induction false} InLastN(s: seq<string>, n: nat, k: string)
    ensures k in LastN(s, n) <==> k in s && |AfterLast(s, k)| < n
  {
    if s != [] && n > 0 {
      InLastN(Front(s), n - 1, k);
      assert LastN(s, n) == LastN(Front(s), n - 1) + [Last(s)];
      assert s == Front(s) + [Last(s)];
    }
  }

  // ---------------------------------------------------------------- the cache holds the most recent keys

  lemma InLastNMonotone(s: seq<string>, m: nat, n: nat, k: string)
    requires n <= m
    ensures k in LastN(s, n) ==> k in LastN(s, m)
  {
    LastNTwice(s, m, n);
  }

  lemma WithoutAbsent(s: seq<string>, k: string)
    requires k !in s
    ensures Without(s, k) == s
  {
    WithoutElements(s, k);
  }

  /** The last `n` again, one element at a time. */
  function Newest(s: seq<string>, n: nat): seq<string> {
    if n == 0 || s == [] then [] else Newest(Front(s), n - 1) + [Last(s)]
  }

  lemma {:induction false} NewestIsLastN(s: seq<string>, n: nat)
    ensures Newest(s, n) == LastN(s, n)
  {
    if n > 0 && s != [] {
      var front, last := Front(s), Last(s);
      assert s == front + [last];
      NewestIsLastN(front, n - 1);
      LastNSnoc(front, last, n);
    }
  }

  lemma NewestSnoc(s: seq<string>, x: string, n: nat)
    requires n > 0
    ensures Newest(s + [x], n) == Newest(s, n - 1) + [x]
  {
    assert Front(s + [x]) == s;
  }

  lemma {:induction false} InNewest(s: seq<string>, n: nat, x: string)
    ensures x in Newest(s, n) ==> x in s
  {
    if n > 0 && s != [] {
      InNewest(Front(s), n - 1, x);
      Snoc(s);
    }
  }

  lemma {:induction false} WithoutNewest(s: seq<string>, n: nat, k: string)
    requires NoRepeat(s) && k in Newest(s, n)
    ensures n > 0 && Without(Newest(s, n), k) == Newest(Without(s, k), n - 1)
  {
    var front, last := Front(s), Last(s);
    WithoutSnoc(Newest(front, n - 1), last, k);
    if last == k {
      InNewest(front, n - 1, k);
      WithoutAbsent(Newest(front, n - 1), k);
      WithoutAbsent(front, k);
      assert Without(s, k) == front;
    } else {
      WithoutNewest(front, n - 1, k);
      NewestSnoc(Without(front, k), last, n - 1);
    }
  }

  /** Taking an element out of the last `n` leaves the last `n - 1` of what remains. */
  lemma WithoutLastN(s: seq<string>, n: nat, k: string)
    requires NoRepeat(s) && k in LastN(s, n)
    ensures n > 0 && Without(LastN(s, n), k) == LastN(Without(s, k), n - 1)
  {
    NewestIsLastN(s, n);
    WithoutNewest(s, n, k);
    NewestIsLastN(Without(s, k), n - 1);
  }

  lemma {:induction false} EvictedLeavesNoTrace(s: seq<string>, n: nat, k: string)
    requires k !in LastN(s, n)
    ensures LastN(Without(s, k), n) == LastN(s, n)
  {
    if s != [] && n > 0 {
      Snoc(s);
      LastNSnoc(Front(s), Last(s), n);
      EvictedLeavesNoTrace(Front(s), n - 1, k);
      LastNSnoc(Without(Front(s), k), Last(s), n);
    } else {
      WithoutElements(s, k);
    }
  }

  /** Firing a key keeps a cache of capacity `n` equal to the `n` most recent keys. */
  lemma FireKeepsCache(seen: seq<string>, fired: seq<string>, k: string, n: nat)
    requires seen == LastN(Recency(fired), n) && n > 0
    ensures (if k in seen then Without(seen, k) + [k] else LastN(seen + [k], n))
         == LastN(Recency(fired + [k]), n)
  {
    var r := Recency(fired);
    RecencyFacts(fired);
    assert Front(fired + [k]) == fired;
    LastNSnoc(Without(r, k), k, n);
    if k in seen {
      WithoutLastN(r, n, k);
    } else {
      LastNTwice(r, n, n - 1);
      LastNSnoc(seen, k, n);
      InLastNMonotone(r, n, n - 1, k);
      EvictedLeavesNoTrace(r, n - 1, k);
    }
  }

  // ---------------------------------------------------------------- reload

  lemma {:induction false} DistinctOfNoRepeat(s: seq<string>)
    requires NoRepeat(s)
    ensures Distinct(s) == s
  {
    if s != [] {
      DistinctOfNoRepeat(Front(s));
      Snoc(s);
    }
  }

  lemma {:induction false} TextsBack(ks: seq<string>)
    ensures Texts(AsTexts(ks)) == ks
  {
    if ks != [] {
      TextsBack(Front(ks));
      assert Front(AsTexts(ks)) == AsTexts(Front(ks));
      assert ks == Front(ks) + [Last(ks)];
    }
  }

  lemma {:induction false} NotesBack(ns: seq<Note>)
    ensures GoodNotes(AsNotes(ns)) == ns
  {
    if ns != [] {
      NotesBack(Front(ns));
      assert Front(AsNotes(ns)) == AsNotes(Front(ns));
      assert ns == Front(ns) + [Last(ns)];
    }
  }

  ghost predicate Settled(s: Store) {
    && NoRepeat(s.seen) && |s.seen| <= SEEN_CAP && |s.notes| <= MAX_HISTORY
    && s.stored == SavePersisted(s.notes, s.seen)
  }

  /** A reload of a settled store brings back the same store. */
  lemma ReloadIsInvisible(s: Store)
    requires Settled(s)
    ensures Boot(s.stored) == s
  {
    TextsBack(s.seen);
    NotesBack(s.notes);
    DistinctOfNoRepeat(s.seen);
  }

  lemma {:induction false} DistinctFacts(s: seq<string>)
    ensures NoRepeat(Distinct(s)) && |Distinct(s)| <= |s|
  {
    if s != [] {
      var front := Distinct(Front(s));
      DistinctFacts(Front(s));
      if Last(s) in front {
        assert Distinct(s) == front;
      } else {
        NoRepeatSnoc(front, Last(s));
      }
    }
  }

  /** Whatever `localStorage` holds, the provider starts sound and never fails. */
  lemma AnyStorageBootsSound(stored: Stored)
    ensures Settled(Boot(stored))
  {
    DistinctFacts(LoadPersisted(stored).1);
  }

  // ---------------------------------------------------------------- the exact characterisation

  lemma {:induction false} LastNoRepeat(s: seq<string>, n: nat)
    requires NoRepeat(s)
    ensures NoRepeat(LastN(s, n)) && |LastN(s, n)| <= n
    ensures forall x :: x in LastN(s, n) ==> x in s
  {
    if s != [] && n > 0 {
      LastNoRepeat(Front(s), n - 1);
      Snoc(s);
      LastNSnoc(Front(s), Last(s), n);
      NoRepeatSnoc(LastN(Front(s), n - 1), Last(s));
    }
  }

  lemma PushSettles(s: Store, fired: seq<string>, input: Input)
    requires Settled(s) && s.seen == LastN(Recency(fired), SEEN_CAP)
    ensures var s' := Persisted(Push(s, input));
      && Settled(s')
      && s'.seen == LastN(Recency(fired + if Keyed(input) then [input.dedupeKey.value] else []), SEEN_CAP)
  {
    if Keyed(input) {
      var k := input.dedupeKey.value;
      FireKeepsCache(s.seen, fired, k, SEEN_CAP);
      RecencyFacts(fired + [k]);
      LastNoRepeat(Recency(fired + [k]), SEEN_CAP);
    } else {
      assert fired + [] == fired;
    }
  }

  lemma {:induction false} RecencyOfNoRepeat(s: seq<string>)
    requires NoRepeat(s)
    ensures Recency(s) == s
  {
    if s != [] {
      RecencyOfNoRepeat(Front(s));
      WithoutElements(Front(s), Last(s));
      Snoc(s);
    }
  }

  /** Whatever was stored at the start, the cache is the last 200 distinct keys by last firing. */
  lemma {:induction false} CacheIsMostRecent(stored: Stored, es: seq<Event>)
    ensures var s := Exec(Boot(stored), es);
      Settled(s) && s.seen == LastN(Recency(FiredSinceClear(FiredEarlier(stored), es)), SEEN_CAP)
  {
    if es == [] {
      AnyStorageBootsSound(stored);
      RecencyOfNoRepeat(FiredEarlier(stored));
    } else {
      CacheIsMostRecent(stored, Front(es));
      var s := Exec(Boot(stored), Front(es));
      match Last(es) {
        case Notify(input) => PushSettles(s, FiredSinceClear(FiredEarlier(stored), Front(es)), input);
        case Clear =>
        case MarkAllRead =>
        case Dismiss(id) => KeepIsShorter(s.notes, (n: Note) => n.id != id);
        case Reload => ReloadIsInvisible(s);
      }
    }
  }

  /** From any storage, after any run of notifies, clears, edits of the list and reloads, a key is suppressed exactly when it fired recently. */
  lemma SuppressedExactlyWhenRecent(stored: Stored, es: seq<Event>, input: Input)
    requires Keyed(input)
    ensures Suppresses(Exec(Boot(stored), es), input)
       <==> FiredRecently(FiredSinceClear(FiredEarlier(stored), es), input.dedupeKey.value)
  {
    var k := input.dedupeKey.value;
    var fired := FiredSinceClear(FiredEarlier(stored), es);
    var r := Recency(fired);
    CacheIsMostRecent(stored, es);
    InLastN(r, SEEN_CAP, k);
    RecencyFacts(fired);
    assert k in r <==> k in Elements(r);
    assert k in fired <==> k in Elements(fired);
    RecencyAfter(fired, k);
    AfterLastNoRepeat(r, k);
    NoRepeatCount(AfterLast(r, k));
  }

  lemma ExecOneMore(s: Store, es: seq<Event>, e: Event)
    ensures Exec(s, es + [e]) == Step(Exec(s, es), e)
  {
    assert Front(es + [e]) == es;
  }

  /** An input without a usable key is always accepted and never disturbs the cache. */
  lemma UnkeyedNeverTouchesCache(stored: Stored, es: seq<Event>, input: Input)
    requires input.dedupeKey.None? || input.dedupeKey.value == ""
    ensures Exec(Boot(stored), es + [Notify(input)]).seen == Exec(Boot(stored), es).seen
    ensures Exec(Boot(stored), es + [Notify(input)]).notes[0].title == input.title
  {
    ExecOneMore(Boot(stored), es, Notify(input));
  }

  // ---------------------------------------------------------------- the history

  /** Whether an input is new: without a usable key, or with one that did not fire recently. */
  predicate IsNews(stored: Stored, es: seq<Event>, input: Input) {
    input.dedupeKey.None? || input.dedupeKey.value == ""
    || !FiredRecently(FiredSinceClear(FiredEarlier(stored), es), input.dedupeKey.value)
  }

  /** One unread note for the input heads the list, over the newest 99 it had. */
  predicate HeadedBy(after: seq<Note>, input: Input, before: seq<Note>) {
    && after != []
    && after[0].title == input.title && after[0].unread
    && after[0].id == (if input.dedupeKey.Some? then input.dedupeKey.value else input.freshId)
    && after[1..] == FirstN(before, 99)
  }

  lemma PushHeads(s: Store, input: Input)
    ensures Suppresses(s, input) ==> Push(s, input).notes == s.notes
    ensures !Suppresses(s, input) ==> HeadedBy(Push(s, input).notes, input, s.notes)
  {
  }

  /** From any storage, after any run, a notify that is news heads the history with one unread note; any other leaves the history as it was. */
  lemma NewsHeadsTheHistory(stored: Stored, es: seq<Event>, input: Input)
    ensures var before, after := Exec(Boot(stored), es).notes, Exec(Boot(stored), es + [Notify(input)]).notes;
      if IsNews(stored, es, input) then HeadedBy(after, input, before) else after == before
  {
    var s := Exec(Boot(stored), es);
    ExecOneMore(Boot(stored), es, Notify(input));
    PushHeads(s, input);
    if Keyed(input) {
      SuppressedExactlyWhenRecent(stored, es, input);
    }
  }

  /** Marking all as read, or dismissing one, changes just that, and neither touches what will be suppressed. */
  lemma ListEditsAreExact(stored: Stored, es: seq<Event>, id: string)
    ensures var before := Exec(Boot(stored), es);
      var read, left := Exec(Boot(stored), es + [MarkAllRead]), Exec(Boot(stored), es + [Dismiss(id)]);
      && read.seen == left.seen == before.seen
      && |read.notes| == |before.notes|
      && (forall i :: 0 <= i < |before.notes| ==> read.notes[i] == before.notes[i].(unread := false))
      && (forall n :: n in left.notes <==> n in before.notes && n.id != id)
      && (id !in IdsOf(before.notes) ==> left.notes == before.notes)
  {
    var notes := Exec(Boot(stored), es).notes;
    ExecOneMore(Boot(stored), es, MarkAllRead);
    ExecOneMore(Boot(stored), es, Dismiss(id));
    KeepElements(notes, (n: Note) => n.id != id);
    if id !in IdsOf(notes) {
      NothingDropped(notes, id);
    }
  }

  function IdsOf(notes: seq<Note>): set<string> {
    set n | n in notes :: n.id
  }

  lemma {:induction false} NothingDropped(notes: seq<Note>, id: string)
    requires id !in IdsOf(notes)
    ensures Dropped(notes, id) == notes
  {
    if notes != [] {
      assert notes == Front(notes) + [Last(notes)];
      assert Last(notes).id in IdsOf(notes);
      NothingDropped(Front(notes), id);
    }
  }

  /** After a clear nothing is listed, and the next input is news whatever its key. */
  lemma ClearForgets(stored: Stored, es: seq<Event>, input: Input)
    ensures Exec(Boot(stored), es + [Clear]).notes == []
    ensures HeadedBy(Exec(Boot(stored), es + [Clear] + [Notify(input)]).notes, input, [])
  {
    ExecOneMore(Boot(stored), es, Clear);
    assert Front(es + [Clear]) == es;
    NewsHeadsTheHistory(stored, es + [Clear], input);
  }

  // ---------------------------------------------------------------- what is loaded

  lemma {:induction false} GoodNotesAre(items: seq<StoredNote>)
    ensures forall n :: n in GoodNotes(items) <==> GoodNote(n) in items
    ensures |GoodNotes(items)| <= |items|
  {
    if items != [] {
      GoodNotesAre(Front(items));
      assert items == Front(items) + [Last(items)];
    }
  }

  lemma {:induction false} TextsAre(items: seq<StoredKey>)
    ensures forall k :: k in Texts(items) <==> Text(k) in items
    ensures |Texts(items)| <= |items|
  {
    if items != [] {
      TextsAre(Front(items));
      assert items == Front(items) + [Last(items)];
    }
  }

  lemma {:induction false} DistinctElements(s: seq<string>)
    ensures forall x :: x in Distinct(s) <==> x in s
  {
    if s != [] {
      DistinctElements(Front(s));
      assert s == Front(s) + [Last(s)];
    }
  }

  /** Only a readable value of version 1 is loaded, and of it everything well formed, up to 100 notes and 200 keys. */
  lemma LoadsWhatIsWellFormed(stored: Stored)
    ensures var s := Boot(stored);
      if !stored.Shape? || stored.v != 1 then s.notes == [] && s.seen == []
      else
        && (stored.notes.None? ==> s.notes == [])
        && (stored.notes.Some? ==> forall n :: n in s.notes ==> GoodNote(n) in stored.notes.value)
        && (stored.notes.Some? && |stored.notes.value| <= 100 ==> forall n :: GoodNote(n) in stored.notes.value ==> n in s.notes)
        && (stored.seen.None? ==> s.seen == [])
        && (stored.seen.Some? ==> forall k :: k in s.seen ==> Text(k) in stored.seen.value)
        && (stored.seen.Some? && |stored.seen.value| <= 200 ==> forall k :: Text(k) in stored.seen.value ==> k in s.seen)
  {
    if stored.Shape? && stored.v == 1 {
      if stored.notes.Some? {
        GoodNotesAre(stored.notes.value);
      }
      if stored.seen.Some? {
        TextsAre(stored.seen.value);
        DistinctElements(LastN(Texts(stored.seen.value), SEEN_CAP));
      }
    }
  }

  // ---------------------------------------------------------------- the provider itself

  /** The provider's refs and state; `persist` is its effect on a changed history. */
  class NotificationProvider {
    var seenRef: seq<string>
    var notifications: seq<Note>
    var localStorage: Stored

    function Snapshot(): Store
      reads this
    {
      Store(seenRef, notifications, localStorage)
    }

    constructor (stored: Stored)
      ensures Snapshot() == Boot(stored)
    {
      var (notes, keys) := LoadPersisted(stored);
      seenRef, notifications, localStorage := Distinct(keys), notes, SavePersisted(notes, Distinct(keys));
    }

    method Persist()
      modifies this`localStorage
      ensures Snapshot() == Persisted(old(Snapshot()))
    {
      localStorage := SavePersisted(notifications, seenRef);
    }

    method PushNotification(input: Input)
      modifies this
      ensures Snapshot() == Step(old(Snapshot()), Notify(input))
    {
      if input.dedupeKey.Some? && input.dedupeKey.value != "" {
        var key := input.dedupeKey.value;
        if key in seenRef {
          seenRef := Without(seenRef, key);
          seenRef := seenRef + [key];
          Persist();
          return;
        }
        seenRef := seenRef + [key];
        if |seenRef| > SEEN_CAP {
          seenRef := seenRef[|seenRef| - SEEN_CAP..];
        }
      }
      var id := if input.dedupeKey.Some? then input.dedupeKey.value else input.freshId;
      notifications := FirstN([Note(id, input.title, true)] + notifications, MAX_HISTORY);
      Persist();
    }

    method ClearNotifications()
      modifies this
      ensures Snapshot() == Step(old(Snapshot()), Clear)
    {
      seenRef := [];
      notifications := [];
      Persist();
    }

    /** The page is loaded again: everything but the storage is lost. */
    method ReloadPage()
      modifies this
      ensures Snapshot() == Step(old(Snapshot()), Reload)
    {
      var (notes, keys) := LoadPersisted(localStorage);
      seenRef := Distinct(keys);
      notifications := notes;
      Persist();
    }
  }
}
