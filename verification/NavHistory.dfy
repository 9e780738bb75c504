/**
  Back and forward inside one session: `NavHistoryProvider` tracks the location keys it has
  rendered and must stay in step with the browser's own history stack, which it cannot see.

  The browser is a stack of keys and a cursor. A push drops what lies ahead and a replace swaps the
  key in place, both under a key no entry ever had; a pop moves the cursor. Each navigation is
  followed by one render or more before the next one.
 */
module NavHistory {
  type Key = nat

  datatype Browser = Browser(stack: seq<Key>, cursor: nat)
  datatype Tracked = Tracked(keys: seq<Key>, index: nat)
  datatype Kind = PushKind | ReplaceKind | PopKind

  /** `nextKey` is above every key handed out, `seen` holds those rendered since the page loaded. */
  datatype Session = Session(browser: Browser, tracked: Tracked, nextKey: Key, seen: set<Key>)

  /** `BackOr` pushes its fallback where there is no way back. */
  datatype Event = Push | Replace | Go(delta: int) | Back | Forward | BackOr | RenderAgain(kind: Kind)

  // ---------------------------------------------------------------- the browser

  predicate BrowserValid(b: Browser, nextKey: Key) {
    && b.cursor < |b.stack|
    && (forall i :: 0 <= i < |b.stack| ==> b.stack[i] < nextKey)
    && (forall i, j :: 0 <= i < j < |b.stack| ==> b.stack[i] != b.stack[j])
  }

  function Shown(b: Browser): Key
    requires b.cursor < |b.stack|
  {
    b.stack[b.cursor]
  }

  function BrowserPush(b: Browser, key: Key): Browser
    requires b.cursor < |b.stack|
  {
    Browser(b.stack[..b.cursor + 1] + [key], b.cursor + 1)
  }

  function BrowserReplace(b: Browser, key: Key): Browser
    requires b.cursor < |b.stack|
  {
    b.(stack := b.stack[b.cursor := key])
  }

  /** Leaving either end of the stack is refused by the browser. */
  function BrowserGo(b: Browser, delta: int): Browser {
    if 0 <= b.cursor + delta < |b.stack| then b.(cursor := b.cursor + delta) else b
  }

  // ---------------------------------------------------------------- the provider

  /** `keys.indexOf(key)`. */
  function IndexOf(keys: seq<Key>, key: Key): (r: int)
    ensures r == -1 <==> key !in keys
    ensures r != -1 ==> 0 <= r < |keys| && keys[r] == key && (forall i :: 0 <= i < r ==> keys[i] != key)
  {
    if keys == [] then -1
    else if keys[0] == key then 0
    else
      var rest := IndexOf(keys[1..], key);
      if rest == -1 then -1 else rest + 1
  }

  /** The reconciliation that runs in every render. */
  function Reconcile(t: Tracked, key: Key, kind: Kind): (r: Tracked)
    requires t.index < |t.keys|
    ensures r.index < |r.keys| && r.keys[r.index] == key
  {
    if t.keys[t.index] == key then t
    else
      match kind
      case PopKind =>
        var found := IndexOf(t.keys, key);
        if found >= 0 then t.(index := found) else Tracked([key], 0)
      case ReplaceKind => t.(keys := t.keys[t.index := key])
      case PushKind => Tracked(t.keys[..t.index + 1] + [key], t.index + 1)
  }

  predicate CanBack(t: Tracked) { t.index > 0 }
  predicate CanForward(t: Tracked) { t.index + 1 < |t.keys| }

  function Mounted(browser: Browser, nextKey: Key): Session
    requires browser.cursor < |browser.stack|
  {
    Session(browser, Tracked([Shown(browser)], 0), nextKey, {Shown(browser)})
  }

  /** Index and cursor point into their lists; this alone the code takes for granted. */
  predicate Formed(s: Session) {
    s.tracked.index < |s.tracked.keys| && s.browser.cursor < |s.browser.stack|
  }

  function Render(s: Session, kind: Kind): (r: Session)
    requires Formed(s)
    ensures Formed(r)
  {
    s.(tracked := Reconcile(s.tracked, Shown(s.browser), kind), seen := s.seen + {Shown(s.browser)})
  }

  function PushStep(s: Session): (r: Session)
    requires Formed(s)
    ensures Formed(r)
  {
    Render(s.(browser := BrowserPush(s.browser, s.nextKey), nextKey := s.nextKey + 1), PushKind)
  }

  function GoStep(s: Session, delta: int): (r: Session)
    requires Formed(s)
    ensures Formed(r)
  {
    Render(s.(browser := BrowserGo(s.browser, delta)), PopKind)
  }

  function Step(s: Session, e: Event): (r: Session)
    requires Formed(s)
    ensures Formed(r)
  {
    match e
    case Push => PushStep(s)
    case Replace => Render(s.(browser := BrowserReplace(s.browser, s.nextKey), nextKey := s.nextKey + 1), ReplaceKind)
    case Go(delta) => GoStep(s, delta)
    case Back => if CanBack(s.tracked) then GoStep(s, -1) else s
    case Forward => if CanForward(s.tracked) then GoStep(s, 1) else s
    case BackOr => if CanBack(s.tracked) then GoStep(s, -1) else PushStep(s)
    case RenderAgain(kind) => Render(s, kind)
  }

  function Exec(s: Session, es: seq<Event>): (r: Session)
    requires Formed(s)
    ensures Formed(r)
    decreases |es|
  {
    if es == [] then s else Exec(Step(s, es[0]), es[1..])
  }

  // ---------------------------------------------------------------- the window

  /** The tracked keys are a stretch of the browser's stack with the cursor at `index`. */
  predicate IsWindow(t: Tracked, b: Browser) {
    && t.index < |t.keys|
    && t.index <= b.cursor
    && b.cursor - t.index + |t.keys| <= |b.stack|
    && (forall j :: 0 <= j < |t.keys| ==> t.keys[j] == b.stack[b.cursor - t.index + j])
  }

  predicate Sound(s: Session) {
    && BrowserValid(s.browser, s.nextKey)
    && IsWindow(s.tracked, s.browser)
    && (forall k :: k in s.tracked.keys ==> k in s.seen)
  }

  lemma PushedBrowser(b: Browser, key: Key)
    requires BrowserValid(b, key)
    ensures BrowserValid(BrowserPush(b, key), key + 1)
  {
  }

  lemma ReplacedBrowser(b: Browser, key: Key)
    requires BrowserValid(b, key)
    ensures BrowserValid(BrowserReplace(b, key), key + 1)
  {
  }

  /** The window once the page shown is left for, or replaced by, one under a new key. */
  lemma NewPageInWindow(t: Tracked, b: Browser, key: Key)
    requires BrowserValid(b, key) && IsWindow(t, b)
    ensures t.keys[t.index] != key
    ensures IsWindow(Tracked(t.keys[..t.index + 1] + [key], t.index + 1), BrowserPush(b, key))
    ensures IsWindow(t.(keys := t.keys[t.index := key]), BrowserReplace(b, key))
  {
    assert t.keys[t.index] == b.stack[b.cursor];
  }

  lemma PushKeeps(s: Session)
    requires Sound(s)
    ensures Sound(PushStep(s))
    ensures !CanForward(PushStep(s).tracked) && CanBack(PushStep(s).tracked)
  {
    PushedBrowser(s.browser, s.nextKey);
    NewPageInWindow(s.tracked, s.browser, s.nextKey);
  }

  lemma ReplaceKeeps(s: Session)
    requires Sound(s)
    ensures Sound(Step(s, Replace))
    ensures CanBack(Step(s, Replace).tracked) == CanBack(s.tracked)
    ensures CanForward(Step(s, Replace).tracked) == CanForward(s.tracked)
  {
    ReplacedBrowser(s.browser, s.nextKey);
    NewPageInWindow(s.tracked, s.browser, s.nextKey);
    var keys := s.tracked.keys[s.tracked.index := s.nextKey];
    forall k | k in keys
      ensures k in s.seen + {s.nextKey}
    {
      assert k != s.nextKey ==> k in s.tracked.keys;
    }
  }

  /** Only the entry at the cursor of a window holds the key shown, wherever the cursor goes. */
  lemma WindowEntries(t: Tracked, b: Browser, nextKey: Key, cursor: nat)
    requires BrowserValid(b, nextKey) && IsWindow(t, b) && cursor < |b.stack|
    ensures forall j :: 0 <= j < |t.keys| ==> (t.keys[j] == b.stack[cursor] <==> b.cursor - t.index + j == cursor)
  {
    var start := b.cursor - t.index;
    forall j | 0 <= j < |t.keys|
      ensures t.keys[j] == b.stack[cursor] <==> start + j == cursor
    {
      assert t.keys[j] == b.stack[start + j];
    }
  }

  lemma PopFindsTheEntry(t: Tracked, b: Browser, nextKey: Key, cursor: nat)
    requires BrowserValid(b, nextKey) && IsWindow(t, b) && cursor < |b.stack|
    ensures Reconcile(t, b.stack[cursor], PopKind) ==
      if 0 <= t.index + cursor - b.cursor < |t.keys| then t.(index := t.index + cursor - b.cursor)
      else Tracked([b.stack[cursor]], 0)
  {
    WindowEntries(t, b, nextKey, cursor);
    var found := IndexOf(t.keys, b.stack[cursor]);
    var i := t.index + cursor - b.cursor;
    if 0 <= i < |t.keys| {
      assert t.keys[i] == b.stack[cursor];
      assert found == i;
    } else {
      assert b.stack[cursor] !in t.keys;
    }
  }

  lemma PopKeepsWindow(t: Tracked, b: Browser, nextKey: Key, cursor: nat)
    requires BrowserValid(b, nextKey) && IsWindow(t, b) && cursor < |b.stack|
    ensures IsWindow(Reconcile(t, b.stack[cursor], PopKind), b.(cursor := cursor))
  {
    PopFindsTheEntry(t, b, nextKey, cursor);
    MovedWindow(t, b, cursor);
  }

  lemma MovedWindow(t: Tracked, b: Browser, cursor: nat)
    requires IsWindow(t, b) && cursor < |b.stack|
    ensures var index := t.index + cursor - b.cursor;
      IsWindow(if 0 <= index < |t.keys| then t.(index := index) else Tracked([b.stack[cursor]], 0), b.(cursor := cursor))
  {
  }

  /** A move of the cursor: inside the window the index moves with it, outside it the window shrinks to what is shown. */
  lemma GoMovesTheIndex(s: Session, delta: int)
    requires Sound(s)
    ensures Sound(GoStep(s, delta))
    ensures var cursor := BrowserGo(s.browser, delta).cursor;
      var index := s.tracked.index + cursor - s.browser.cursor;
      GoStep(s, delta).tracked ==
        if 0 <= index < |s.tracked.keys| then s.tracked.(index := index) else Tracked([s.browser.stack[cursor]], 0)
  {
    var cursor := BrowserGo(s.browser, delta).cursor;
    assert BrowserGo(s.browser, delta) == s.browser.(cursor := cursor);
    PopFindsTheEntry(s.tracked, s.browser, s.nextKey, cursor);
    PopKeepsWindow(s.tracked, s.browser, s.nextKey, cursor);
  }

  function Moved(s: Session, delta: int): Session
    requires s.tracked.index + delta >= 0 && s.browser.cursor + delta >= 0
  {
    s.(browser := s.browser.(cursor := s.browser.cursor + delta), tracked := s.tracked.(index := s.tracked.index + delta))
  }

  /** What one step back or forward inside the window does to everything. */
  lemma MoveInside(s: Session, delta: int)
    requires Sound(s) && 0 <= s.tracked.index + delta < |s.tracked.keys|
    ensures Sound(GoStep(s, delta))
    ensures GoStep(s, delta) == Moved(s, delta)
  {
    var t, b := s.tracked, s.browser;
    var cursor := b.cursor + delta;
    assert BrowserGo(b, delta) == b.(cursor := cursor);
    var t' := t.(index := t.index + delta);
    assert 0 <= cursor < |b.stack|;
    PopFindsTheEntry(t, b, s.nextKey, cursor);
    assert Reconcile(t, b.stack[cursor], PopKind) == t';
    SeenInWindow(s, t.index + delta);
    assert GoStep(s, delta) == Moved(s, delta);
    PopKeepsWindow(t, b, s.nextKey, cursor);
  }

  /** Adding a key of the window to what was rendered adds nothing. */
  lemma SeenInWindow(s: Session, i: nat)
    requires Sound(s) && i < |s.tracked.keys|
    ensures var cursor := s.browser.cursor - s.tracked.index + i;
      s.tracked.keys[i] == s.browser.stack[cursor] && s.seen + {s.browser.stack[cursor]} == s.seen
  {
    assert s.tracked.keys[i] in s.tracked.keys;
  }

  lemma BackIsAMove(s: Session)
    requires Sound(s)
    ensures Sound(Step(s, Back))
    ensures Step(s, Back) == if CanBack(s.tracked) then Moved(s, -1) else s
  {
    if CanBack(s.tracked) {
      MoveInside(s, -1);
    }
  }

  lemma ForwardIsAMove(s: Session)
    requires Sound(s)
    ensures Sound(Step(s, Forward))
    ensures Step(s, Forward) == if CanForward(s.tracked) then Moved(s, 1) else s
  {
    if CanForward(s.tracked) {
      MoveInside(s, 1);
    }
  }

  lemma GoKeeps(s: Session, delta: int)
    requires Sound(s)
    ensures Sound(GoStep(s, delta))
  {
    GoMovesTheIndex(s, delta);
  }

  /** A repeated render changes nothing, whatever navigation type it is told. */
  lemma RenderIsIdempotent(s: Session, kind: Kind)
    requires Sound(s)
    ensures Render(s, kind) == s
  {
    var t, b := s.tracked, s.browser;
    assert t.keys[t.index] == b.stack[b.cursor];
    assert t.keys[t.index] in t.keys;
    assert s.seen + {b.stack[b.cursor]} == s.seen;
  }

  lemma StepKeeps(s: Session, e: Event)
    requires Sound(s)
    ensures Sound(Step(s, e))
  {
    match e
    case Push => PushKeeps(s);
    case Replace => ReplaceKeeps(s);
    case Go(delta) => GoKeeps(s, delta);
    case Back => GoKeeps(s, -1);
    case Forward => GoKeeps(s, 1);
    case BackOr => if CanBack(s.tracked) { GoKeeps(s, -1); } else { PushKeeps(s); }
    case RenderAgain(kind) => RenderIsIdempotent(s, kind);
  }

  lemma {:induction false} ExecKeeps(s: Session, es: seq<Event>)
    requires Sound(s)
    ensures Sound(Exec(s, es))
    decreases |es|
  {
    if es != [] {
      StepKeeps(s, es[0]);
      ExecKeeps(Step(s, es[0]), es[1..]);
    }
  }

  // ---------------------------------------------------------------- what the user gets

  lemma MountedIsSound(browser: Browser, nextKey: Key)
    requires BrowserValid(browser, nextKey)
    ensures Sound(Mounted(browser, nextKey))
  {
  }

  /** The keys are the stretch of the stack around the cursor, and were all rendered. */
  ghost predicate IsSessionWindow(s: Session) {
    var start := s.browser.cursor - s.tracked.index;
    && s.tracked.index < |s.tracked.keys|
    && 0 <= start && start + |s.tracked.keys| <= |s.browser.stack|
    && s.tracked.keys == s.browser.stack[start..start + |s.tracked.keys|]
    && (forall k :: k in s.tracked.keys ==> k in s.seen)
  }

  lemma SoundIsWindow(s: Session)
    requires Sound(s)
    ensures IsSessionWindow(s)
  {
  }

  /** After any run the tracked keys are a contiguous window of the browser's stack, cursor and index on the same entry, and hold only what this session rendered. */
  lemma TrackedIsAWindow(browser: Browser, nextKey: Key, es: seq<Event>)
    requires BrowserValid(browser, nextKey)
    ensures IsSessionWindow(Exec(Mounted(browser, nextKey), es))
  {
    MountedIsSound(browser, nextKey);
    ExecKeeps(Mounted(browser, nextKey), es);
    SoundIsWindow(Exec(Mounted(browser, nextKey), es));
  }

  /** `back` and `forward` land on an entry this session rendered, and leave the window as it was. */
  lemma StepsStayInTheSession(s: Session, e: Event)
    requires Sound(s) && (e.Back? || e.Forward?)
    ensures Sound(Step(s, e))
    ensures Shown(Step(s, e).browser) in s.seen
    ensures Step(s, e).tracked.keys == s.tracked.keys && Step(s, e).browser.stack == s.browser.stack
    ensures Step(s, e).tracked.index - s.tracked.index == Step(s, e).browser.cursor - s.browser.cursor
  {
    if e.Back? && CanBack(s.tracked) {
      MoveInside(s, -1);
    } else if e.Forward? && CanForward(s.tracked) {
      MoveInside(s, 1);
    }
    SeenIsShown(s);
    SeenIsShown(Step(s, e));
  }

  /** `back` acts exactly when the entry behind the cursor is one of the window's. */
  lemma BackIsExact(s: Session)
    requires Sound(s)
    ensures CanBack(s.tracked) <==> s.browser.cursor > 0 && s.browser.stack[s.browser.cursor - 1] in s.tracked.keys
    ensures CanForward(s.tracked) <==>
      s.browser.cursor + 1 < |s.browser.stack| && s.browser.stack[s.browser.cursor + 1] in s.tracked.keys
    ensures CanBack(s.tracked) ==> Step(s, Back).browser.cursor == s.browser.cursor - 1
    ensures CanForward(s.tracked) ==> Step(s, Forward).browser.cursor == s.browser.cursor + 1
    ensures !CanBack(s.tracked) ==> Step(s, Back) == s
    ensures !CanForward(s.tracked) ==> Step(s, Forward) == s
  {
    var t, b := s.tracked, s.browser;
    var start := b.cursor - t.index;
    forall j | 0 <= j < |t.keys|
      ensures t.keys[j] == b.stack[start + j]
    {
    }
    assert CanBack(t) ==> t.keys[t.index - 1] == b.stack[b.cursor - 1];
    assert CanForward(t) ==> t.keys[t.index + 1] == b.stack[b.cursor + 1];
  }

  lemma SeenIsShown(s: Session)
    requires Sound(s)
    ensures Shown(s.browser) in s.seen
  {
    assert s.tracked.keys[s.tracked.index] in s.tracked.keys;
  }

  lemma BackIsUndone(s: Session)
    requires Sound(s) && CanBack(s.tracked)
    ensures Sound(Step(s, Back)) && Step(Step(s, Back), Forward) == s
  {
    BackIsAMove(s);
    ForwardIsAMove(Step(s, Back));
    MovedBack(s, -1);
  }

  lemma ForwardIsUndone(s: Session)
    requires Sound(s) && CanForward(s.tracked)
    ensures Sound(Step(s, Forward)) && Step(Step(s, Forward), Back) == s
  {
    ForwardIsAMove(s);
    BackIsAMove(Step(s, Forward));
    MovedBack(s, 1);
  }

  /** `back` then `forward` restores browser and provider alike, and the other way round. */
  lemma BackThenForward(s: Session)
    requires Sound(s)
    ensures CanBack(s.tracked) ==> Step(Step(s, Back), Forward) == s
    ensures CanForward(s.tracked) ==> Step(Step(s, Forward), Back) == s
  {
    if CanBack(s.tracked) {
      BackIsUndone(s);
    }
    if CanForward(s.tracked) {
      ForwardIsUndone(s);
    }
  }

  lemma MovedBack(s: Session, delta: int)
    requires s.tracked.index + delta >= 0 && s.browser.cursor + delta >= 0
    ensures Moved(Moved(s, delta), -delta) == s
  {
  }

  /** How far a run of pushes and backs goes, and that it never backs out past its start. */
  function Rise(e: Event): int {
    if e == Push then 1 else if e == Back then -1 else 0
  }

  function Depth(es: seq<Event>): int {
    if es == [] then 0 else Rise(es[0]) + Depth(es[1..])
  }

  predicate StaysAbove(depth: int, es: seq<Event>)
    decreases |es|
  {
    depth >= 0 && (es != [] ==> (es[0] == Push || es[0] == Back) && StaysAbove(depth + Rise(es[0]), es[1..]))
  }

  /** `x` stands `depth` pages deeper than `s`, over the same pages. */
  predicate Above(x: Session, s: Session, depth: int)
    requires Sound(x) && Sound(s)
  {
    && x.tracked.index == s.tracked.index + depth
    && x.browser.cursor == s.browser.cursor + depth
    && depth >= 0
    && x.browser.stack[..s.browser.cursor + 1] == s.browser.stack[..s.browser.cursor + 1]
  }

  lemma StepKeepsAbove(x: Session, s: Session, depth: int, e: Event)
    requires Sound(x) && Sound(s) && Above(x, s, depth) && (e == Push || e == Back) && depth + Rise(e) >= 0
    ensures Sound(Step(x, e)) && Above(Step(x, e), s, depth + Rise(e))
  {
    if e == Push {
      PushKeeps(x);
      var y := Step(x, Push);
      assert y.browser.stack[..s.browser.cursor + 1] == x.browser.stack[..s.browser.cursor + 1];
      assert y.tracked.index == x.tracked.index + 1 by {
        assert x.tracked.keys[x.tracked.index] == x.browser.stack[x.browser.cursor];
      }
    } else {
      MoveInside(x, -1);
    }
  }

  lemma {:induction false} ExecKeepsAbove(x: Session, s: Session, depth: int, es: seq<Event>)
    requires Sound(x) && Sound(s) && Above(x, s, depth) && StaysAbove(depth, es)
    ensures Sound(Exec(x, es)) && Above(Exec(x, es), s, depth + Depth(es))
    decreases |es|
  {
    if es != [] {
      StepKeepsAbove(x, s, depth, es[0]);
      ExecKeepsAbove(Step(x, es[0]), s, depth + Rise(es[0]), es[1..]);
    }
  }

  /** As many `back`s as pages opened lead back to the page and the place in the window one came from. */
  lemma BacksUndoPushes(s: Session, es: seq<Event>)
    requires Sound(s) && StaysAbove(0, es)
    ensures Exec(s, es).tracked.index == s.tracked.index + Depth(es)
    ensures Depth(es) == 0 ==> Shown(Exec(s, es).browser) == Shown(s.browser)
  {
    ExecKeepsAbove(s, s, 0, es);
    var x := Exec(s, es);
    var c := s.browser.cursor;
    assert x.browser.stack[c] == x.browser.stack[..c + 1][c] == s.browser.stack[..c + 1][c];
  }

  /** `backOr` never leaves the session behind: it returns to the entry before, or opens the fallback as a new one. */
  lemma BackOrIsExact(s: Session)
    requires Sound(s)
    ensures Sound(Step(s, BackOr))
    ensures var s' := Step(s, BackOr);
      if CanBack(s.tracked) then s' == Step(s, Back)
      else s'.browser.cursor == s.browser.cursor + 1 && Shown(s'.browser) !in s.browser.stack && CanBack(s'.tracked)
           && Step(s', Back).browser.cursor == s.browser.cursor
  {
    if CanBack(s.tracked) {
      StepKeeps(s, Back);
    } else {
      PushKeeps(s);
      BackIsAMove(PushStep(s));
    }
  }

  // ---------------------------------------------------------------- what a navigation does

  /** A new page goes on top of the entry shown, what lay ahead is gone, and there is a way back but none forward. */
  lemma PushOpensAPage(s: Session)
    requires Sound(s)
    ensures var s' := Step(s, Push);
      && s'.browser.cursor == s.browser.cursor + 1 == |s'.browser.stack| - 1
      && s'.browser.stack[..s'.browser.cursor] == s.browser.stack[..s.browser.cursor + 1]
      && Shown(s'.browser) !in s.browser.stack
      && s'.tracked.index == s.tracked.index + 1 && CanBack(s'.tracked) && !CanForward(s'.tracked)
  {
    PushKeeps(s);
    NewPageInWindow(s.tracked, s.browser, s.nextKey);
  }

  /** A replaced page is a new one in the same place, with the same ways back and forward. */
  lemma ReplaceSwapsThePage(s: Session)
    requires Sound(s)
    ensures var s' := Step(s, Replace);
      && s'.browser.cursor == s.browser.cursor && |s'.browser.stack| == |s.browser.stack|
      && (forall i :: 0 <= i < |s.browser.stack| && i != s.browser.cursor ==> s'.browser.stack[i] == s.browser.stack[i])
      && Shown(s'.browser) !in s.browser.stack
      && s'.tracked.index == s.tracked.index && |s'.tracked.keys| == |s.tracked.keys|
  {
    NewPageInWindow(s.tracked, s.browser, s.nextKey);
  }

  /** A jump moves the cursor as far as asked, if the stack reaches that far, and leaves the stack alone. */
  lemma GoMovesTheCursor(s: Session, delta: int)
    requires Sound(s)
    ensures var s' := Step(s, Go(delta));
      && s'.browser.stack == s.browser.stack
      && (if 0 <= s.browser.cursor + delta < |s.browser.stack| then s'.browser.cursor == s.browser.cursor + delta else s' == s)
  {
    if !(0 <= s.browser.cursor + delta < |s.browser.stack|) {
      RenderIsIdempotent(s, PopKind);
    }
  }

  lemma StepRendersWhatIsShown(s: Session, e: Event)
    requires Sound(s)
    ensures Step(s, e).seen == s.seen + {Shown(Step(s, e).browser)}
  {
    SeenIsShown(s);
    assert s.seen + {Shown(s.browser)} == s.seen;
  }

  /** The keys shown at the start and after each event of a run. */
  function Rendered(s: Session, es: seq<Event>): set<Key>
    requires Formed(s)
    decreases |es|
  {
    {Shown(s.browser)} + if es == [] then {} else Rendered(Step(s, es[0]), es[1..])
  }

  lemma {:induction false} SeenIsRendered(s: Session, es: seq<Event>)
    requires Sound(s)
    ensures Exec(s, es).seen == s.seen + Rendered(s, es)
    decreases |es|
  {
    SeenIsShown(s);
    if es != [] {
      StepKeeps(s, es[0]);
      StepRendersWhatIsShown(s, es[0]);
      SeenIsRendered(Step(s, es[0]), es[1..]);
    }
  }

  /** A session starts with no way back or forward, whatever the browser holds, and from then on tracks only pages it has shown. */
  lemma OnlyShownPagesAreTracked(browser: Browser, nextKey: Key, es: seq<Event>)
    requires BrowserValid(browser, nextKey)
    ensures var s := Mounted(browser, nextKey);
      && !CanBack(s.tracked) && !CanForward(s.tracked)
      && (forall k :: k in Exec(s, es).tracked.keys ==> k in Rendered(s, es))
  {
    var s := Mounted(browser, nextKey);
    MountedIsSound(browser, nextKey);
    ExecKeeps(s, es);
    SeenIsRendered(s, es);
  }

  // ---------------------------------------------------------------- the provider itself

  /** What a callback asks the router for. */
  datatype Navigation = Stay | Relative(delta: int) | To(path: string)

  /** The router does what was asked, and the provider renders the outcome. */
  function Performed(s: Session, asked: Navigation): Session
    requires Formed(s)
  {
    match asked
    case Stay => s
    case Relative(delta) => GoStep(s, delta)
    case To(_) => PushStep(s)
  }

  /** The browser's entry `delta` away from the cursor, if it is one of the window's. */
  predicate Reaches(s: Session, delta: int)
    requires Formed(s)
  {
    0 <= s.browser.cursor + delta < |s.browser.stack| && s.browser.stack[s.browser.cursor + delta] in s.tracked.keys
  }

  /** What the callbacks promise, whatever browser stack the provider is a window of. */
  ghost predicate AsksFor(t: Tracked, asked: Navigation, e: Event, delta: int) {
    forall s: Session :: Sound(s) && s.tracked == t ==>
      && Performed(s, asked) == Step(s, e)
      && (asked == Relative(delta) <==> Reaches(s, delta))
  }

  lemma BackAsked(s: Session)
    requires Sound(s)
    ensures Performed(s, if CanBack(s.tracked) then Relative(-1) else Stay) == Step(s, Back)
    ensures CanBack(s.tracked) <==> Reaches(s, -1)
  {
    BackIsExact(s);
  }

  lemma ForwardAsked(s: Session)
    requires Sound(s)
    ensures Performed(s, if CanForward(s.tracked) then Relative(1) else Stay) == Step(s, Forward)
    ensures CanForward(s.tracked) <==> Reaches(s, 1)
  {
    BackIsExact(s);
  }

  lemma BackOrAsked(s: Session, fallback: string)
    requires Sound(s)
    ensures Performed(s, if CanBack(s.tracked) then Relative(-1) else To(fallback)) == Step(s, BackOr)
    ensures CanBack(s.tracked) <==> Reaches(s, -1)
  {
    BackIsExact(s);
  }

  lemma BackIsAsked(t: Tracked)
    ensures AsksFor(t, if CanBack(t) then Relative(-1) else Stay, Back, -1)
  {
    var asked := if CanBack(t) then Relative(-1) else Stay;
    forall s: Session | Sound(s) && s.tracked == t
      ensures Performed(s, asked) == Step(s, Back) && (asked == Relative(-1) <==> Reaches(s, -1))
    {
      BackAsked(s);
    }
  }

  lemma ForwardIsAsked(t: Tracked)
    ensures AsksFor(t, if CanForward(t) then Relative(1) else Stay, Forward, 1)
  {
    var asked := if CanForward(t) then Relative(1) else Stay;
    forall s: Session | Sound(s) && s.tracked == t
      ensures Performed(s, asked) == Step(s, Forward) && (asked == Relative(1) <==> Reaches(s, 1))
    {
      ForwardAsked(s);
    }
  }

  lemma BackOrIsAsked(t: Tracked, fallback: string)
    ensures AsksFor(t, if CanBack(t) then Relative(-1) else To(fallback), BackOr, -1)
  {
    var asked := if CanBack(t) then Relative(-1) else To(fallback);
    forall s: Session | Sound(s) && s.tracked == t
      ensures Performed(s, asked) == Step(s, BackOr) && (asked == Relative(-1) <==> Reaches(s, -1))
    {
      BackOrAsked(s, fallback);
    }
  }

  class NavHistoryProvider {
    var keys: seq<Key>
    var index: nat

    predicate Valid()
      reads this
    {
      index < |keys|
    }

    function Snapshot(): Tracked
      reads this
    {
      Tracked(keys, index)
    }

    constructor (key: Key)
      ensures Valid() && Snapshot() == Tracked([key], 0)
    {
      keys, index := [key], 0;
    }

    method OnRender(key: Key, navigationType: Kind)
      requires Valid()
      modifies this
      ensures Valid() && Snapshot() == Reconcile(old(Snapshot()), key, navigationType)
    {
      if keys[index] != key {
        match navigationType {
          case PopKind =>
            var found := Find(key);
            if found >= 0 {
              index := found;
            } else {
              keys := [key];
              index := 0;
            }
          case ReplaceKind =>
            keys := keys[index := key];
          case PushKind =>
            keys := keys[..index + 1] + [key];
            index := |keys| - 1;
        }
      }
    }

    method Find(key: Key) returns (r: int)
      ensures r == IndexOf(keys, key)
    {
      for i := 0 to |keys|
        invariant forall j :: 0 <= j < i ==> keys[j] != key
      {
        if keys[i] == key {
          return i;
        }
      }
      return -1;
    }

    method Back() returns (asked: Navigation)
      ensures AsksFor(Snapshot(), asked, Event.Back, -1)
    {
      BackIsAsked(Snapshot());
      if index > 0 {
        return Relative(-1);
      }
      return Stay;
    }

    method Forward() returns (asked: Navigation)
      ensures AsksFor(Snapshot(), asked, Event.Forward, 1)
    {
      ForwardIsAsked(Snapshot());
      if index < |keys| - 1 {
        return Relative(1);
      }
      return Stay;
    }

    method BackOr(fallback: string) returns (asked: Navigation)
      ensures AsksFor(Snapshot(), asked, Event.BackOr, -1)
      ensures asked.To? ==> asked.path == fallback
    {
      BackOrIsAsked(Snapshot(), fallback);
      if index > 0 {
        return Relative(-1);
      }
      return To(fallback);
    }
  }
}
