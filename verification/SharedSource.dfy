/**
  The shared server-sent-event connection of `http.ts`: one `EventSource` carries every
  `listen` registration of the tab.

  JavaScript objects with identity are numbered: `sets` holds every registration set ever
  created (a set removed from the map may still be walked by a dispatch loop), `sources`
  every `EventSource` ever opened, `owner` the event name each registration's closure keeps.
  A deleted set element leaves a gap, as the language's set iteration prescribes.
 */
module SharedSource {
  import opened Common
  import opened Lists

  datatype Entry = Live(reg: nat) | Gone

  /** A closure made by `makeDispatcher`; the stamp tells apart two closures for one event. */
  datatype Dispatcher = Dispatcher(event: string, stamp: nat)

  datatype Source = Source(keyInUrl: Option<string>, open: bool, listeners: set<(string, Dispatcher)>)

  datatype Mux = Mux(
    apiKey: Option<string>,
    shared: Option<nat>,
    sourceKey: Option<string>,
    registrations: map<string, nat>,
    dispatchers: map<string, Dispatcher>,
    sets: seq<seq<Entry>>,
    sources: seq<Source>,
    owner: seq<string>,
    clock: nat)

  datatype Action = SetApiKey(key: Option<string>) | Listen(event: string) | Unlisten(reg: nat)

  const INITIAL := Mux(None, None, None, map[], map[], [], [], [], 0)

  // ---------------------------------------------------------------- the module's functions

  /** `eventsUrl`: an absent or empty key leaves the query out. */
  function KeyInUrl(key: Option<string>): Option<string> {
    if key.Some? && key.value != "" then key else None
  }

  function CloseShared(m: Mux): Mux {
    if m.shared.Some? && m.shared.value < |m.sources| then
      m.(sources := m.sources[m.shared.value := m.sources[m.shared.value].(open := false)], shared := None)
    else
      m.(shared := None)
  }

  function FreshDispatchers(m: Mux): map<string, Dispatcher> {
    map e | e in m.registrations.Keys :: Dispatcher(e, m.clock)
  }

  function Attached(dispatchers: map<string, Dispatcher>): (r: set<(string, Dispatcher)>)
    ensures forall e, d :: (e, d) in r <==> e in dispatchers && dispatchers[e] == d
  {
    set e | e in dispatchers.Keys :: (e, dispatchers[e])
  }

  function EnsureSource(m: Mux): Mux {
    if m.shared.Some? && m.sourceKey == m.apiKey then m
    else
      var c := CloseShared(m);
      c.(dispatchers := FreshDispatchers(m), clock := m.clock + 1,
         shared := Some(|m.sources|), sourceKey := m.apiKey,
         sources := c.sources + [Source(KeyInUrl(m.apiKey), true, Attached(FreshDispatchers(m)))])
  }

  function AttachDispatcher(m: Mux, event: string): Mux {
    if m.shared.None? || m.shared.value >= |m.sources| || event in m.dispatchers then m
    else
      var s := m.shared.value;
      var d := Dispatcher(event, m.clock);
      m.(dispatchers := m.dispatchers[event := d], clock := m.clock + 1,
         sources := m.sources[s := m.sources[s].(listeners := m.sources[s].listeners + {(event, d)})])
  }

  function TeardownIfIdle(m: Mux): Mux {
    if m.registrations != map[] || m.shared.None? then m
    else CloseShared(m).(sourceKey := None, dispatchers := map[])
  }

  function SetApiKeyStep(m: Mux, key: Option<string>): Mux {
    var m1 := m.(apiKey := key);
    if m.shared.Some? && m.sourceKey != key then EnsureSource(m1) else m1
  }

  /** `listen` up to the two calls that open and attach. */
  function Register(m: Mux, event: string): Mux {
    var reg := |m.owner|;
    if event in m.registrations && m.registrations[event] < |m.sets| then
      var s := m.registrations[event];
      m.(owner := m.owner + [event], sets := m.sets[s := m.sets[s] + [Live(reg)]])
    else
      m.(owner := m.owner + [event],
         registrations := m.registrations[event := |m.sets|],
         sets := m.sets + [[Live(reg)]])
  }

  function ListenStep(m: Mux, event: string): Mux {
    AttachDispatcher(EnsureSource(Register(m, event)), event)
  }

  /** `Set.prototype.delete`. */
  function Remove(entries: seq<Entry>, reg: nat): (r: seq<Entry>)
    ensures |r| == |entries|
    ensures forall i :: 0 <= i < |r| ==> r[i] == if entries[i] == Live(reg) then Gone else entries[i]
  {
    seq(|entries|, i requires 0 <= i < |entries| => if entries[i] == Live(reg) then Gone else entries[i])
  }

  predicate Empty(entries: seq<Entry>) {
    forall i :: 0 <= i < |entries| ==> entries[i].Gone?
  }

  function Detach(m: Mux, event: string): Mux {
    var m1 := m.(registrations := m.registrations - {event}, dispatchers := m.dispatchers - {event});
    if event in m.dispatchers && m.shared.Some? && m.shared.value < |m.sources| then
      var s := m.shared.value;
      m1.(sources := m.sources[s := m.sources[s].(listeners := m.sources[s].listeners - {(event, m.dispatchers[event])})])
    else m1
  }

  function UnlistenStep(m: Mux, reg: nat): Mux {
    if reg >= |m.owner| || m.owner[reg] !in m.registrations || m.registrations[m.owner[reg]] >= |m.sets| then m
    else
      var event := m.owner[reg];
      var s := m.registrations[event];
      var m1 := m.(sets := m.sets[s := Remove(m.sets[s], reg)]);
      TeardownIfIdle(if Empty(m1.sets[s]) then Detach(m1, event) else m1)
  }

  function Step(m: Mux, a: Action): Mux {
    match a
    case SetApiKey(key) => SetApiKeyStep(m, key)
    case Listen(event) => ListenStep(m, event)
    case Unlisten(reg) => UnlistenStep(m, reg)
  }

  function Exec(m: Mux, actions: seq<Action>): Mux
    decreases |actions|
  {
    if actions == [] then m else Exec(Step(m, actions[0]), actions[1..])
  }

  lemma {:induction false} ExecConcat(m: Mux, a: seq<Action>, b: seq<Action>)
    ensures Exec(m, a + b) == Exec(Exec(m, a), b)
    decreases |a|
  {
    if a == [] {
      assert a + b == b;
    } else {
      assert (a + b)[1..] == a[1..] + b;
      ExecConcat(Step(m, a[0]), a[1..], b);
    }
  }

  // ---------------------------------------------------------------- the agreement of the four pieces of state

  /** Exactly the shared source is open, and it was opened with the current key. */
  ghost predicate SourceOk(m: Mux) {
    && (m.shared.Some? ==> m.shared.value < |m.sources| && m.sourceKey == m.apiKey
                           && m.sources[m.shared.value].keyInUrl == KeyInUrl(m.apiKey))
    && (m.shared.None? ==> m.sourceKey == None)
    && (forall i :: 0 <= i < |m.sources| ==> (m.sources[i].open <==> m.shared == Some(i)))
  }

  /** What is attached to the open source is what the dispatcher map holds, one closure for each event. */
  ghost predicate DispatchersOk(m: Mux) {
    && (forall e :: e in m.dispatchers ==> m.dispatchers[e].event == e)
    && (m.shared.None? ==> m.dispatchers == map[])
    && (m.shared.Some? && m.shared.value < |m.sources| ==>
          m.sources[m.shared.value].listeners == Attached(m.dispatchers))
  }

  /** A live registration of set `s` belongs to the event mapped to `s`, and appears only once. */
  ghost predicate SetOk(owner: seq<string>, registrations: map<string, nat>, s: nat, entries: seq<Entry>) {
    && (forall i :: 0 <= i < |entries| && entries[i].Live? ==>
          && entries[i].reg < |owner|
          && owner[entries[i].reg] in registrations
          && registrations[owner[entries[i].reg]] == s)
    && (forall i, j :: 0 <= i < j < |entries| && entries[i].Live? ==> entries[j] != entries[i])
  }

  ghost predicate EntriesOk(m: Mux) {
    forall s :: 0 <= s < |m.sets| ==> SetOk(m.owner, m.registrations, s, m.sets[s])
  }

  ghost predicate NoEmptySet(m: Mux) {
    forall e :: e in m.registrations ==> m.registrations[e] < |m.sets| && !Empty(m.sets[m.registrations[e]])
  }

  ghost predicate RegistryOk(m: Mux) {
    && EntriesOk(m)
    && NoEmptySet(m)
    && (forall e, f :: e in m.registrations && f in m.registrations && m.registrations[e] == m.registrations[f] ==> e == f)
  }

  ghost predicate Inv(m: Mux) {
    && SourceOk(m) && DispatchersOk(m) && RegistryOk(m)
    && m.dispatchers.Keys == m.registrations.Keys
    && (m.shared.Some? <==> m.registrations != map[])
  }

  /** A set stays sound when other registrations are added, under events mapped elsewhere or anew. */
  lemma SetOkGrows(owner: seq<string>, regs: map<string, nat>, event: string, regs': map<string, nat>, s: nat, entries: seq<Entry>)
    requires SetOk(owner, regs, s, entries)
    requires forall e :: e in regs ==> e in regs' && regs'[e] == regs[e]
    ensures SetOk(owner + [event], regs', s, entries)
  {
  }

  lemma RegisterKeepsEntries(m: Mux, event: string)
    requires RegistryOk(m)
    ensures EntriesOk(Register(m, event))
  {
    var m' := Register(m, event);
    forall s | 0 <= s < |m'.sets|
      ensures SetOk(m'.owner, m'.registrations, s, m'.sets[s])
    {
      if s < |m.sets| {
        SetOkGrows(m.owner, m.registrations, event, m'.registrations, s, m.sets[s]);
      }
    }
  }

  lemma RegisterLeavesNoneEmpty(m: Mux, event: string)
    requires RegistryOk(m)
    ensures NoEmptySet(Register(m, event))
  {
    var m' := Register(m, event);
    forall e | e in m'.registrations
      ensures m'.registrations[e] < |m'.sets| && !Empty(m'.sets[m'.registrations[e]])
    {
      if e == event {
        var entries := m'.sets[m'.registrations[e]];
        assert entries[|entries| - 1].Live?;
      } else {
        assert m'.sets[m'.registrations[e]] == m.sets[m.registrations[e]];
      }
    }
  }

  lemma RegisterKeeps(m: Mux, event: string)
    requires RegistryOk(m)
    ensures RegistryOk(Register(m, event))
    ensures event in Register(m, event).registrations
  {
    RegisterKeepsEntries(m, event);
    RegisterLeavesNoneEmpty(m, event);
  }

  /** Opening, or reopening under a new key, leaves exactly one open source carrying every registered event. */
  lemma EnsureSourceKeeps(m: Mux, oldKey: Option<string>)
    requires SourceOk(m.(apiKey := oldKey)) && DispatchersOk(m)
    ensures var m' := EnsureSource(m);
      && SourceOk(m') && DispatchersOk(m') && m'.shared.Some?
      && m'.registrations == m.registrations && m'.sets == m.sets && m'.owner == m.owner
      && (if m.shared.Some? && m.sourceKey == m.apiKey then m' == m else m'.dispatchers.Keys == m.registrations.Keys)
  {
  }

  function WithListeners(sources: seq<Source>, s: nat, listeners: set<(string, Dispatcher)>): seq<Source>
    requires s < |sources|
  {
    sources[s := sources[s].(listeners := listeners)]
  }

  lemma AttachedAdds(dispatchers: map<string, Dispatcher>, event: string, d: Dispatcher)
    requires event !in dispatchers
    ensures Attached(dispatchers[event := d]) == Attached(dispatchers) + {(event, d)}
  {
  }

  lemma AttachKeeps(m: Mux, event: string)
    requires SourceOk(m) && DispatchersOk(m) && m.shared.Some?
    ensures var m' := AttachDispatcher(m, event);
      && SourceOk(m') && DispatchersOk(m') && m'.shared == m.shared
      && m'.dispatchers.Keys == m.dispatchers.Keys + {event}
      && m'.registrations == m.registrations && m'.sets == m.sets && m'.owner == m.owner
  {
    var m' := AttachDispatcher(m, event);
    if event !in m.dispatchers {
      AttachedAdds(m.dispatchers, event, Dispatcher(event, m.clock));
    }
  }

  lemma ListenKeeps(m: Mux, event: string)
    requires Inv(m)
    ensures Inv(ListenStep(m, event))
  {
    var r := Register(m, event);
    assert r.registrations.Keys == m.registrations.Keys + {event};
    RegisterKeeps(m, event);
    EnsureSourceKeeps(r, m.apiKey);
    AttachKeeps(EnsureSource(r), event);
    SameRegistry(r, ListenStep(m, event));
  }

  lemma SameRegistry(m: Mux, m': Mux)
    requires RegistryOk(m)
    requires m'.registrations == m.registrations && m'.sets == m.sets && m'.owner == m.owner
    ensures RegistryOk(m')
  {
  }

  lemma SetApiKeyKeeps(m: Mux, key: Option<string>)
    requires Inv(m)
    ensures Inv(SetApiKeyStep(m, key))
  {
    var m1 := m.(apiKey := key);
    if m.shared.Some? && m.sourceKey != key {
      EnsureSourceKeeps(m1, m.apiKey);
    }
    SameRegistry(m, SetApiKeyStep(m, key));
  }

  lemma RemoveKeeps(m: Mux, event: string, reg: nat)
    requires RegistryOk(m) && reg < |m.owner| && event == m.owner[reg] && event in m.registrations
    ensures var s := m.registrations[event];
      var m1 := m.(sets := m.sets[s := Remove(m.sets[s], reg)]);
      && EntriesOk(m1)
      && (forall e :: e in m.registrations && e != event ==> !Empty(m1.sets[m1.registrations[e]]))
  {
    var s := m.registrations[event];
    var m1 := m.(sets := m.sets[s := Remove(m.sets[s], reg)]);
    forall e | e in m.registrations && e != event
      ensures !Empty(m1.sets[m1.registrations[e]])
    {
      assert m.registrations[e] != s;
      assert m1.sets[m1.registrations[e]] == m.sets[m.registrations[e]];
    }
  }

  lemma DetachKeeps(m: Mux, event: string)
    requires SourceOk(m) && DispatchersOk(m)
    ensures SourceOk(Detach(m, event)) && DispatchersOk(Detach(m, event)) && Detach(m, event).shared == m.shared
  {
    var m' := Detach(m, event);
    if event in m.dispatchers {
      assert Attached(m'.dispatchers) == Attached(m.dispatchers) - {(event, m.dispatchers[event])};
    } else {
      assert m'.dispatchers == m.dispatchers;
    }
  }

  lemma TeardownKeeps(m: Mux)
    requires SourceOk(m) && DispatchersOk(m) && RegistryOk(m) && m.dispatchers.Keys == m.registrations.Keys
    requires m.registrations != map[] ==> m.shared.Some?
    ensures Inv(TeardownIfIdle(m))
  {
  }

  lemma UnlistenKeeps(m: Mux, reg: nat)
    requires Inv(m)
    ensures Inv(UnlistenStep(m, reg))
  {
    if reg < |m.owner| && m.owner[reg] in m.registrations {
      var event := m.owner[reg];
      var s := m.registrations[event];
      var m1 := m.(sets := m.sets[s := Remove(m.sets[s], reg)]);
      RemoveKeeps(m, event, reg);
      if Empty(m1.sets[s]) {
        DetachKeeps(m1, event);
        var m2 := Detach(m1, event);
        assert RegistryOk(m2);
        TeardownKeeps(m2);
      } else {
        TeardownKeeps(m1);
      }
    }
  }

  lemma StepKeeps(m: Mux, a: Action)
    requires Inv(m)
    ensures Inv(Step(m, a))
  {
    match a
    case SetApiKey(key) => SetApiKeyKeeps(m, key);
    case Listen(event) => ListenKeeps(m, event);
    case Unlisten(reg) => UnlistenKeeps(m, reg);
  }

  lemma {:induction false} ExecKeeps(m: Mux, actions: seq<Action>)
    requires Inv(m)
    ensures Inv(Exec(m, actions))
    decreases |actions|
  {
    if actions != [] {
      StepKeeps(m, actions[0]);
      ExecKeeps(Step(m, actions[0]), actions[1..]);
    }
  }

  // ---------------------------------------------------------------- registrations come and go once

  /** Every set only loses elements in place and gains newer registrations at its end. */
  predicate SetsEvolve(a: Mux, b: Mux) {
    && |a.owner| <= |b.owner| && a.owner == b.owner[..|a.owner|]
    && |a.sets| <= |b.sets|
    && (forall s :: 0 <= s < |a.sets| ==> |a.sets[s]| <= |b.sets[s]|)
    && (forall s, i :: 0 <= s < |a.sets| && 0 <= i < |a.sets[s]| ==> b.sets[s][i] in {a.sets[s][i], Gone})
    && (forall s, i :: 0 <= s < |b.sets| && (s < |a.sets| ==> |a.sets[s]| <= i) && 0 <= i < |b.sets[s]| && b.sets[s][i].Live? ==>
          b.sets[s][i].reg >= |a.owner|)
  }

  lemma SetsEvolveTransitively(a: Mux, b: Mux, c: Mux)
    requires SetsEvolve(a, b) && SetsEvolve(b, c)
    ensures SetsEvolve(a, c)
  {
    assert c.owner[..|a.owner|] == c.owner[..|b.owner|][..|a.owner|];
    forall s, i | 0 <= s < |c.sets| && (s < |a.sets| ==> |a.sets[s]| <= i) && 0 <= i < |c.sets[s]| && c.sets[s][i].Live?
      ensures c.sets[s][i].reg >= |a.owner|
    {
      if s < |b.sets| && i < |b.sets[s]| {
        assert c.sets[s][i] in {b.sets[s][i], Gone};
      }
    }
  }

  function Growth(actions: seq<Action>): nat {
    if actions == [] then 0 else Growth(actions[1..]) + if actions[0].Listen? then 1 else 0
  }

  lemma RegisterEvolves(m: Mux, event: string)
    ensures SetsEvolve(m, Register(m, event))
    ensures forall s :: 0 <= s < |m.sets| ==> |Register(m, event).sets[s]| <= |m.sets[s]| + 1
  {
  }

  lemma UnlistenEvolves(m: Mux, reg: nat)
    ensures SetsEvolve(m, UnlistenStep(m, reg)) && |UnlistenStep(m, reg).sets| == |m.sets|
    ensures forall s :: 0 <= s < |m.sets| ==> |UnlistenStep(m, reg).sets[s]| == |m.sets[s]|
  {
  }

  lemma SameSetsEvolve(a: Mux, b: Mux, b': Mux)
    requires SetsEvolve(a, b) && b'.sets == b.sets && b'.owner == b.owner
    ensures SetsEvolve(a, b')
  {
  }

  lemma ListenSets(m: Mux, event: string)
    ensures ListenStep(m, event).sets == Register(m, event).sets
    ensures ListenStep(m, event).owner == Register(m, event).owner
  {
  }

  lemma StepEvolves(m: Mux, a: Action)
    ensures SetsEvolve(m, Step(m, a))
    ensures forall s :: 0 <= s < |m.sets| ==> |Step(m, a).sets[s]| <= |m.sets[s]| + if a.Listen? then 1 else 0
  {
    match a
    case SetApiKey(_) =>
      SameSetsEvolve(m, m, Step(m, a));
    case Listen(event) =>
      RegisterEvolves(m, event);
      ListenSets(m, event);
      SameSetsEvolve(m, Register(m, event), Step(m, a));
    case Unlisten(reg) =>
      UnlistenEvolves(m, reg);
  }

  lemma {:induction false} ExecEvolves(m: Mux, actions: seq<Action>)
    ensures SetsEvolve(m, Exec(m, actions))
    ensures forall s :: 0 <= s < |m.sets| ==> |Exec(m, actions).sets[s]| <= |m.sets[s]| + Growth(actions)
    decreases |actions|
  {
    if actions != [] {
      var m1 := Step(m, actions[0]);
      StepEvolves(m, actions[0]);
      ExecEvolves(m1, actions[1..]);
      SetsEvolveTransitively(m, m1, Exec(m, actions));
    }
  }

  /** Some set still holds the registration. */
  ghost predicate IsLive(m: Mux, reg: nat) {
    exists s, i :: 0 <= s < |m.sets| && 0 <= i < |m.sets[s]| && m.sets[s][i] == Live(reg)
  }

  lemma DeadStaysDead(a: Mux, b: Mux, reg: nat)
    requires SetsEvolve(a, b) && reg < |a.owner| && !IsLive(a, reg)
    ensures !IsLive(b, reg)
  {
  }

  lemma UnlistenKills(m: Mux, reg: nat)
    requires Inv(m) && reg < |m.owner|
    ensures !IsLive(UnlistenStep(m, reg), reg)
  {
  }

  /** Calling an unlisten that already ran changes nothing at all. */
  lemma DeadUnlistenIsNoOp(m: Mux, reg: nat)
    requires Inv(m) && !IsLive(m, reg)
    ensures UnlistenStep(m, reg) == m
  {
    if reg < |m.owner| && m.owner[reg] in m.registrations {
      var s := m.registrations[m.owner[reg]];
      assert Remove(m.sets[s], reg) == m.sets[s];
      assert m.sets[s := m.sets[s]] == m.sets;
    }
  }

  /** The same unlisten called again later, after any other activity on any event, is harmless. */
  lemma SecondUnlistenIsHarmless(before: seq<Action>, reg: nat, between: seq<Action>)
    requires reg < |Exec(INITIAL, before).owner|
    ensures var m := Exec(UnlistenStep(Exec(INITIAL, before), reg), between);
      UnlistenStep(m, reg) == m
  {
    var m0 := Exec(INITIAL, before);
    var m1 := UnlistenStep(m0, reg);
    ExecKeeps(INITIAL, before);
    UnlistenKeeps(m0, reg);
    UnlistenKills(m0, reg);
    StepEvolves(m0, Unlisten(reg));
    ExecEvolves(m1, between);
    DeadStaysDead(m1, Exec(m1, between), reg);
    ExecKeeps(m1, between);
    DeadUnlistenIsNoOp(Exec(m1, between), reg);
  }

  // ---------------------------------------------------------------- who is registered, read off the calls

  /** The event names listened to, in order: the `k`-th `listen` makes registration `k`. */
  function Issued(actions: seq<Action>): seq<string> {
    if actions == [] then []
    else Issued(Front(actions)) + if Last(actions).Listen? then [Last(actions).event] else []
  }

  function Other(reg: nat): nat -> bool {
    (r: nat) => r != reg
  }

  /** What one call makes of the registrations of an event; a `listen` makes number `next`. */
  function HeldAfter(before: seq<nat>, a: Action, next: nat, event: string): seq<nat> {
    match a
    case Listen(heard) => before + if heard == event then [next] else []
    case Unlisten(reg) => Keep(before, Other(reg))
    case SetApiKey(_) => before
  }

  /** The registrations of an event that were not unlistened since they were made, oldest first. */
  function Held(actions: seq<Action>, event: string): seq<nat> {
    if actions == [] then []
    else HeldAfter(Held(Front(actions), event), Last(actions), |Issued(Front(actions))|, event)
  }

  /** The key set last. */
  function LastKey(actions: seq<Action>): Option<string> {
    if actions == [] then None
    else if Last(actions).SetApiKey? then Last(actions).key
    else LastKey(Front(actions))
  }

  /** The registration of one place of a set, if it still has one. */
  function HeldAt(e: Entry): seq<nat> {
    if e.Live? then [e.reg] else []
  }

  function Listeners(entries: seq<Entry>): seq<nat> {
    if entries == [] then [] else HeldAt(entries[0]) + Listeners(entries[1..])
  }

  /** The registrations the module holds for an event, in the order of its set. */
  function HeldBy(m: Mux, event: string): seq<nat> {
    if event in m.registrations && m.registrations[event] < |m.sets| then Listeners(m.sets[m.registrations[event]]) else []
  }

  lemma Reassociated(a: seq<nat>, b: seq<nat>, c: seq<nat>)
    ensures a + (b + c) == (a + b) + c
  {
  }

  lemma {:induction false} ListenersSnoc(entries: seq<Entry>, reg: nat)
    ensures Listeners(entries + [Live(reg)]) == Listeners(entries) + [reg]
  {
    if entries == [] {
      assert [Live(reg)][1..] == [];
    } else {
      assert (entries + [Live(reg)])[1..] == entries[1..] + [Live(reg)];
      ListenersSnoc(entries[1..], reg);
      Reassociated(HeldAt(entries[0]), Listeners(entries[1..]), [reg]);
    }
  }

  lemma RemovedTail(entries: seq<Entry>, reg: nat)
    requires entries != []
    ensures Remove(entries, reg)[1..] == Remove(entries[1..], reg)
    ensures HeldAt(Remove(entries, reg)[0]) == Keep(HeldAt(entries[0]), Other(reg))
  {
    if entries[0].Live? {
      assert Front([entries[0].reg]) == [];
    }
  }

  lemma {:induction false} ListenersWithout(entries: seq<Entry>, reg: nat)
    ensures Listeners(Remove(entries, reg)) == Keep(Listeners(entries), Other(reg))
  {
    if entries != [] {
      ListenersWithout(entries[1..], reg);
      RemovedTail(entries, reg);
      KeepConcat(HeldAt(entries[0]), Listeners(entries[1..]), Other(reg));
    }
  }

  lemma {:induction false} ListenersAreLive(entries: seq<Entry>, reg: nat)
    ensures reg in Listeners(entries) <==> Live(reg) in entries
  {
    if entries != [] {
      assert entries == [entries[0]] + entries[1..];
      ListenersAreLive(entries[1..], reg);
    }
  }

  lemma {:induction false} KeepAll(s: seq<nat>, reg: nat)
    requires reg !in s
    ensures Keep(s, Other(reg)) == s
  {
    if s != [] {
      assert s == Front(s) + [Last(s)];
      KeepAll(Front(s), reg);
    }
  }

  lemma {:induction false} EmptyHoldsNobody(entries: seq<Entry>)
    ensures Listeners(entries) == [] <==> Empty(entries)
  {
    if entries != [] {
      EmptyHoldsNobody(entries[1..]);
      assert forall i :: 0 < i < |entries| ==> entries[i] == entries[1..][i - 1];
    }
  }

  lemma ListenHolds(m: Mux, heard: string, event: string)
    requires Inv(m)
    ensures HeldBy(ListenStep(m, heard), event) == HeldBy(m, event) + if heard == event then [|m.owner|] else []
  {
    var r := Register(m, heard);
    ListenSets(m, heard);
    assert HeldBy(ListenStep(m, heard), event) == HeldBy(r, event);
    if heard == event {
      if event in m.registrations {
        ListenersSnoc(m.sets[m.registrations[event]], |m.owner|);
      } else {
        ListenersSnoc([], |m.owner|);
        assert [] + [Live(|m.owner|)] == [Live(|m.owner|)];
      }
    } else if event in m.registrations {
      assert r.sets[r.registrations[event]] == m.sets[m.registrations[event]];
    }
  }

  /** A registration is in no other event's set. */
  lemma NotHeldElsewhere(m: Mux, reg: nat, event: string)
    requires Inv(m) && (reg < |m.owner| ==> m.owner[reg] != event)
    ensures reg !in HeldBy(m, event)
  {
    if event in m.registrations {
      var s := m.registrations[event];
      ListenersAreLive(m.sets[s], reg);
      assert SetOk(m.owner, m.registrations, s, m.sets[s]);
    }
  }

  /** What an unlisten leaves of the sets. */
  lemma UnlistenSets(m: Mux, reg: nat)
    requires Inv(m) && reg < |m.owner| && m.owner[reg] in m.registrations
    ensures var event, m' := m.owner[reg], UnlistenStep(m, reg);
      var s := m.registrations[event];
      && m'.sets == m.sets[s := Remove(m.sets[s], reg)]
      && m'.registrations == if Empty(Remove(m.sets[s], reg)) then m.registrations - {event} else m.registrations
  {
  }

  lemma OwnUnlistenHolds(m: Mux, reg: nat)
    requires Inv(m) && reg < |m.owner| && m.owner[reg] in m.registrations
    ensures HeldBy(UnlistenStep(m, reg), m.owner[reg]) == Keep(HeldBy(m, m.owner[reg]), Other(reg))
  {
    var entries := m.sets[m.registrations[m.owner[reg]]];
    UnlistenSets(m, reg);
    ListenersWithout(entries, reg);
    EmptyHoldsNobody(Remove(entries, reg));
  }

  lemma OtherUnlistenHolds(m: Mux, reg: nat, event: string)
    requires Inv(m) && reg < |m.owner| && m.owner[reg] in m.registrations && m.owner[reg] != event
    ensures HeldBy(UnlistenStep(m, reg), event) == HeldBy(m, event)
  {
    UnlistenSets(m, reg);
  }

  lemma UnlistenHolds(m: Mux, reg: nat, event: string)
    requires Inv(m)
    ensures HeldBy(UnlistenStep(m, reg), event) == Keep(HeldBy(m, event), Other(reg))
  {
    if reg < |m.owner| && m.owner[reg] in m.registrations {
      if m.owner[reg] == event {
        OwnUnlistenHolds(m, reg);
      } else {
        OtherUnlistenHolds(m, reg, event);
        NotHeldElsewhere(m, reg, event);
        KeepAll(HeldBy(m, event), reg);
      }
    } else {
      NotHeldAtAll(m, reg, event);
      KeepAll(HeldBy(m, event), reg);
    }
  }

  /** What was never listened, or whose event is gone, is held nowhere. */
  lemma NotHeldAtAll(m: Mux, reg: nat, event: string)
    requires Inv(m) && (reg < |m.owner| ==> m.owner[reg] !in m.registrations)
    ensures reg !in HeldBy(m, event)
  {
    if event in m.registrations && (reg < |m.owner| ==> m.owner[reg] != event) {
      NotHeldElsewhere(m, reg, event);
    }
  }

  lemma StepHolds(m: Mux, a: Action, event: string)
    requires Inv(m)
    ensures HeldBy(Step(m, a), event) == HeldAfter(HeldBy(m, event), a, |m.owner|, event)
  {
    match a
    case Listen(heard) => ListenHolds(m, heard, event);
    case Unlisten(reg) => UnlistenHolds(m, reg, event);
    case SetApiKey(_) =>
  }

  lemma ExecSnoc(m: Mux, actions: seq<Action>)
    requires actions != []
    ensures Exec(m, actions) == Step(Exec(m, Front(actions)), Last(actions))
  {
    assert actions == Front(actions) + [Last(actions)];
    assert [Last(actions)][1..] == [];
    ExecConcat(m, Front(actions), [Last(actions)]);
  }

  lemma KeyFollows(m: Mux, a: Action)
    ensures Step(m, a).apiKey == if a.SetApiKey? then a.key else m.apiKey
  {
    match a
    case SetApiKey(_) =>
    case Listen(_) =>
    case Unlisten(_) =>
  }

  lemma OwnersFollow(m: Mux, a: Action)
    ensures Step(m, a).owner == m.owner + if a.Listen? then [a.event] else []
  {
    match a
    case SetApiKey(_) =>
    case Listen(event) => ListenSets(m, event);
    case Unlisten(_) =>
  }

  /** After any calls the module holds for each event exactly what was listened and not unlistened since, oldest first. */
  lemma {:induction false} ListenersFollowTheCalls(actions: seq<Action>, event: string)
    ensures var m := Exec(INITIAL, actions);
      HeldBy(m, event) == Held(actions, event) && m.owner == Issued(actions) && m.apiKey == LastKey(actions)
  {
    if actions != [] {
      var m := Exec(INITIAL, Front(actions));
      ListenersFollowTheCalls(Front(actions), event);
      ExecSnoc(INITIAL, actions);
      ExecKeeps(INITIAL, Front(actions));
      KeyFollows(m, Last(actions));
      OwnersFollow(m, Last(actions));
      StepHolds(m, Last(actions), event);
    }
  }

  lemma RegisteredIsHeld(m: Mux, event: string)
    requires Inv(m)
    ensures event in m.registrations <==> HeldBy(m, event) != []
  {
    if event in m.registrations {
      EmptyHoldsNobody(m.sets[m.registrations[event]]);
    }
  }

  /** A `listen` makes its registration live, under its event, and takes nobody else's away. */
  lemma ListenMakesLive(m: Mux, event: string)
    requires Inv(m)
    ensures var m' := ListenStep(m, event);
      && m'.owner == m.owner + [event]
      && IsLive(m', |m.owner|) && |m.owner| in HeldBy(m', event)
      && forall reg :: IsLive(m, reg) ==> IsLive(m', reg)
  {
    ListenSets(m, event);
    ListenHolds(m, event, event);
    RegisterMakesLive(m, event);
    forall reg | IsLive(m, reg)
      ensures IsLive(ListenStep(m, event), reg)
    {
      RegisterSpares(m, event, reg);
    }
  }

  lemma RegisterMakesLive(m: Mux, event: string)
    requires Inv(m)
    ensures IsLive(Register(m, event), |m.owner|)
  {
    var r := Register(m, event);
    var s := r.registrations[event];
    assert r.sets[s][|r.sets[s]| - 1] == Live(|m.owner|);
  }

  lemma RegisterSpares(m: Mux, event: string, reg: nat)
    requires IsLive(m, reg)
    ensures IsLive(Register(m, event), reg)
  {
    var r := Register(m, event);
    var t, i :| 0 <= t < |m.sets| && 0 <= i < |m.sets[t]| && m.sets[t][i] == Live(reg);
    assert r.sets[t][i] == Live(reg);
  }

  /**
    What a browser sees after any calls: one connection exactly while anyone is registered, with the key
    set last in its address if it is not empty, and one dispatcher on it for each event held.
   */
  lemma OneSourceCarriesEverything(actions: seq<Action>)
    ensures var m := Exec(INITIAL, actions);
      && ((exists e :: Held(actions, e) != []) <==> exists i :: 0 <= i < |m.sources| && m.sources[i].open)
      && (forall i, j :: 0 <= i < |m.sources| && 0 <= j < |m.sources| && m.sources[i].open && m.sources[j].open ==> i == j)
      && (forall i :: 0 <= i < |m.sources| && m.sources[i].open ==> Carries(m.sources[i], actions))
      && m.dispatchers.Keys == m.registrations.Keys
      && NoEmptySet(m)
  {
    ExecKeeps(INITIAL, actions);
    var m := Exec(INITIAL, actions);
    forall e
      ensures e in m.registrations <==> Held(actions, e) != []
    {
      ListenersFollowTheCalls(actions, e);
      RegisteredIsHeld(m, e);
    }
    ListenersFollowTheCalls(actions, "");
    OneOpenSource(m);
    if m.shared.Some? {
      SharedCarries(m, actions);
    }
  }

  lemma OneOpenSource(m: Mux)
    requires Inv(m)
    ensures (exists e :: e in m.registrations) <==> exists i :: 0 <= i < |m.sources| && m.sources[i].open
    ensures forall i :: 0 <= i < |m.sources| && m.sources[i].open ==> m.shared == Some(i)
  {
    if m.shared.Some? {
      assert m.sources[m.shared.value].open;
    }
  }

  /** The source has one dispatcher for each event held and no other, and the key set last unless that is empty. */
  ghost predicate Carries(source: Source, actions: seq<Action>) {
    && (source.keyInUrl.Some? <==> LastKey(actions).Some? && LastKey(actions) != Some(""))
    && (source.keyInUrl.Some? ==> source.keyInUrl == LastKey(actions))
    && (forall e :: Held(actions, e) != [] <==> exists d :: (e, d) in source.listeners)
    && (forall e, d :: (e, d) in source.listeners ==> d.event == e)
    && (forall e, c, d :: (e, c) in source.listeners && (e, d) in source.listeners ==> c == d)
  }

  lemma SharedCarries(m: Mux, actions: seq<Action>)
    requires Inv(m) && m.shared.Some? && m.apiKey == LastKey(actions)
    requires forall e :: e in m.registrations <==> Held(actions, e) != []
    ensures Carries(m.sources[m.shared.value], actions)
  {
    var listeners := m.sources[m.shared.value].listeners;
    forall e
      ensures Held(actions, e) != [] <==> exists d :: (e, d) in listeners
    {
      assert e in m.dispatchers <==> e in m.registrations;
      if e in m.dispatchers {
        assert (e, m.dispatchers[e]) in listeners;
      }
    }
  }

  // ---------------------------------------------------------------- dispatch

  /** What one handler call does to the module before it returns or throws. */
  datatype Handling = Handling(actions: seq<Action>, throws: bool)

  /** The state after a delivery, the registrations called in order, and those whose handler threw. */
  datatype Delivery = Delivery(mux: Mux, called: seq<nat>, threw: seq<nat>, unused: seq<Handling>)

  function ScriptGrowth(script: seq<Handling>): nat {
    if script == [] then 0 else Growth(script[0].actions) + ScriptGrowth(script[1..])
  }

  function Next(script: seq<Handling>): Handling {
    if script == [] then Handling([], false) else script[0]
  }

  function Rest(script: seq<Handling>): seq<Handling> {
    if script == [] then [] else script[1..]
  }

  /** How many turns a dispatch loop can still take. */
  function LoopBound(m: Mux, s: nat, i: nat, script: seq<Handling>): nat
    requires s < |m.sets|
  {
    ScriptGrowth(script) + if i < |m.sets[s]| then |m.sets[s]| - i else 0
  }

  /** The `for ... of` loop over set `s` from element `i` on; the `k`-th handler call does what `script[k]` says. */
  function Loop(m: Mux, s: nat, i: nat, script: seq<Handling>): Delivery
    requires s < |m.sets|
    decreases LoopBound(m, s, i, script)
  {
    if i >= |m.sets[s]| then Delivery(m, [], [], script)
    else if m.sets[s][i].Gone? then Loop(m, s, i + 1, script)
    else
      var reg := m.sets[s][i].reg;
      var handling := Next(script);
      ExecEvolves(m, handling.actions);
      var d := Loop(Exec(m, handling.actions), s, i + 1, Rest(script));
      d.(called := [reg] + d.called, threw := (if handling.throws then [reg] else []) + d.threw)
  }

  /** One event delivered to its dispatcher; a payload that does not parse reaches no handler. */
  function Deliver(m: Mux, event: string, parses: bool, script: seq<Handling>): Delivery {
    if !parses || event !in m.registrations || m.registrations[event] >= |m.sets| then Delivery(m, [], [], script)
    else Loop(m, m.registrations[event], 0, script)
  }

  /** Only what is live at or after the loop's place, or joined later, is called. */
  lemma {:induction false} LoopCalls(m: Mux, s: nat, i: nat, script: seq<Handling>)
    requires s < |m.sets|
    ensures forall r :: r in Loop(m, s, i, script).called ==>
      r >= |m.owner| || exists j :: i <= j < |m.sets[s]| && m.sets[s][j] == Live(r)
    decreases LoopBound(m, s, i, script)
  {
    if i < |m.sets[s]| {
      if m.sets[s][i].Gone? {
        LoopCalls(m, s, i + 1, script);
      } else {
        var m1 := Exec(m, Next(script).actions);
        ExecEvolves(m, Next(script).actions);
        LoopCalls(m1, s, i + 1, Rest(script));
      }
    }
  }

  lemma LoopSkipsGap(m: Mux, s: nat, i: nat, script: seq<Handling>)
    requires s < |m.sets| && i < |m.sets[s]| && m.sets[s][i].Gone?
    ensures Loop(m, s, i, script) == Loop(m, s, i + 1, script)
  {
  }

  lemma LoopCallsHead(m: Mux, s: nat, i: nat, script: seq<Handling>)
    requires s < |m.sets| && i < |m.sets[s]| && m.sets[s][i].Live?
    ensures s < |Exec(m, Next(script).actions).sets|
    ensures Loop(m, s, i, script).called
         == [m.sets[s][i].reg] + Loop(Exec(m, Next(script).actions), s, i + 1, Rest(script)).called
  {
    ExecEvolves(m, Next(script).actions);
  }

  lemma HeadIsNotCalledAgain(m: Mux, s: nat, i: nat, actions: seq<Action>, script: seq<Handling>)
    requires s < |m.sets| && SetOk(m.owner, m.registrations, s, m.sets[s])
    requires i < |m.sets[s]| && m.sets[s][i].Live? && s < |Exec(m, actions).sets|
    ensures m.sets[s][i].reg !in Loop(Exec(m, actions), s, i + 1, script).called
  {
    var reg := m.sets[s][i].reg;
    var m1 := Exec(m, actions);
    ExecEvolves(m, actions);
    LoopCalls(m1, s, i + 1, script);
    assert forall j :: i + 1 <= j < |m.sets[s]| ==> m.sets[s][j] != Live(reg);
    assert forall j :: i + 1 <= j < |m1.sets[s]| ==> m1.sets[s][j] != Live(reg);
  }

  /** The call of the head and the calls after it. */
  lemma HeadThenRest(m: Mux, s: nat, i: nat, script: seq<Handling>, reg: nat, rest: seq<nat>)
    requires s < |m.sets| && SetOk(m.owner, m.registrations, s, m.sets[s])
    requires i < |m.sets[s]| && m.sets[s][i].Live? && s < |Exec(m, Next(script).actions).sets|
    requires rest == Loop(Exec(m, Next(script).actions), s, i + 1, Rest(script)).called
    requires multiset(rest)[reg] <= 1
    ensures multiset(Loop(m, s, i, script).called)[reg] <= 1
  {
    var head := m.sets[s][i].reg;
    HeadIsNotCalledAgain(m, s, i, Next(script).actions, Rest(script));
    LoopCallsHead(m, s, i, script);
    assert multiset([head] + rest) == multiset{head} + multiset(rest);
    assert head !in multiset(rest);
  }

  lemma SetStaysOk(m0: Mux, past: seq<Action>, s: nat)
    requires Inv(m0) && s < |Exec(m0, past).sets|
    ensures var m := Exec(m0, past); SetOk(m.owner, m.registrations, s, m.sets[s])
  {
    ExecKeeps(m0, past);
  }

  lemma {:induction false} LoopCallsOnceAfter(m0: Mux, past: seq<Action>, s: nat, i: nat, script: seq<Handling>, reg: nat)
    requires Inv(m0) && s < |Exec(m0, past).sets|
    ensures multiset(Loop(Exec(m0, past), s, i, script).called)[reg] <= 1
    decreases LoopBound(Exec(m0, past), s, i, script)
  {
    var m, actions := Exec(m0, past), Next(script).actions;
    if i < |m.sets[s]| {
      if m.sets[s][i].Gone? {
        LoopCallsOnceAfter(m0, past, s, i + 1, script, reg);
        LoopSkipsGap(m, s, i, script);
      } else {
        ExecEvolves(m, actions);
        ExecConcat(m0, past, actions);
        LoopCallsOnceAfter(m0, past + actions, s, i + 1, Rest(script), reg);
        SetStaysOk(m0, past, s);
        HeadThenRest(m, s, i, script, reg, Loop(Exec(m, actions), s, i + 1, Rest(script)).called);
      }
    }
  }

  /** Nobody is called twice. */
  lemma LoopCallsOnce(m: Mux, s: nat, i: nat, script: seq<Handling>, reg: nat)
    requires Inv(m) && s < |m.sets|
    ensures multiset(Loop(m, s, i, script).called)[reg] <= 1
  {
    LoopCallsOnceAfter(m, [], s, i, script, reg);
  }

  /** Whoever keeps its place in the set to the end is called. */
  lemma {:induction false} LoopReaches(m: Mux, s: nat, i: nat, script: seq<Handling>, j: nat)
    requires s < |m.sets| && i <= j < |m.sets[s]|
    ensures SetsEvolve(m, Loop(m, s, i, script).mux)
    ensures var d := Loop(m, s, i, script); d.mux.sets[s][j].Live? ==> d.mux.sets[s][j].reg in d.called
    decreases LoopBound(m, s, i, script)
  {
    LoopEvolves(m, s, i, script);
    if m.sets[s][i].Gone? {
      if i < j {
        LoopReaches(m, s, i + 1, script, j);
      }
    } else {
      var m1 := Exec(m, Next(script).actions);
      ExecEvolves(m, Next(script).actions);
      if i < j {
        LoopReaches(m1, s, i + 1, Rest(script), j);
      }
    }
  }

  lemma {:induction false} LoopEvolves(m: Mux, s: nat, i: nat, script: seq<Handling>)
    requires s < |m.sets|
    ensures SetsEvolve(m, Loop(m, s, i, script).mux)
    decreases LoopBound(m, s, i, script)
  {
    if i < |m.sets[s]| {
      if m.sets[s][i].Gone? {
        LoopEvolves(m, s, i + 1, script);
      } else {
        var m1 := Exec(m, Next(script).actions);
        ExecEvolves(m, Next(script).actions);
        LoopEvolves(m1, s, i + 1, Rest(script));
        SetsEvolveTransitively(m, m1, Loop(m, s, i, script).mux);
      }
    }
  }

  lemma LiveAtOnePlace(m: Mux, reg: nat, s: nat, i: nat, t: nat, j: nat)
    requires Inv(m) && s < |m.sets| && i < |m.sets[s]| && m.sets[s][i] == Live(reg)
    requires t < |m.sets| && j < |m.sets[t]| && m.sets[t][j] == Live(reg)
    ensures s == t && i == j && reg < |m.owner| && m.owner[reg] in m.registrations && m.registrations[m.owner[reg]] == s
  {
    assert SetOk(m.owner, m.registrations, s, m.sets[s]);
    assert SetOk(m.owner, m.registrations, t, m.sets[t]);
  }

  lemma SurvivorIsCalled(m: Mux, s: nat, script: seq<Handling>, reg: nat, i: nat, d: Delivery)
    requires Inv(m) && s < |m.sets| && i < |m.sets[s]| && m.sets[s][i] == Live(reg) && reg < |m.owner|
    requires d == Loop(m, s, 0, script) && IsLive(d.mux, reg)
    ensures reg in d.called
  {
    LoopReaches(m, s, 0, script, i);
    var t, j :| 0 <= t < |d.mux.sets| && 0 <= j < |d.mux.sets[t]| && d.mux.sets[t][j] == Live(reg);
    assert t < |m.sets| && j < |m.sets[t]| && m.sets[t][j] == Live(reg);
    LiveAtOnePlace(m, reg, s, i, t, j);
  }

  /** Each registration that lasts through the delivery is called exactly once, whatever the handlers do or throw. */
  lemma SurvivorsAreCalledOnce(m: Mux, event: string, script: seq<Handling>, reg: nat)
    requires Inv(m) && reg < |m.owner| && m.owner[reg] == event && IsLive(m, reg)
    requires IsLive(Deliver(m, event, true, script).mux, reg)
    ensures multiset(Deliver(m, event, true, script).called)[reg] == 1
  {
    var d := Deliver(m, event, true, script);
    var s, i :| 0 <= s < |m.sets| && 0 <= i < |m.sets[s]| && m.sets[s][i] == Live(reg);
    LiveAtOnePlace(m, reg, s, i, s, i);
    SurvivorIsCalled(m, s, script, reg, i, d);
    LoopCallsOnce(m, s, 0, script, reg);
    assert reg in multiset(d.called);
  }

  lemma {:induction false} ExecUnlistenKills(m: Mux, actions: seq<Action>, reg: nat)
    requires Inv(m) && reg < |m.owner| && Unlisten(reg) in actions
    ensures !IsLive(Exec(m, actions), reg) && reg < |Exec(m, actions).owner|
    decreases |actions|
  {
    var m1 := Step(m, actions[0]);
    StepKeeps(m, actions[0]);
    StepEvolves(m, actions[0]);
    ExecEvolves(m1, actions[1..]);
    if actions[0] == Unlisten(reg) {
      UnlistenKills(m, reg);
      DeadStaysDead(m1, Exec(m1, actions[1..]), reg);
    } else {
      ExecUnlistenKills(m1, actions[1..], reg);
    }
  }

  /** What the head's handler unlistens is not called later. */
  lemma KilledIsNotCalled(m: Mux, s: nat, i: nat, script: seq<Handling>, reg: nat)
    requires Inv(m) && s < |m.sets| && reg < |m.owner| && script != [] && Unlisten(reg) in script[0].actions
    requires s < |Exec(m, Next(script).actions).sets|
    ensures reg !in Loop(Exec(m, Next(script).actions), s, i + 1, Rest(script)).called
  {
    var m1 := Exec(m, Next(script).actions);
    ExecUnlistenKills(m, script[0].actions, reg);
    LoopCalls(m1, s, i + 1, Rest(script));
  }

  /** The calls after the `k`-th handler call. */
  function CallsAfter(m: Mux, s: nat, i: nat, script: seq<Handling>, k: nat): seq<nat>
    requires s < |m.sets|
    decreases LoopBound(m, s, i, script)
  {
    if i >= |m.sets[s]| then []
    else if m.sets[s][i].Gone? then CallsAfter(m, s, i + 1, script, k)
    else
      ExecEvolves(m, Next(script).actions);
      var m1 := Exec(m, Next(script).actions);
      if k == 0 then Loop(m1, s, i + 1, Rest(script)).called else CallsAfter(m1, s, i + 1, Rest(script), k - 1)
  }

  lemma PastHead(head: nat, rest: seq<nat>, k: nat)
    requires k <= |rest|
    ensures ([head] + rest)[k + 1..] == rest[k..]
  {
  }

  lemma {:induction false} CallsAfterIsSuffix(m: Mux, s: nat, i: nat, script: seq<Handling>, k: nat)
    requires s < |m.sets| && k < |Loop(m, s, i, script).called|
    ensures CallsAfter(m, s, i, script, k) == Loop(m, s, i, script).called[k + 1..]
    decreases LoopBound(m, s, i, script)
  {
    if m.sets[s][i].Gone? {
      LoopSkipsGap(m, s, i, script);
      CallsAfterIsSuffix(m, s, i + 1, script, k);
    } else {
      ExecEvolves(m, Next(script).actions);
      LoopCallsHead(m, s, i, script);
      var rest := Loop(Exec(m, Next(script).actions), s, i + 1, Rest(script)).called;
      PastHead(m.sets[s][i].reg, rest, k);
      if k == 0 {
        assert rest[0..] == rest;
      } else {
        CallsAfterIsSuffix(Exec(m, Next(script).actions), s, i + 1, Rest(script), k - 1);
      }
    }
  }

  lemma CallsAfterHead(m: Mux, s: nat, i: nat, script: seq<Handling>, k: nat)
    requires s < |m.sets| && i < |m.sets[s]| && m.sets[s][i].Live?
    ensures var m1 := Exec(m, Next(script).actions);
      && s < |m1.sets| && |m1.owner| >= |m.owner|
      && CallsAfter(m, s, i, script, k) ==
           if k == 0 then Loop(m1, s, i + 1, Rest(script)).called else CallsAfter(m1, s, i + 1, Rest(script), k - 1)
  {
    ExecEvolves(m, Next(script).actions);
  }

  lemma {:induction false} KilledIsNotCalledAfter(m0: Mux, past: seq<Action>, s: nat, i: nat, script: seq<Handling>, k: nat, reg: nat)
    requires Inv(m0) && s < |Exec(m0, past).sets|
    requires reg < |m0.owner| && k < |script| && Unlisten(reg) in script[k].actions
    ensures reg !in CallsAfter(Exec(m0, past), s, i, script, k)
    decreases LoopBound(Exec(m0, past), s, i, script)
  {
    var m, actions := Exec(m0, past), Next(script).actions;
    if i < |m.sets[s]| {
      if m.sets[s][i].Gone? {
        KilledIsNotCalledAfter(m0, past, s, i + 1, script, k, reg);
      } else {
        CallsAfterHead(m, s, i, script, k);
        ExecEvolves(m, actions);
        if k == 0 {
          ExecKeeps(m0, past);
          ExecEvolves(m0, past);
          KilledIsNotCalled(m, s, i, script, reg);
        } else {
          ExecConcat(m0, past, actions);
          KilledIsNotCalledAfter(m0, past + actions, s, i + 1, Rest(script), k - 1, reg);
        }
      }
    }
  }

  /** A registration that the `k`-th handler unlistens is not called after that handler. */
  lemma RemovedAreNotCalled(m: Mux, s: nat, i: nat, script: seq<Handling>, k: nat, reg: nat)
    requires Inv(m) && s < |m.sets| && reg < |m.owner|
    requires k < |script| && k < |Loop(m, s, i, script).called| && Unlisten(reg) in script[k].actions
    ensures reg !in Loop(m, s, i, script).called[k + 1..]
  {
    KilledIsNotCalledAfter(m, [], s, i, script, k, reg);
    CallsAfterIsSuffix(m, s, i, script, k);
  }

  // ---------------------------------------------------------------- one connection for each listener

  /**
    The reference: every listener owns a connection. The event goes to the connections open when
    it was sent, in the order they were opened, and skips one closed before its turn.
   */
  function PerListener(m: Mux, listeners: seq<nat>, script: seq<Handling>): (d: Delivery)
    decreases |listeners|
  {
    if listeners == [] then Delivery(m, [], [], script)
    else if !OpenConnection(m, listeners[0]) then PerListener(m, listeners[1..], script)
    else
      var handling := Next(script);
      var d := PerListener(Exec(m, handling.actions), listeners[1..], Rest(script));
      d.(called := [listeners[0]] + d.called, threw := (if handling.throws then [listeners[0]] else []) + d.threw)
  }

  predicate OpenConnection(m: Mux, reg: nat) {
    && reg < |m.owner| && m.owner[reg] in m.registrations && m.registrations[m.owner[reg]] < |m.sets|
    && Live(reg) in m.sets[m.registrations[m.owner[reg]]]
  }

  function Then(first: Delivery, second: Delivery): Delivery {
    Delivery(second.mux, first.called + second.called, first.threw + second.threw, second.unused)
  }

  lemma ThenThen(first: Delivery, second: Delivery, third: Delivery)
    ensures Then(first, Then(second, third)) == Then(Then(first, second), third)
  {
    assert first.called + (second.called + third.called) == (first.called + second.called) + third.called;
    assert first.threw + (second.threw + third.threw) == (first.threw + second.threw) + third.threw;
  }

  lemma OpenAtItsPlace(m: Mux, s: nat, i: nat, reg: nat)
    requires Inv(m) && s < |m.sets| && i < |m.sets[s]| && m.sets[s][i] in {Live(reg), Gone}
    requires forall t, j :: 0 <= t < |m.sets| && 0 <= j < |m.sets[t]| && (t != s || j != i) ==> m.sets[t][j] != Live(reg)
    ensures OpenConnection(m, reg) <==> m.sets[s][i] == Live(reg)
  {
    if m.sets[s][i] == Live(reg) {
      assert SetOk(m.owner, m.registrations, s, m.sets[s]);
    }
  }

  /** In a later state a place of an older set holds what the listener list said, or nothing. */
  ghost predicate Matches(m: Mux, s: nat, i: nat, n: nat, snapshot: seq<Entry>)
    requires s < |m.sets|
  {
    && i <= n == |snapshot| <= |m.sets[s]|
    && (forall j :: i <= j < n ==> m.sets[s][j] in {snapshot[j], Gone})
    && (forall j :: i <= j < n && snapshot[j].Live? ==>
          && snapshot[j].reg < |m.owner|
          && forall t, l :: 0 <= t < |m.sets| && 0 <= l < |m.sets[t]| && (t != s || l != j) ==> m.sets[t][l] != snapshot[j])
  }

  lemma MatchesLater(m: Mux, m1: Mux, s: nat, i: nat, n: nat, snapshot: seq<Entry>)
    requires s < |m.sets| && Matches(m, s, i, n, snapshot) && SetsEvolve(m, m1)
    ensures Matches(m1, s, i, n, snapshot)
  {
    forall j, t, l | i <= j < n && snapshot[j].Live? && 0 <= t < |m1.sets| && 0 <= l < |m1.sets[t]| && (t != s || l != j)
      ensures m1.sets[t][l] != snapshot[j]
    {
      if t < |m.sets| && l < |m.sets[t]| {
        assert m1.sets[t][l] in {m.sets[t][l], Gone};
      }
    }
  }

  /** One place of the loop against one entry of the listener list. */
  lemma SameFirstMove(m: Mux, s: nat, i: nat, n: nat, script: seq<Handling>, snapshot: seq<Entry>)
    requires Inv(m) && s < |m.sets| && Matches(m, s, i, n, snapshot) && i < n
    ensures var rest := Listeners(snapshot[i + 1..]);
      PerListener(m, Listeners(snapshot[i..]), script) ==
        if m.sets[s][i].Gone? then PerListener(m, rest, script)
        else
          var d := PerListener(Exec(m, Next(script).actions), rest, Rest(script));
          var reg := m.sets[s][i].reg;
          d.(called := [reg] + d.called, threw := (if Next(script).throws then [reg] else []) + d.threw)
  {
    var tail := snapshot[i..];
    var rest := Listeners(snapshot[i + 1..]);
    assert tail[1..] == snapshot[i + 1..];
    assert m.sets[s][i] in {snapshot[i], Gone};
    if snapshot[i].Live? {
      OpenAtItsPlace(m, s, i, snapshot[i].reg);
      assert Listeners(tail) == [snapshot[i].reg] + rest;
      assert ([snapshot[i].reg] + rest)[1..] == rest;
    } else {
      assert Listeners(tail) == rest;
    }
  }

  lemma ThenIsAssociative(reg: nat, throws: bool, first: Delivery, second: Delivery, whole: Delivery)
    requires whole == Then(first, second)
    ensures var mark := if throws then [reg] else [];
      whole.(called := [reg] + whole.called, threw := mark + whole.threw)
      == Then(first.(called := [reg] + first.called, threw := mark + first.threw), second)
  {
    var mark := if throws then [reg] else [];
    assert [reg] + whole.called == ([reg] + first.called) + second.called;
    assert mark + whole.threw == (mark + first.threw) + second.threw;
  }

  /** The shared loop first does what the listeners' own connections would have done, then serves late joiners. */
  lemma {:induction false} LoopIsPerListenerFirst(m: Mux, s: nat, i: nat, n: nat, script: seq<Handling>, snapshot: seq<Entry>)
    requires Inv(m) && s < |m.sets| && Matches(m, s, i, n, snapshot)
    ensures var first := PerListener(m, Listeners(snapshot[i..]), script);
      && s < |first.mux.sets|
      && Loop(m, s, i, script) == Then(first, Loop(first.mux, s, n, first.unused))
    decreases n - i
  {
    if i == n {
      var d := Loop(m, s, n, script);
      assert [] + d.called == d.called && [] + d.threw == d.threw;
    } else {
      SameFirstMove(m, s, i, n, script, snapshot);
      if m.sets[s][i].Live? {
        var m1 := Exec(m, Next(script).actions);
        ExecEvolves(m, Next(script).actions);
        ExecKeeps(m, Next(script).actions);
        MatchesLater(m, m1, s, i, n, snapshot);
        LoopIsPerListenerFirst(m1, s, i + 1, n, Rest(script), snapshot);
        var first := PerListener(m1, Listeners(snapshot[i + 1..]), Rest(script));
        ThenIsAssociative(m.sets[s][i].reg, Next(script).throws, first,
                          Loop(first.mux, s, n, first.unused), Loop(m1, s, i + 1, Rest(script)));
      } else {
        LoopIsPerListenerFirst(m, s, i + 1, n, script, snapshot);
        LoopSkipsGap(m, s, i, script);
      }
    }
  }

  lemma DeliveryRefines(m: Mux, event: string, script: seq<Handling>)
    requires Inv(m) && event in m.registrations
    ensures var d := Deliver(m, event, true, script);
      var first := PerListener(m, Listeners(m.sets[m.registrations[event]]), script);
      && first.called <= d.called && first.threw <= d.threw
      && (forall k :: |first.called| <= k < |d.called| ==> d.called[k] >= |m.owner|)
  {
    var s := m.registrations[event];
    var entries := m.sets[s];
    var n := |entries|;
    forall j, t, l | 0 <= j < n && entries[j].Live? && 0 <= t < |m.sets| && 0 <= l < |m.sets[t]| && (t != s || l != j)
      ensures m.sets[t][l] != entries[j]
    {
      assert SetOk(m.owner, m.registrations, s, entries);
      assert SetOk(m.owner, m.registrations, t, m.sets[t]);
    }
    assert Matches(m, s, 0, n, entries) by {
      assert SetOk(m.owner, m.registrations, s, entries);
    }
    assert entries[0..] == entries;
    LoopIsPerListenerFirst(m, s, 0, n, script, entries);
    var first := PerListener(m, Listeners(entries), script);
    var second := Loop(first.mux, s, n, first.unused);
    PerListenerEvolves(m, Listeners(entries), script);
    LoopCalls(first.mux, s, n, first.unused);
    forall k | 0 <= k < |second.called|
      ensures second.called[k] >= |m.owner|
    {
      assert second.called[k] in second.called;
    }
  }

  /**
    After any calls, dispatch over the shared source starts with what one connection for each listener
    held would have done; anyone else it calls joined during the loop.
   */
  lemma DispatchRefinesOneConnectionEach(actions: seq<Action>, event: string, script: seq<Handling>)
    ensures var m := Exec(INITIAL, actions);
      var d := Deliver(m, event, true, script);
      var first := PerListener(m, Held(actions, event), script);
      && first.called <= d.called && first.threw <= d.threw
      && (forall k :: |first.called| <= k < |d.called| ==> d.called[k] >= |Issued(actions)|)
  {
    var m := Exec(INITIAL, actions);
    ExecKeeps(INITIAL, actions);
    ListenersFollowTheCalls(actions, event);
    if event in m.registrations {
      DeliveryRefines(m, event, script);
    }
  }

  /** Of the handlers called in this order, those that throw. */
  function Throwers(listeners: seq<nat>, script: seq<Handling>): seq<nat>
    decreases |listeners|
  {
    if listeners == [] then []
    else (if Next(script).throws then [listeners[0]] else []) + Throwers(listeners[1..], Rest(script))
  }

  predicate Quiet(script: seq<Handling>) {
    forall k :: 0 <= k < |script| ==> script[k].actions == []
  }

  lemma {:induction false} QuietLoop(m: Mux, s: nat, i: nat, script: seq<Handling>)
    requires s < |m.sets| && i <= |m.sets[s]| && Quiet(script)
    ensures var d, listeners := Loop(m, s, i, script), Listeners(m.sets[s][i..]);
      d.mux == m && d.called == listeners && d.threw == Throwers(listeners, script)
    decreases |m.sets[s]| - i
  {
    if i < |m.sets[s]| {
      var entries := m.sets[s][i..];
      assert entries[1..] == m.sets[s][i + 1..];
      if entries[0].Gone? {
        LoopSkipsGap(m, s, i, script);
        QuietLoop(m, s, i + 1, script);
      } else {
        assert Exec(m, Next(script).actions) == m;
        assert Quiet(Rest(script));
        QuietLoop(m, s, i + 1, Rest(script));
        assert Listeners(entries)[1..] == Listeners(entries[1..]);
      }
    }
  }

  /** When no handler calls back into the module, a delivery calls every listener held, oldest first, throws or not; a bad payload reaches nobody. */
  lemma QuietDeliveryReachesAll(actions: seq<Action>, event: string, parses: bool, script: seq<Handling>)
    requires Quiet(script)
    ensures var m := Exec(INITIAL, actions);
      var d := Deliver(m, event, parses, script);
      && d.mux == m
      && d.called == (if parses then Held(actions, event) else [])
      && d.threw == Throwers(d.called, script)
  {
    var m := Exec(INITIAL, actions);
    ListenersFollowTheCalls(actions, event);
    if parses && event in m.registrations && m.registrations[event] < |m.sets| {
      var entries := m.sets[m.registrations[event]];
      QuietLoop(m, m.registrations[event], 0, script);
      assert entries[0..] == entries;
    }
  }

  lemma {:induction false} PerListenerEvolves(m: Mux, listeners: seq<nat>, script: seq<Handling>)
    ensures SetsEvolve(m, PerListener(m, listeners, script).mux)
    decreases |listeners|
  {
    if listeners != [] {
      if !OpenConnection(m, listeners[0]) {
        PerListenerEvolves(m, listeners[1..], script);
      } else {
        var m1 := Exec(m, Next(script).actions);
        ExecEvolves(m, Next(script).actions);
        PerListenerEvolves(m1, listeners[1..], Rest(script));
        SetsEvolveTransitively(m, m1, PerListener(m, listeners, script).mux);
      }
    }
  }

  // ---------------------------------------------------------------- the module itself

  /** The module variables of `http.ts` and the functions that update them in place. */
  class HttpEvents {
    var apiKey: Option<string>
    var sharedSource: Option<nat>
    var sourceKey: Option<string>
    var registrations: map<string, nat>
    var dispatchers: map<string, Dispatcher>
    var sets: seq<seq<Entry>>
    var sources: seq<Source>
    var owner: seq<string>
    var clock: nat

    function Snapshot(): Mux
      reads this
    {
      Mux(apiKey, sharedSource, sourceKey, registrations, dispatchers, sets, sources, owner, clock)
    }

    constructor ()
      ensures Snapshot() == INITIAL
    {
      apiKey, sharedSource, sourceKey := None, None, None;
      registrations, dispatchers := map[], map[];
      sets, sources, owner, clock := [], [], [], 0;
    }

    method Close()
      requires sharedSource.Some?
      modifies this
      ensures Snapshot() == CloseShared(old(Snapshot()))
    {
      var s := sharedSource.value;
      if s < |sources| {
        sources := sources[s := sources[s].(open := false)];
      }
      sharedSource := None;
    }

    method Attach(event: string)
      modifies this
      ensures Snapshot() == AttachDispatcher(old(Snapshot()), event)
    {
      if sharedSource.None? || sharedSource.value >= |sources| || event in dispatchers {
        return;
      }
      var d := Dispatcher(event, clock);
      clock := clock + 1;
      dispatchers := dispatchers[event := d];
      var s := sharedSource.value;
      sources := sources[s := sources[s].(listeners := sources[s].listeners + {(event, d)})];
    }

    /** Attach a fresh dispatcher for every registered event to the source just opened. */
    method AttachAll(stamp: nat)
      requires sharedSource.Some? && sharedSource.value < |sources| && dispatchers == map[]
      requires sources[sharedSource.value].listeners == {}
      modifies this`dispatchers, this`sources
      ensures dispatchers == map e | e in registrations.Keys :: Dispatcher(e, stamp)
      ensures sources == WithListeners(old(sources), sharedSource.value, Attached(dispatchers))
    {
      var s := sharedSource.value;
      var todo := registrations.Keys;
      assert Attached(dispatchers) == {};
      while todo != {}
        invariant todo <= registrations.Keys
        invariant dispatchers == map e | e in registrations.Keys - todo :: Dispatcher(e, stamp)
        invariant sources == WithListeners(old(sources), s, Attached(dispatchers))
        decreases |todo|
      {
        var event :| event in todo;
        AttachTo(s, event, Dispatcher(event, stamp));
        todo := todo - {event};
      }
    }

    /** `dispatchers.set` and `addEventListener`. */
    method AttachTo(s: nat, event: string, d: Dispatcher)
      requires s < |sources| && event !in dispatchers && sources[s].listeners == Attached(dispatchers)
      modifies this`dispatchers, this`sources
      ensures dispatchers == old(dispatchers)[event := d]
      ensures sources == WithListeners(old(sources), s, Attached(dispatchers))
    {
      AttachedAdds(dispatchers, event, d);
      dispatchers := dispatchers[event := d];
      sources := sources[s := sources[s].(listeners := sources[s].listeners + {(event, d)})];
    }

    /** Reopens when the source is absent or was opened with another key. */
    method Ensure()
      modifies this
      ensures Snapshot() == EnsureSource(old(Snapshot()))
    {
      if sharedSource.Some? && sourceKey == apiKey {
        return;
      }
      if sharedSource.Some? {
        Close();
      }
      dispatchers := map[];
      sources := sources + [Source(KeyInUrl(apiKey), true, {})];
      sharedSource := Some(|sources| - 1);
      sourceKey := apiKey;
      AttachAll(clock);
      clock := clock + 1;
    }

    method SetKey(key: Option<string>)
      modifies this
      ensures Snapshot() == Step(old(Snapshot()), SetApiKey(key))
    {
      apiKey := key;
      if sharedSource.Some? && sourceKey != apiKey {
        Ensure();
      }
    }

    method AddListener(event: string) returns (reg: nat)
      modifies this
      ensures reg == |old(owner)|
      ensures Snapshot() == Step(old(Snapshot()), Listen(event))
    {
      reg := |owner|;
      owner := owner + [event];
      if event !in registrations || registrations[event] >= |sets| {
        registrations := registrations[event := |sets|];
        sets := sets + [[]];
      }
      var s := registrations[event];
      sets := sets[s := sets[s] + [Live(reg)]];
      assert [] + [Live(reg)] == [Live(reg)];
      assert old(sets) + [[Live(reg)]] == (old(sets) + [[]])[|old(sets)| := [] + [Live(reg)]];
      assert Snapshot() == Register(old(Snapshot()), event);
      Ensure();
      Attach(event);
    }

    method RemoveListener(reg: nat)
      modifies this
      ensures Snapshot() == Step(old(Snapshot()), Unlisten(reg))
    {
      if reg >= |owner| || owner[reg] !in registrations || registrations[owner[reg]] >= |sets| {
        return;
      }
      var event := owner[reg];
      var s := registrations[event];
      sets := sets[s := Remove(sets[s], reg)];
      if Empty(sets[s]) {
        DropEvent(event);
      }
      CloseIfIdle();
    }

    /** The last registration of an event is gone: so are its set and its dispatcher. */
    method DropEvent(event: string)
      modifies this
      ensures Snapshot() == Detach(old(Snapshot()), event)
    {
      registrations := registrations - {event};
      if event in dispatchers && sharedSource.Some? && sharedSource.value < |sources| {
        var open := sharedSource.value;
        sources := sources[open := sources[open].(listeners := sources[open].listeners - {(event, dispatchers[event])})];
      }
      dispatchers := dispatchers - {event};
    }

    method CloseIfIdle()
      modifies this
      ensures Snapshot() == TeardownIfIdle(old(Snapshot()))
    {
      if registrations == map[] && sharedSource.Some? {
        Close();
        sourceKey := None;
        dispatchers := map[];
      }
    }

    method Perform(actions: seq<Action>)
      modifies this
      ensures Snapshot() == Exec(old(Snapshot()), actions)
    {
      for k := 0 to |actions|
        invariant Exec(old(Snapshot()), actions) == Exec(Snapshot(), actions[k..])
      {
        assert actions[k..][1..] == actions[k + 1..];
        match actions[k] {
          case SetApiKey(key) => SetKey(key);
          case Listen(event) => var _ := AddListener(event);
          case Unlisten(reg) => RemoveListener(reg);
        }
      }
    }

    /** One turn of the dispatcher's loop: the handler runs inside a `try`, so a throw is only noted. */
    method Visit(s: nat, i: nat, script: seq<Handling>) returns (called: seq<nat>, threw: seq<nat>, rest: seq<Handling>)
      requires s < |sets| && i < |sets[s]|
      modifies this
      ensures s < |sets|
      ensures Loop(old(Snapshot()), s, i, script)
           == Then(Delivery(Snapshot(), called, threw, rest), Loop(Snapshot(), s, i + 1, rest))
      ensures LoopBound(Snapshot(), s, i + 1, rest) < LoopBound(old(Snapshot()), s, i, script)
    {
      called, threw, rest := [], [], script;
      if sets[s][i].Live? {
        called := [sets[s][i].reg];
        ExecEvolves(Snapshot(), Next(script).actions);
        Perform(Next(script).actions);
        if Next(script).throws {
          threw := called;
        }
        rest := Rest(script);
      }
    }

    /** The dispatcher of one event: the live set is walked in place while handlers run. */
    method Dispatch(event: string, parses: bool, script: seq<Handling>)
      returns (called: seq<nat>, threw: seq<nat>)
      modifies this
      ensures var d := Deliver(old(Snapshot()), event, parses, script);
        Snapshot() == d.mux && called == d.called && threw == d.threw
    {
      called, threw := [], [];
      if !parses || event !in registrations || registrations[event] >= |sets| {
        return;
      }
      var s := registrations[event];
      var i := 0;
      var rest := script;
      ghost var whole := Loop(Snapshot(), s, 0, script);
      while i < |sets[s]|
        invariant s < |sets|
        invariant whole == Then(Delivery(Snapshot(), called, threw, rest), Loop(Snapshot(), s, i, rest))
        decreases LoopBound(Snapshot(), s, i, rest)
      {
        var c, t, r := Visit(s, i, rest);
        ThenThen(Delivery(Snapshot(), called, threw, rest), Delivery(Snapshot(), c, t, r), Loop(Snapshot(), s, i + 1, r));
        called, threw, rest := called + c, threw + t, r;
        i := i + 1;
      }
    }
  }
}
