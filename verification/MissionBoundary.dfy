/**
 What one mission leaves to the next. Starting a mission resets caches and backend, but the
 queues of the dispatcher keep the commands that were sent before.
 */
module MissionBoundary {
  import opened Wrappers
  import opened Core
  import opened GapFill
  import opened Frames
  import opened Subsequences
  import opened Dispatcher
  import opened Recorder
  import opened RecorderProofs
  import opened ExportTypes
  import opened ExportSpec
  import opened Equivalence
  import opened MissionExport
  import opened Timeline

  // ---- isolation of missions ----

  /** The host after more actions, from any state. */
  function HostFrom(cfgs: map<string, Config>, h: Host, acts: seq<HostAction>): Host {
    if acts == [] then h else HostNext(cfgs, HostFrom(cfgs, h, acts[..|acts| - 1]), acts[|acts| - 1])
  }

  /** The queues differ in their counters at most. */
  predicate SameQueue(p: Pipe<Command>, q: Pipe<Command>) {
    p.buffer == q.buffer && p.blocked == q.blocked && p.inFlight == q.inFlight && p.open == q.open
  }

  ghost predicate SameQueues(g: Host, h: Host) {
    g.pipes.Keys == h.pipes.Keys && forall name :: name in g.pipes ==> SameQueue(g.pipes[name], h.pipes[name])
  }

  lemma SameQueueStep(cfg: Config, p: Pipe<Command>, q: Pipe<Command>, a: Action<Command>)
    requires SameQueue(p, q)
    ensures SameQueue(Next(cfg, p, a).0, Next(cfg, q, a).0)
  {
  }

  lemma SameQueuesStep(cfgs: map<string, Config>, g: Host, h: Host, a: HostAction)
    requires SameQueues(g, h)
    ensures SameQueues(HostNext(cfgs, g, a), HostNext(cfgs, h, a))
    ensures g.recorder == h.recorder ==> HostNext(cfgs, g, a).recorder == HostNext(cfgs, h, a).recorder
  {
    if a.On? && a.name in cfgs && a.name in g.pipes {
      SameQueueStep(cfgs[a.name], g.pipes[a.name], h.pipes[a.name], a.action);
    }
  }

  lemma {:induction false} SameQueuesRun(cfgs: map<string, Config>, g: Host, h: Host, acts: seq<HostAction>)
    requires SameQueues(g, h) && g.recorder == h.recorder
    ensures SameQueues(HostFrom(cfgs, g, acts), HostFrom(cfgs, h, acts))
    ensures HostFrom(cfgs, g, acts).recorder == HostFrom(cfgs, h, acts).recorder
  {
    if acts != [] {
      var before := acts[..|acts| - 1];
      SameQueuesRun(cfgs, g, h, before);
      SameQueuesStep(cfgs, HostFrom(cfgs, g, before), HostFrom(cfgs, h, before), acts[|acts| - 1]);
    }
  }

  /** The host right after a mission start. */
  function Started(cfgs: map<string, Config>, h: Host, m: Mission, w: World): Host {
    HostNext(cfgs, h, Direct(StartMission(m, w)))
  }

  /**
   Whatever was recorded before: two hosts whose queues hold the same commands record the same
   from a mission start on, for every further run.
   */
  lemma SameQueuesSameMission(cfgs: map<string, Config>, g: Host, h: Host, m: Mission, w: World, acts: seq<HostAction>)
    requires SameQueues(g, h)
    ensures HostFrom(cfgs, Started(cfgs, g, m, w), acts).recorder
         == HostFrom(cfgs, Started(cfgs, h, m, w), acts).recorder
  {
    SameQueuesRun(cfgs, Started(cfgs, g, m, w), Started(cfgs, h, m, w), acts);
  }

  /** Nothing waits in the queue and no handler is running. */
  predicate Idle(p: Pipe<Command>) { p.buffer == [] && p.blocked == [] && p.inFlight.None? }

  /** All queues are idle, and open where those of the other host are. */
  ghost predicate IdleAlike(g: Host, h: Host) {
    && g.pipes.Keys == h.pipes.Keys
    && forall name :: name in g.pipes ==>
         Idle(g.pipes[name]) && Idle(h.pipes[name]) && g.pipes[name].open == h.pipes[name].open
  }

  /** With idle queues a mission does not depend on anything before its start. */
  lemma MissionsAreIsolated(cfgs: map<string, Config>, g: Host, h: Host, m: Mission, w: World, acts: seq<HostAction>)
    requires IdleAlike(g, h)
    ensures HostFrom(cfgs, Started(cfgs, g, m, w), acts).recorder
         == HostFrom(cfgs, Started(cfgs, h, m, w), acts).recorder
  {
    forall name | name in g.pipes ensures SameQueue(g.pipes[name], h.pipes[name]) {
      assert Idle(g.pipes[name]) && Idle(h.pipes[name]);
    }
    SameQueuesSameMission(cfgs, g, h, m, w, acts);
  }

  /** The same host with nothing left in its queues. */
  function Flushed(h: Host): Host {
    h.(pipes := map name | name in h.pipes :: h.pipes[name].(buffer := [], blocked := [], inFlight := None))
  }

  /** A mission started now is recorded as if the queues had been empty, in every further run. */
  ghost predicate Isolated(cfgs: map<string, Config>, h: Host, m: Mission, w: World) {
    forall acts :: HostFrom(cfgs, Started(cfgs, h, m, w), acts).recorder
                == HostFrom(cfgs, Started(cfgs, Flushed(h), m, w), acts).recorder
  }

  ghost predicate AllIdle(h: Host) { forall name :: name in h.pipes ==> Idle(h.pipes[name]) }

  /** The command of a queue that is handled next. */
  function Oldest(p: Pipe<Command>): Command
    requires !Idle(p)
  {
    if p.inFlight.Some? then p.inFlight.value else if p.buffer != [] then p.buffer[0] else p.blocked[0]
  }

  /** One event sent to a queue, and one handler run to its end. */
  function Probe(name: string, e: GeneralEvent): seq<HostAction> {
    [On(name, OpenGate, true)] + [On(name, Admit(0), true)] + [On(name, Send(OnEvent(General(e))), true)]
    + [On(name, Receive, true)] + [On(name, Finish(false), true)]
  }

  /** The queue after all of the probe but its last action. */
  function Probed(cfg: Config, p: Pipe<Command>, e: GeneralEvent): Pipe<Command> {
    var ready := Next(cfg, p, OpenGate).0;
    var admitted := Next(cfg, ready, Admit(0)).0;
    var sent := Next(cfg, admitted, Send(OnEvent(General(e)))).0;
    Next(cfg, sent, Receive).0
  }

  lemma ProbeHolds(cfg: Config, p: Pipe<Command>, e: GeneralEvent)
    requires cfg.capacity > 0
    ensures Probed(cfg, p, e).inFlight == Some(if Idle(p) then OnEvent(General(e)) else Oldest(p))
  {
  }

  lemma HostFromSnoc(cfgs: map<string, Config>, h: Host, acts: seq<HostAction>, a: HostAction)
    ensures HostFrom(cfgs, h, acts + [a]) == HostNext(cfgs, HostFrom(cfgs, h, acts), a)
  {
    assert (acts + [a])[..|acts|] == acts;
  }

  lemma HostFromQueue(cfgs: map<string, Config>, h: Host, name: string, acts: seq<HostAction>, a: Action<Command>)
    requires name in cfgs && name in HostFrom(cfgs, h, acts).pipes && !a.Finish?
    ensures var g, k := HostFrom(cfgs, h, acts), HostFrom(cfgs, h, acts + [On(name, a, true)]);
      name in k.pipes && k.pipes[name] == Next(cfgs[name], g.pipes[name], a).0 && k.recorder == g.recorder
  {
    HostFromSnoc(cfgs, h, acts, On(name, a, true));
  }

  lemma ProbeRuns(cfgs: map<string, Config>, h: Host, name: string, e: GeneralEvent)
    requires name in cfgs && name in h.pipes && cfgs[name].capacity > 0
    ensures HostFrom(cfgs, h, Probe(name, e)).recorder
         == Step(h.recorder, if Idle(h.pipes[name]) then OnEvent(General(e)) else Oldest(h.pipes[name])).0
  {
    var a1, a2 := On(name, OpenGate, true), On(name, Admit(0), true);
    var a3, a4 := On(name, Send(OnEvent(General(e))), true), On(name, Receive, true);
    assert [] + [a1] == [a1];
    HostFromQueue(cfgs, h, name, [], OpenGate);
    HostFromQueue(cfgs, h, name, [a1], Admit(0));
    HostFromQueue(cfgs, h, name, [a1] + [a2], Send(OnEvent(General(e))));
    HostFromQueue(cfgs, h, name, [a1] + [a2] + [a3], Receive);
    HostFromSnoc(cfgs, h, [a1] + [a2] + [a3] + [a4], On(name, Finish(false), true));
    ProbeHolds(cfgs[name], h.pipes[name], e);
  }

  lemma NotIsolated(cfgs: map<string, Config>, h: Host, m: Mission, w: World, name: string)
    requires name in cfgs && name in h.pipes && cfgs[name].capacity > 0 && !Idle(h.pipes[name])
    ensures !Isolated(cfgs, h, m, w)
  {
    var e1, e2 := GeneralEvent(1, "", "", None), GeneralEvent(2, "", "", None);
    var g, f := Started(cfgs, h, m, w), Started(cfgs, Flushed(h), m, w);
    assert Idle(f.pipes[name]);
    ProbeRuns(cfgs, g, name, e1);
    ProbeRuns(cfgs, g, name, e2);
    ProbeRuns(cfgs, f, name, e1);
    ProbeRuns(cfgs, f, name, e2);
    EventsDiffer(f.recorder, e1, e2);
  }

  lemma EventsDiffer(s: Snapshot, e1: GeneralEvent, e2: GeneralEvent)
    requires e1 != e2
    ensures Step(s, OnEvent(General(e1))).0 != Step(s, OnEvent(General(e2))).0
  {
    var n := |s.store.events.general|;
    assert Step(s, OnEvent(General(e1))).0.store.events.general[n] == e1;
    assert Step(s, OnEvent(General(e2))).0.store.events.general[n] == e2;
  }

  /** A mission is isolated from what came before if and only if all queues are idle when it starts. */
  lemma IsolationExact(cfgs: map<string, Config>, h: Host, m: Mission, w: World)
    requires h.pipes.Keys == cfgs.Keys && forall name :: name in cfgs ==> cfgs[name].capacity > 0
    ensures Isolated(cfgs, h, m, w) <==> AllIdle(h)
  {
    if AllIdle(h) {
      forall acts ensures HostFrom(cfgs, Started(cfgs, h, m, w), acts).recorder
                       == HostFrom(cfgs, Started(cfgs, Flushed(h), m, w), acts).recorder
      {
        forall name | name in h.pipes ensures SameQueue(h.pipes[name], Flushed(h).pipes[name]) {
          assert Idle(h.pipes[name]);
        }
        SameQueuesSameMission(cfgs, h, Flushed(h), m, w, acts);
      }
    } else {
      var name :| name in h.pipes && !Idle(h.pipes[name]);
      NotIsolated(cfgs, h, m, w, name);
    }
  }

  /** Without: the command in a handler's hands is carried out in the mission started meanwhile. */
  lemma OldCommandRuns(cfgs: map<string, Config>, h: Host, name: string, c: Command, m: Mission, w: World)
    requires name in cfgs && name in h.pipes && h.pipes[name].inFlight == Some(c)
    ensures HostNext(cfgs, Started(cfgs, h, m, w), On(name, Finish(false), true)).recorder
         == Step(Step(h.recorder, StartMission(m, w)).0, c).0
  {
  }

  /** So an event sent before a mission starts can be recorded in it. */
  lemma OldEventRecorded(cfgs: map<string, Config>, h: Host, name: string, e: GeneralEvent, m: Mission, w: World)
    requires name in cfgs && name in h.pipes && h.pipes[name].inFlight == Some(OnEvent(General(e)))
    ensures HostNext(cfgs, Started(cfgs, h, m, w), On(name, Finish(false), true)).recorder.store.events.general == [e]
    ensures HostNext(cfgs, Started(cfgs, h, m, w), On(name, Finish(false), true)).recorder.store.mission == Some(m)
  {
    OldCommandRuns(cfgs, h, name, OnEvent(General(e)), m, w);
  }

  // ---- timelines across missions ----

  /** The states of a soldier in the store. */
  function StoredStates(s: Snapshot, id: uint16): seq<SoldierState> {
    if id in s.store.soldiers then RawStates(s.store.soldiers[id].states) else []
  }

  /** The states of a soldier on their way through the queue. */
  function Waiting(p: Pipe<Command>, id: uint16): seq<SoldierState> {
    States(id, InFlight(p)) + States(id, p.buffer)
  }

  /** Stored and waiting states of a soldier are some of the given ones, in order. */
  ghost predicate Accounted(s: Snapshot, p: Pipe<Command>, id: uint16, sent: seq<SoldierState>) {
    p.blocked == [] && IsSubsequence(StoredStates(s, id) + Waiting(p, id), sent)
  }

  /** What an action of the host sends for a soldier. */
  function SentFor(a: HostAction, id: uint16): seq<SoldierState> {
    if a.On? && a.name == SOLDIER_STATE && a.action.Send? then StateFor(id, a.action.event) else []
  }

  lemma StatesOfOne(id: uint16, c: Command)
    ensures States(id, [c]) == StateFor(id, c)
  {
    StatesMore(id, [], [c]);
    assert [] + [c] == [c];
    assert [] + StateFor(id, c) == StateFor(id, c);
  }

  lemma StatesConcat(id: uint16, xs: seq<Command>, ys: seq<Command>)
    ensures States(id, xs + ys) == States(id, xs) + States(id, ys)
  {
    FlatMapConcat((c: Command) => StateFor(id, c), xs, ys);
  }

  lemma FirstStates(id: uint16, xs: seq<Command>)
    requires xs != []
    ensures States(id, xs) == States(id, [xs[0]]) + States(id, xs[1..])
  {
    StatesConcat(id, [xs[0]], xs[1..]);
    assert [xs[0]] + xs[1..] == xs;
  }

  lemma SendWaiting(cfg: Config, p: Pipe<Command>, id: uint16, e: Command)
    requires !cfg.blocking && p.blocked == []
    ensures var q := Next(cfg, p, Send(e)).0;
      && q.blocked == []
      && Waiting(q, id) == Waiting(p, id) + if |p.buffer| < cfg.capacity then StateFor(id, e) else []
  {
    if |p.buffer| < cfg.capacity {
      StatesConcat(id, p.buffer, [e]);
      StatesOfOne(id, e);
      assert States(id, InFlight(p)) + (States(id, p.buffer) + StateFor(id, e)) == Waiting(p, id) + StateFor(id, e);
    } else {
      assert Waiting(p, id) + [] == Waiting(p, id);
    }
  }

  lemma ReceiveWaiting(cfg: Config, p: Pipe<Command>, id: uint16)
    ensures var q := Next(cfg, p, Receive).0; q.blocked == p.blocked && Waiting(q, id) == Waiting(p, id)
  {
    if p.open && p.inFlight.None? && p.buffer != [] {
      FirstStates(id, p.buffer);
      assert States(id, []) + States(id, p.buffer) == States(id, p.buffer);
    }
  }

  lemma FinishWaiting(cfg: Config, p: Pipe<Command>, id: uint16, panics: bool)
    ensures var q := Next(cfg, p, Finish(panics)).0;
      q.blocked == p.blocked && Waiting(p, id) == States(id, InFlight(p)) + Waiting(q, id)
  {
    var q := Next(cfg, p, Finish(panics)).0;
    assert Waiting(q, id) == [] + States(id, p.buffer) == States(id, p.buffer);
  }

  /** No action but sending and finishing changes what waits in a queue that does not block. */
  lemma OtherWaiting(cfg: Config, p: Pipe<Command>, id: uint16, a: Action<Command>)
    requires p.blocked == [] && !a.Send? && !a.Finish?
    ensures var q := Next(cfg, p, a).0; q.blocked == [] && Waiting(q, id) == Waiting(p, id)
  {
    if a.Receive? {
      ReceiveWaiting(cfg, p, id);
    }
  }

  function RecordStates(records: map<uint16, SoldierRecord>, id: uint16): seq<SoldierState> {
    if id in records then RawStates(records[id].states) else []
  }

  /** A command adds a state of the soldier, leaves the stored ones alone or takes them away. */
  lemma StoredRecordStep(cache: map<uint16, Soldier>, records: map<uint16, SoldierRecord>, id: uint16,
                         c: SoldierCommand)
    returns (f: Fate)
    ensures RecordStates(StepSoldier(cache, records, c).1, id)
         == Front(RecordStates(records, id), StateFor(id, OnSoldier(c)), f)
  {
    var after := StepSoldier(cache, records, c).1;
    if c.RecordSoldier? && c.state.soldierId == id && id in cache && id in records {
      assert Raw(FillState(c.state, cache[id])) == Raw(c.state);
      assert RecordStates(after, id) == RecordStates(records, id) + [Raw(c.state)];
      f := Grown;
    } else if c.NewSoldier? && c.soldier.id == id {
      f := Gone;
    } else {
      f := Kept;
    }
  }

  lemma StoredStatesStep(s: Snapshot, id: uint16, c: Command) returns (f: Fate)
    ensures StoredStates(Step(s, c).0, id) == Front(StoredStates(s, id), StateFor(id, c), f)
  {
    if c.OnSoldier? {
      f := StoredRecordStep(s.caches.soldiers, s.store.soldiers, id, c.soldierCommand);
    } else if c.StartMission? || (c.EndMission? && s.store.mission.Some?) {
      f := Gone;
    } else {
      f := Kept;
    }
  }

  lemma Nothing(c: seq<SoldierState>)
    ensures [] + c == c && c + [] == c
  {
  }

  /** A command that brings no state of the soldier. */
  lemma OtherCommandAccounted(s: Snapshot, p: Pipe<Command>, id: uint16, sent: seq<SoldierState>, c: Command)
    requires Accounted(s, p, id, sent) && StateFor(id, c) == []
    ensures Accounted(Step(s, c).0, p, id, sent)
  {
    var f := StoredStatesStep(s, id, c);
    Nothing(Waiting(p, id));
    MiddleMoved(StoredStates(s, id), [], Waiting(p, id), sent, f);
  }

  lemma SendAccounted(cfg: Config, s: Snapshot, p: Pipe<Command>, id: uint16, sent: seq<SoldierState>, e: Command)
    requires !cfg.blocking && Accounted(s, p, id, sent)
    ensures Accounted(s, Next(cfg, p, Send(e)).0, id, sent + StateFor(id, e))
  {
    SendWaiting(cfg, p, id, e);
    var x := if |p.buffer| < cfg.capacity then StateFor(id, e) else [];
    AddedAtEnd(StoredStates(s, id), Waiting(p, id), x, sent, StateFor(id, e));
  }

  lemma AddedAtEnd(stored: seq<SoldierState>, waiting: seq<SoldierState>, x: seq<SoldierState>,
                   sent: seq<SoldierState>, y: seq<SoldierState>)
    requires IsSubsequence(stored + waiting, sent) && |y| <= 1 && (x == y || x == [])
    ensures IsSubsequence(stored + (waiting + x), sent + y)
  {
    Extended(stored + waiting, sent, x, y);
    Associate(stored, waiting, x);
  }

  lemma FinishAccounted(cfg: Config, s: Snapshot, p: Pipe<Command>, id: uint16, sent: seq<SoldierState>,
                        panics: bool, effect: bool)
    requires Accounted(s, p, id, sent)
    ensures var reached := Reaches(p, Finish(panics), effect);
      Accounted(if reached == [] then s else Step(s, reached[0]).0, Next(cfg, p, Finish(panics)).0, id, sent)
  {
    FinishWaiting(cfg, p, id, panics);
    var reached := Reaches(p, Finish(panics), effect);
    var rest := Waiting(Next(cfg, p, Finish(panics)).0, id);
    if reached == [] {
      MiddleMoved(StoredStates(s, id), States(id, InFlight(p)), rest, sent, Kept);
    } else {
      StatesOfOne(id, reached[0]);
      var f := StoredStatesStep(s, id, reached[0]);
      assert InFlight(p) == [reached[0]];
      MiddleMoved(StoredStates(s, id), States(id, InFlight(p)), rest, sent, f);
    }
  }

  /** One action of the state queue. */
  lemma QueueAccounted(cfg: Config, s: Snapshot, p: Pipe<Command>, id: uint16, sent: seq<SoldierState>,
                       a: Action<Command>, effect: bool)
    requires !cfg.blocking && Accounted(s, p, id, sent)
    ensures var reached := Reaches(p, a, effect);
      Accounted(if reached == [] then s else Step(s, reached[0]).0, Next(cfg, p, a).0, id,
                sent + if a.Send? then StateFor(id, a.event) else [])
  {
    assert sent + [] == sent;
    if a.Send? {
      SendAccounted(cfg, s, p, id, sent, a.event);
    } else if a.Finish? {
      FinishAccounted(cfg, s, p, id, sent, a.panics, effect);
    } else {
      OtherWaiting(cfg, p, id, a);
    }
  }

  /** The recorder after one more action, from what reached it. */
  lemma RecorderNext(cfgs: map<string, Config>, acts: seq<HostAction>, a: HostAction)
    ensures var reached := ExecutedBy(cfgs, acts, a); var s := HostAfter(cfgs, acts).recorder;
      HostAfter(cfgs, acts + [a]).recorder == if reached == [] then s else Step(s, reached[0]).0
  {
    HostIsQueuesAndRecorder(cfgs, acts);
    assert (acts + [a])[..|acts|] == acts;
  }

  ghost predicate AccountedAt(cfgs: map<string, Config>, acts: seq<HostAction>, id: uint16, sent: seq<SoldierState>)
    requires SOLDIER_STATE in cfgs
  {
    Accounted(HostAfter(cfgs, acts).recorder, QueueAfter(cfgs, acts, SOLDIER_STATE), id, sent)
  }

  lemma HostAccounted(cfgs: map<string, Config>, acts: seq<HostAction>, a: HostAction, id: uint16,
                      sent: seq<SoldierState>)
    requires Wired(acts + [a]) && SOLDIER_STATE in cfgs && !cfgs[SOLDIER_STATE].blocking
    requires AccountedAt(cfgs, acts, id, sent)
    ensures AccountedAt(cfgs, acts + [a], id, sent + SentFor(a, id))
  {
    var s, p := HostAfter(cfgs, acts).recorder, QueueAfter(cfgs, acts, SOLDIER_STATE);
    var reached := ExecutedBy(cfgs, acts, a);
    RecorderNext(cfgs, acts, a);
    QueueStep(cfgs, acts, a, SOLDIER_STATE);
    if a.On? && a.name == SOLDIER_STATE {
      QueueAccounted(cfgs[SOLDIER_STATE], s, p, id, sent, a.action, a.effect);
    } else {
      assert sent + [] == sent;
      ReachedOne(cfgs, acts, a, id);
      if reached != [] {
        OtherCommandAccounted(s, p, id, sent, reached[0]);
      }
    }
  }

  lemma DispatchedMore(acts: seq<HostAction>, a: HostAction, id: uint16)
    ensures Dispatched(acts + [a], id) == Dispatched(acts, id) + SentFor(a, id)
  {
    assert (acts + [a])[..|acts|] == acts;
    var queue := Project(acts, SOLDIER_STATE);
    if a.On? && a.name == SOLDIER_STATE {
      SentSnoc(queue, a.action);
      StatesConcat(id, Sent(queue), SentBy(a.action));
      if a.action.Send? {
        StatesOfOne(id, a.action.event);
      }
    } else {
      assert queue + [] == queue;
      assert Dispatched(acts, id) + [] == Dispatched(acts, id);
    }
  }

  /** What the store and the queue hold of a soldier after some actions. */
  function Carried(cfgs: map<string, Config>, before: seq<HostAction>, id: uint16): seq<SoldierState>
    requires SOLDIER_STATE in cfgs
  {
    StoredStates(HostAfter(cfgs, before).recorder, id) + Waiting(QueueAfter(cfgs, before, SOLDIER_STATE), id)
  }

  lemma NobodyWaits(cfgs: map<string, Config>, acts: seq<HostAction>)
    requires SOLDIER_STATE in cfgs && !cfgs[SOLDIER_STATE].blocking
    ensures QueueAfter(cfgs, acts, SOLDIER_STATE).blocked == []
  {
    EveryRunByMode(cfgs[SOLDIER_STATE], Project(acts, SOLDIER_STATE));
  }

  lemma AccountedMore(cfgs: map<string, Config>, before: seq<HostAction>, first: seq<HostAction>, a: HostAction,
                      id: uint16, carried: seq<SoldierState>)
    requires Wired(before + (first + [a])) && SOLDIER_STATE in cfgs && !cfgs[SOLDIER_STATE].blocking
    requires AccountedAt(cfgs, before + first, id, carried + Dispatched(first, id))
    ensures AccountedAt(cfgs, before + (first + [a]), id, carried + Dispatched(first + [a], id))
  {
    assert before + (first + [a]) == before + first + [a];
    HostAccounted(cfgs, before + first, a, id, carried + Dispatched(first, id));
    DispatchedMore(first, a, id);
    Associate(carried, Dispatched(first, id), SentFor(a, id));
  }

  lemma AccountedNow(cfgs: map<string, Config>, before: seq<HostAction>, id: uint16)
    requires SOLDIER_STATE in cfgs && !cfgs[SOLDIER_STATE].blocking
    ensures AccountedAt(cfgs, before, id, Carried(cfgs, before, id))
  {
    NobodyWaits(cfgs, before);
    WholeList(Carried(cfgs, before, id));
  }

  lemma WiredFirst(before: seq<HostAction>, first: seq<HostAction>, a: HostAction)
    requires Wired(before + (first + [a]))
    ensures Wired(before + first)
  {
    assert before + (first + [a]) == before + first + [a];
    WiredBefore(before + first, a);
  }

  /** From any point on: stored and waiting states are carried or dispatched ones, in order. */
  lemma {:induction false} AccountedSince(cfgs: map<string, Config>, before: seq<HostAction>, acts: seq<HostAction>,
                                          id: uint16)
    requires Wired(before + acts) && SOLDIER_STATE in cfgs && !cfgs[SOLDIER_STATE].blocking
    ensures AccountedAt(cfgs, before + acts, id, Carried(cfgs, before, id) + Dispatched(acts, id))
  {
    if acts == [] {
      AccountedNow(cfgs, before, id);
      assert before + acts == before;
      Nothing(Carried(cfgs, before, id));
    } else {
      var first, a := acts[..|acts| - 1], acts[|acts| - 1];
      assert acts == first + [a];
      WiredFirst(before, first, a);
      AccountedSince(cfgs, before, first, id);
      AccountedMore(cfgs, before, first, a, id, Carried(cfgs, before, id));
    }
  }

  /** The frames of states are in order. */
  ghost predicate FramesInOrder(states: seq<SoldierState>) { NonDecreasing(MapSeq(StateFrame, states)) }

  lemma OrderOfFrames(states: seq<SoldierState>)
    ensures FramesInOrder(states) <==> StatesInOrder(states)
  {
    var frames := MapSeq(StateFrame, states);
    if FramesInOrder(states) {
      forall i, j | 0 <= i < j < |states| ensures states[i].captureFrame <= states[j].captureFrame {
        assert frames[i] <= frames[j];
      }
    }
  }

  lemma StoredInOrder(states: seq<SoldierState>, rest: seq<SoldierState>, sent: seq<SoldierState>)
    requires IsSubsequence(RawStates(states) + rest, sent) && FramesInOrder(sent)
    ensures FramesInOrder(states)
  {
    Prefix(RawStates(states), rest);
    Transitive(RawStates(states), RawStates(states) + rest, sent);
    Mapped(StateFrame, RawStates(states), sent);
    StaysInOrder(MapSeq(StateFrame, RawStates(states)), MapSeq(StateFrame, sent));
    RawFrames(states);
  }

  /**
   End to end, from any point of a run: if the states a soldier then has in store and queue,
   followed by those dispatched since, have frames in order, then the export shows a gap-free
   timeline, whatever is dropped, rejected or lost to panics. With before == [] nothing is
   carried, and this is the statement for a whole run.
   */
  lemma TimelineSince(cfgs: map<string, Config>, before: seq<HostAction>, acts: seq<HostAction>, id: uint16,
                      fmt: Format)
    requires Wired(before + acts) && SOLDIER_STATE in cfgs && !cfgs[SOLDIER_STATE].blocking
    requires FramesInOrder(Carried(cfgs, before, id) + Dispatched(acts, id))
    requires InMission(Executed(cfgs, before + acts))
    ensures var d := RecordedData(INITIAL, Executed(cfgs, before + acts));
      && d.soldiers == HostAfter(cfgs, before + acts).recorder.store.soldiers
      && (id in d.soldiers && d.soldiers[id].states != [] ==> GapFree(fmt, d.soldiers[id], MaxFrame(d)))
  {
    HostIsQueuesAndRecorder(cfgs, before + acts);
    AccountedSince(cfgs, before, acts, id);
    var d := RecordedData(INITIAL, Executed(cfgs, before + acts));
    if id in d.soldiers && d.soldiers[id].states != [] {
      var r := d.soldiers[id];
      StoredInOrder(r.states, Waiting(QueueAfter(cfgs, before + acts, SOLDIER_STATE), id),
                    Carried(cfgs, before, id) + Dispatched(acts, id));
      FramesAtMost(d, id);
      OrderOfFrames(r.states);
      SoldierTimeline(fmt, r, MaxFrame(d));
    }
  }

  /** The last thing the recorder did was to start a mission. */
  ghost predicate JustStarted(cfgs: map<string, Config>, acts: seq<HostAction>) {
    var cmds := Executed(cfgs, acts);
    cmds != [] && cmds[|cmds| - 1].StartMission?
  }

  lemma CarriedAtStart(cfgs: map<string, Config>, before: seq<HostAction>, id: uint16)
    requires SOLDIER_STATE in cfgs && JustStarted(cfgs, before)
    ensures Carried(cfgs, before, id) == Waiting(QueueAfter(cfgs, before, SOLDIER_STATE), id)
    ensures Idle(QueueAfter(cfgs, before, SOLDIER_STATE)) ==> Carried(cfgs, before, id) == []
  {
    HostIsQueuesAndRecorder(cfgs, before);
    NothingStored(Executed(cfgs, before), id);
    Nothing(Waiting(QueueAfter(cfgs, before, SOLDIER_STATE), id));
  }

  lemma NothingStored(cmds: seq<Command>, id: uint16)
    requires cmds != [] && cmds[|cmds| - 1].StartMission?
    ensures StoredStates(Run(INITIAL, cmds), id) == []
  {
  }

  /**
   A mission that starts while the state queue is idle: only the states dispatched since need
   frames in order, so every mission may count its frames from one again.
   */
  lemma MissionTimeline(cfgs: map<string, Config>, before: seq<HostAction>, acts: seq<HostAction>, id: uint16,
                        fmt: Format)
    requires Wired(before + acts) && SOLDIER_STATE in cfgs && !cfgs[SOLDIER_STATE].blocking
    requires JustStarted(cfgs, before) && Idle(QueueAfter(cfgs, before, SOLDIER_STATE))
    requires FramesInOrder(Dispatched(acts, id))
    requires InMission(Executed(cfgs, before + acts))
    ensures var d := RecordedData(INITIAL, Executed(cfgs, before + acts));
      && d.soldiers == HostAfter(cfgs, before + acts).recorder.store.soldiers
      && (id in d.soldiers && d.soldiers[id].states != [] ==> GapFree(fmt, d.soldiers[id], MaxFrame(d)))
  {
    CarriedAtStart(cfgs, before, id);
    assert [] + Dispatched(acts, id) == Dispatched(acts, id);
    TimelineSince(cfgs, before, acts, id, fmt);
  }

  // ---- exactly when a timeline is gap-free ----

  /** A soldier's timeline is gap-free if and only if its stored frames are in order. */
  lemma GapFreeExact(fmt: Format, r: SoldierRecord, maxFrame: Frame)
    requires r.states != [] && forall i :: 0 <= i < |r.states| ==> r.states[i].captureFrame <= maxFrame
    ensures GapFree(fmt, r, maxFrame) <==> FramesInOrder(r.states)
  {
    OrderOfFrames(r.states);
    if FramesInOrder(r.states) {
      SoldierTimeline(fmt, r, maxFrame);
    }
    if GapFree(fmt, r, maxFrame) {
      TimelineNeedsOrder(fmt, r, maxFrame);
    }
  }

  /** No state of the soldier gets lost with this action, and nothing takes its record away. */
  ghost predicate Lossless(cfgs: map<string, Config>, acts: seq<HostAction>, a: HostAction, id: uint16)
    requires SOLDIER_STATE in cfgs
  {
    && (a.On? && a.name == SOLDIER_STATE && a.action.Send? && StateFor(id, a.action.event) != [] ==>
          |QueueAfter(cfgs, acts, SOLDIER_STATE).buffer| < cfgs[SOLDIER_STATE].capacity)
    && (a.On? && a.name == SOLDIER_STATE && a.action.Finish? ==> a.effect)
    && (forall c :: c in ExecutedBy(cfgs, acts, a) ==> KeepsSoldier([c], id))
  }

  /** The soldier is known, and its stored and waiting states are the given ones. */
  ghost predicate Complete(s: Snapshot, p: Pipe<Command>, id: uint16, sent: seq<SoldierState>) {
    && id in s.caches.soldiers && id in s.store.soldiers
    && p.blocked == [] && StoredStates(s, id) + Waiting(p, id) == sent
  }

  ghost predicate CompleteAt(cfgs: map<string, Config>, acts: seq<HostAction>, id: uint16, sent: seq<SoldierState>)
    requires SOLDIER_STATE in cfgs
  {
    Complete(HostAfter(cfgs, acts).recorder, QueueAfter(cfgs, acts, SOLDIER_STATE), id, sent)
  }

  lemma OtherCommandComplete(s: Snapshot, p: Pipe<Command>, id: uint16, sent: seq<SoldierState>, c: Command)
    requires Complete(s, p, id, sent) && StateFor(id, c) == [] && KeepsSoldier([c], id)
    ensures Complete(Step(s, c).0, p, id, sent)
  {
    StoredOne(s, id, c);
    Nothing(StoredStates(s, id));
  }

  lemma SendComplete(cfg: Config, s: Snapshot, p: Pipe<Command>, id: uint16, sent: seq<SoldierState>, e: Command)
    requires !cfg.blocking && Complete(s, p, id, sent)
    requires StateFor(id, e) != [] ==> |p.buffer| < cfg.capacity
    ensures Complete(s, Next(cfg, p, Send(e)).0, id, sent + StateFor(id, e))
  {
    SendWaiting(cfg, p, id, e);
    Associate(StoredStates(s, id), Waiting(p, id), StateFor(id, e));
  }

  lemma FinishComplete(cfg: Config, s: Snapshot, p: Pipe<Command>, id: uint16, sent: seq<SoldierState>, panics: bool)
    requires Complete(s, p, id, sent) && forall c :: c in InFlight(p) ==> KeepsSoldier([c], id)
    ensures var reached := InFlight(p);
      Complete(if reached == [] then s else Step(s, reached[0]).0, Next(cfg, p, Finish(panics)).0, id, sent)
  {
    FinishWaiting(cfg, p, id, panics);
    var reached := InFlight(p);
    var rest := Waiting(Next(cfg, p, Finish(panics)).0, id);
    if reached == [] {
      Nothing(rest);
    } else {
      assert reached == [reached[0]];
      StatesOfOne(id, reached[0]);
      StoredOne(s, id, reached[0]);
      Associate(StoredStates(s, id), StateFor(id, reached[0]), rest);
    }
  }

  lemma HostComplete(cfgs: map<string, Config>, acts: seq<HostAction>, a: HostAction, id: uint16,
                     sent: seq<SoldierState>)
    requires Wired(acts + [a]) && SOLDIER_STATE in cfgs && !cfgs[SOLDIER_STATE].blocking
    requires CompleteAt(cfgs, acts, id, sent) && Lossless(cfgs, acts, a, id)
    ensures CompleteAt(cfgs, acts + [a], id, sent + SentFor(a, id))
  {
    var s, p := HostAfter(cfgs, acts).recorder, QueueAfter(cfgs, acts, SOLDIER_STATE);
    var reached := ExecutedBy(cfgs, acts, a);
    RecorderNext(cfgs, acts, a);
    QueueStep(cfgs, acts, a, SOLDIER_STATE);
    Nothing(sent);
    if a.On? && a.name == SOLDIER_STATE {
      if a.action.Send? {
        SendComplete(cfgs[SOLDIER_STATE], s, p, id, sent, a.action.event);
      } else if a.action.Finish? {
        FinishComplete(cfgs[SOLDIER_STATE], s, p, id, sent, a.action.panics);
      } else {
        OtherWaiting(cfgs[SOLDIER_STATE], p, id, a.action);
      }
    } else {
      ReachedOne(cfgs, acts, a, id);
      if reached != [] {
        OtherCommandComplete(s, p, id, sent, reached[0]);
      }
    }
  }

  /** No action of the list loses a state of the soldier. */
  ghost predicate LosslessRun(cfgs: map<string, Config>, before: seq<HostAction>, acts: seq<HostAction>, id: uint16)
    requires SOLDIER_STATE in cfgs
  {
    acts == [] ||
      (LosslessRun(cfgs, before, acts[..|acts| - 1], id)
       && Lossless(cfgs, before + acts[..|acts| - 1], acts[|acts| - 1], id))
  }

  lemma LosslessParts(cfgs: map<string, Config>, before: seq<HostAction>, first: seq<HostAction>, a: HostAction,
                      id: uint16)
    requires SOLDIER_STATE in cfgs
    ensures LosslessRun(cfgs, before, first + [a], id)
       <==> LosslessRun(cfgs, before, first, id) && Lossless(cfgs, before + first, a, id)
  {
    assert (first + [a])[..|first|] == first;
  }

  /** What has to hold for a run that loses nothing. */
  ghost predicate CompleteRun(cfgs: map<string, Config>, before: seq<HostAction>, acts: seq<HostAction>, id: uint16,
                              carried: seq<SoldierState>)
    requires SOLDIER_STATE in cfgs
  {
    Wired(before + acts) && LosslessRun(cfgs, before, acts, id) ==>
      CompleteAt(cfgs, before + acts, id, carried + Dispatched(acts, id))
  }

  lemma CompleteRunMore(cfgs: map<string, Config>, before: seq<HostAction>, first: seq<HostAction>, a: HostAction,
                        id: uint16, carried: seq<SoldierState>)
    requires SOLDIER_STATE in cfgs && !cfgs[SOLDIER_STATE].blocking
    requires CompleteRun(cfgs, before, first, id, carried)
    ensures CompleteRun(cfgs, before, first + [a], id, carried)
  {
    if Wired(before + (first + [a])) && LosslessRun(cfgs, before, first + [a], id) {
      WiredFirst(before, first, a);
      LosslessParts(cfgs, before, first, a, id);
      CompleteMore(cfgs, before, first, a, id, carried);
    }
  }

  lemma CompleteNow(cfgs: map<string, Config>, before: seq<HostAction>, id: uint16, carried: seq<SoldierState>)
    requires SOLDIER_STATE in cfgs && CompleteAt(cfgs, before, id, carried)
    ensures CompleteRun(cfgs, before, [], id, carried)
  {
    assert before + [] == before;
    Nothing(carried);
  }

  lemma CompleteSince(cfgs: map<string, Config>, before: seq<HostAction>, acts: seq<HostAction>, id: uint16,
                      carried: seq<SoldierState>)
    requires SOLDIER_STATE in cfgs && !cfgs[SOLDIER_STATE].blocking && CompleteAt(cfgs, before, id, carried)
    ensures CompleteRun(cfgs, before, acts, id, carried)
  {
    CompleteNow(cfgs, before, id, carried);
    forall first, a | CompleteRun(cfgs, before, first, id, carried)
      ensures CompleteRun(cfgs, before, first + [a], id, carried)
    {
      CompleteRunMore(cfgs, before, first, a, id, carried);
    }
    ListInduction((xs: seq<HostAction>) => CompleteRun(cfgs, before, xs, id, carried), acts);
  }

  lemma CompleteMore(cfgs: map<string, Config>, before: seq<HostAction>, first: seq<HostAction>, a: HostAction,
                     id: uint16, carried: seq<SoldierState>)
    requires Wired(before + (first + [a])) && SOLDIER_STATE in cfgs && !cfgs[SOLDIER_STATE].blocking
    requires CompleteAt(cfgs, before + first, id, carried + Dispatched(first, id))
    requires Lossless(cfgs, before + first, a, id)
    ensures CompleteAt(cfgs, before + (first + [a]), id, carried + Dispatched(first + [a], id))
  {
    assert before + (first + [a]) == before + first + [a];
    HostComplete(cfgs, before + first, a, id, carried + Dispatched(first, id));
    DispatchedMore(first, a, id);
    Associate(carried, Dispatched(first, id), SentFor(a, id));
  }

  /**
   The exact condition, for runs that lose nothing: once the queue is worked off, the soldier's
   timeline is gap-free if and only if the states it had in store and queue at the chosen point,
   followed by those dispatched since, have frames in order.
   */
  lemma TimelineExact(cfgs: map<string, Config>, before: seq<HostAction>, acts: seq<HostAction>, id: uint16,
                      fmt: Format)
    requires Wired(before + acts) && SOLDIER_STATE in cfgs && !cfgs[SOLDIER_STATE].blocking
    requires CompleteAt(cfgs, before, id, Carried(cfgs, before, id)) && LosslessRun(cfgs, before, acts, id)
    requires Waiting(QueueAfter(cfgs, before + acts, SOLDIER_STATE), id) == []
    requires Carried(cfgs, before, id) + Dispatched(acts, id) != []
    requires InMission(Executed(cfgs, before + acts))
    ensures var d := RecordedData(INITIAL, Executed(cfgs, before + acts));
      && id in d.soldiers && d.soldiers[id].states != []
      && RawStates(d.soldiers[id].states) == Carried(cfgs, before, id) + Dispatched(acts, id)
      && (GapFree(fmt, d.soldiers[id], MaxFrame(d))
          <==> FramesInOrder(Carried(cfgs, before, id) + Dispatched(acts, id)))
  {
    HostIsQueuesAndRecorder(cfgs, before + acts);
    var sent := Carried(cfgs, before, id) + Dispatched(acts, id);
    CompleteSince(cfgs, before, acts, id, Carried(cfgs, before, id));
    Nothing(StoredStates(HostAfter(cfgs, before + acts).recorder, id));
    RecordExact(fmt, RecordedData(INITIAL, Executed(cfgs, before + acts)), id, sent);
  }

  lemma RecordExact(fmt: Format, d: MissionData, id: uint16, sent: seq<SoldierState>)
    requires id in d.soldiers && RawStates(d.soldiers[id].states) == sent && sent != []
    ensures d.soldiers[id].states != [] && (GapFree(fmt, d.soldiers[id], MaxFrame(d)) <==> FramesInOrder(sent))
  {
    RawFrames(d.soldiers[id].states);
    FramesAtMost(d, id);
    GapFreeExact(fmt, d.soldiers[id], MaxFrame(d));
  }

  // ---- a state left over from the last mission ----

  lemma DirectAction(cfgs: map<string, Config>, acts: seq<HostAction>, c: Command)
    requires SOLDIER_STATE in cfgs
    ensures Executed(cfgs, acts + [Direct(c)]) == Executed(cfgs, acts) + [c]
    ensures QueueAfter(cfgs, acts + [Direct(c)], SOLDIER_STATE) == QueueAfter(cfgs, acts, SOLDIER_STATE)
  {
    ExecutedMore(cfgs, acts, Direct(c));
    QueueStep(cfgs, acts, Direct(c), SOLDIER_STATE);
  }

  lemma InMissionMore(cmds: seq<Command>, c: Command)
    ensures InMission(cmds + [c]) <==> c.StartMission? || (!c.EndMission? && InMission(cmds))
  {
    assert (cmds + [c])[..|cmds|] == cmds;
  }

  /** After some actions behind a fixed beginning: the queue, what was sent, and nothing lost. */
  ghost predicate Reached(cfgs: map<string, Config>, before: seq<HostAction>, acts: seq<HostAction>, id: uint16,
                          p: Pipe<Command>, sent: seq<SoldierState>)
    requires SOLDIER_STATE in cfgs
  {
    && Wired(before + acts) && LosslessRun(cfgs, before, acts, id)
    && InMission(Executed(cfgs, before + acts))
    && QueueAfter(cfgs, before + acts, SOLDIER_STATE) == p && Dispatched(acts, id) == sent
  }

  /** An action of the state queue that loses nothing, and ends only handlers of states. */
  predicate Careful(cfg: Config, p: Pipe<Command>, a: Action<Command>) {
    match a
    case Send(e) => IsState(e) && |p.buffer| < cfg.capacity
    case Finish(_) => p.inFlight.Some? && IsState(p.inFlight.value)
    case _ => true
  }

  lemma WiredMore(acts: seq<HostAction>, a: HostAction)
    requires Wired(acts)
    requires if a.Direct? then !IsState(a.command)
             else a.action.Send? && IsState(a.action.event) ==> a.name == SOLDIER_STATE
    ensures Wired(acts + [a])
  {
  }

  /** At most one command, and a soldier state. */
  ghost predicate OnlyStates(cmds: seq<Command>) { |cmds| <= 1 && forall c :: c in cmds ==> IsState(c) }

  lemma CarefulReaches(cfgs: map<string, Config>, acts: seq<HostAction>, a: Action<Command>)
    requires SOLDIER_STATE in cfgs && Careful(cfgs[SOLDIER_STATE], QueueAfter(cfgs, acts, SOLDIER_STATE), a)
    ensures OnlyStates(ExecutedBy(cfgs, acts, On(SOLDIER_STATE, a, true)))
  {
  }

  lemma StateKeepsSoldier(c: Command, id: uint16)
    requires IsState(c)
    ensures KeepsSoldier([c], id)
  {
  }

  lemma StatesStayInMission(cmds: seq<Command>, more: seq<Command>)
    requires InMission(cmds) && OnlyStates(more)
    ensures InMission(cmds + more)
  {
    if more == [] {
      assert cmds + more == cmds;
    } else {
      assert more == [more[0]] && more[0] in more;
      InMissionMore(cmds, more[0]);
    }
  }

  lemma CarefulIsLossless(cfgs: map<string, Config>, acts: seq<HostAction>, a: Action<Command>, id: uint16)
    requires SOLDIER_STATE in cfgs && Careful(cfgs[SOLDIER_STATE], QueueAfter(cfgs, acts, SOLDIER_STATE), a)
    ensures Lossless(cfgs, acts, On(SOLDIER_STATE, a, true), id)
  {
    CarefulReaches(cfgs, acts, a);
    forall c | c in ExecutedBy(cfgs, acts, On(SOLDIER_STATE, a, true)) ensures KeepsSoldier([c], id) {
      StateKeepsSoldier(c, id);
    }
  }

  lemma ReachedMore(cfgs: map<string, Config>, before: seq<HostAction>, acts: seq<HostAction>, id: uint16,
                    p: Pipe<Command>, sent: seq<SoldierState>, a: Action<Command>)
    requires SOLDIER_STATE in cfgs && Reached(cfgs, before, acts, id, p, sent) && Careful(cfgs[SOLDIER_STATE], p, a)
    ensures Reached(cfgs, before, acts + [On(SOLDIER_STATE, a, true)], id, Next(cfgs[SOLDIER_STATE], p, a).0,
                    if a.Send? then sent + StateFor(id, a.event) else sent)
  {
    var more := On(SOLDIER_STATE, a, true);
    assert before + (acts + [more]) == before + acts + [more];
    WiredMore(before + acts, more);
    CarefulIsLossless(cfgs, before + acts, a, id);
    CarefulReaches(cfgs, before + acts, a);
    StatesStayInMission(Executed(cfgs, before + acts), ExecutedBy(cfgs, before + acts, more));
    LosslessParts(cfgs, before, acts, more, id);
    ExecutedMore(cfgs, before + acts, more);
    QueueStep(cfgs, before + acts, more, SOLDIER_STATE);
    DispatchedMore(acts, more, id);
    Nothing(sent);
  }

  /** The oldest state is taken from the queue, and its handler runs to the end. */
  function Handling(acts: seq<HostAction>): seq<HostAction> {
    acts + [On(SOLDIER_STATE, Receive, true)] + [On(SOLDIER_STATE, Finish(false), true)]
  }

  /** The next mission's first actions: the old state is handled, one new state is sent and handled. */
  function LateThenEarly(early: SoldierState): seq<HostAction> {
    Handling(Handling([]) + [On(SOLDIER_STATE, Send(OnSoldier(RecordSoldier(early))), true)])
  }

  /** The queue holds one state, and its goroutine is ready to take it. */
  predicate HoldsOne(p: Pipe<Command>, late: SoldierState) {
    p.open && p.inFlight.None? && p.blocked == [] && p.buffer == [OnSoldier(RecordSoldier(late))]
  }

  /** The queue is empty and ready. */
  predicate Ready(p: Pipe<Command>) { p.open && Idle(p) }

  /** The queue's goroutine has taken the state. */
  predicate Handles(p: Pipe<Command>, state: SoldierState) {
    p.open && p.inFlight == Some(OnSoldier(RecordSoldier(state))) && p.blocked == [] && p.buffer == []
  }

  lemma TakingOne(cfg: Config, p: Pipe<Command>, state: SoldierState)
    requires HoldsOne(p, state)
    ensures Handles(Next(cfg, p, Receive).0, state) && Careful(cfg, p, Receive)
  {
  }

  lemma FinishingOne(cfg: Config, p: Pipe<Command>, state: SoldierState)
    requires Handles(p, state)
    ensures Ready(Next(cfg, p, Finish(false)).0) && Careful(cfg, p, Finish(false))
  {
  }

  lemma HandlingOne(cfgs: map<string, Config>, before: seq<HostAction>, acts: seq<HostAction>, id: uint16,
                    p: Pipe<Command>, sent: seq<SoldierState>, state: SoldierState) returns (q: Pipe<Command>)
    requires SOLDIER_STATE in cfgs && Reached(cfgs, before, acts, id, p, sent) && HoldsOne(p, state)
    ensures Reached(cfgs, before, Handling(acts), id, q, sent) && Ready(q)
  {
    TakingOne(cfgs[SOLDIER_STATE], p, state);
    ReachedMore(cfgs, before, acts, id, p, sent, Receive);
    var held, taken := Next(cfgs[SOLDIER_STATE], p, Receive).0, acts + [On(SOLDIER_STATE, Receive, true)];
    q := FinishedOne(cfgs, before, taken, id, held, sent, state);
  }

  lemma FinishedOne(cfgs: map<string, Config>, before: seq<HostAction>, taken: seq<HostAction>, id: uint16,
                    held: Pipe<Command>, sent: seq<SoldierState>, state: SoldierState) returns (q: Pipe<Command>)
    requires SOLDIER_STATE in cfgs && Reached(cfgs, before, taken, id, held, sent) && Handles(held, state)
    ensures Reached(cfgs, before, taken + [On(SOLDIER_STATE, Finish(false), true)], id, q, sent) && Ready(q)
  {
    FinishingOne(cfgs[SOLDIER_STATE], held, state);
    ReachedMore(cfgs, before, taken, id, held, sent, Finish(false));
    q := Next(cfgs[SOLDIER_STATE], held, Finish(false)).0;
  }

  lemma QueueingOne(cfg: Config, p: Pipe<Command>, state: SoldierState)
    requires cfg.capacity > 0 && Ready(p)
    ensures HoldsOne(Next(cfg, p, Send(OnSoldier(RecordSoldier(state)))).0, state)
    ensures Careful(cfg, p, Send(OnSoldier(RecordSoldier(state))))
  {
    assert [] + [OnSoldier(RecordSoldier(state))] == [OnSoldier(RecordSoldier(state))];
  }

  lemma SendingOne(cfgs: map<string, Config>, before: seq<HostAction>, acts: seq<HostAction>,
                   p: Pipe<Command>, state: SoldierState) returns (q: Pipe<Command>)
    requires SOLDIER_STATE in cfgs && cfgs[SOLDIER_STATE].capacity > 0
    requires Reached(cfgs, before, acts, state.soldierId, p, []) && Ready(p)
    ensures Reached(cfgs, before, acts + [On(SOLDIER_STATE, Send(OnSoldier(RecordSoldier(state))), true)],
                    state.soldierId, q, [Raw(state)]) && HoldsOne(q, state)
  {
    var e := OnSoldier(RecordSoldier(state));
    QueueingOne(cfgs[SOLDIER_STATE], p, state);
    Nothing([Raw(state)]);
    ReachedMore(cfgs, before, acts, state.soldierId, p, [], Send(e));
    q := Next(cfgs[SOLDIER_STATE], p, Send(e)).0;
  }

  lemma LateThenEarlyRuns(cfgs: map<string, Config>, before: seq<HostAction>, late: SoldierState, early: SoldierState)
    returns (q: Pipe<Command>)
    requires SOLDIER_STATE in cfgs && cfgs[SOLDIER_STATE].capacity > 0
    requires Wired(before) && InMission(Executed(cfgs, before))
    requires HoldsOne(QueueAfter(cfgs, before, SOLDIER_STATE), late)
    ensures Reached(cfgs, before, LateThenEarly(early), early.soldierId, q, [Raw(early)]) && Ready(q)
  {
    assert before + [] == before;
    q := HandlingOne(cfgs, before, [], early.soldierId, QueueAfter(cfgs, before, SOLDIER_STATE), [], late);
    q := SendingOne(cfgs, before, Handling([]), q, early);
    q := HandlingOne(cfgs, before, Handling([]) + [On(SOLDIER_STATE, Send(OnSoldier(RecordSoldier(early))), true)],
                     early.soldierId, q, [Raw(early)], early);
  }

  lemma KnownAfterCreation(cfgs: map<string, Config>, before: seq<HostAction>, o: Soldier, late: SoldierState)
    requires SOLDIER_STATE in cfgs && late.soldierId == o.id
    requires HoldsOne(QueueAfter(cfgs, before, SOLDIER_STATE), late)
    ensures var created := before + [Direct(OnSoldier(NewSoldier(o)))];
      Carried(cfgs, created, o.id) == [Raw(late)] && CompleteAt(cfgs, created, o.id, [Raw(late)])
  {
    var c := OnSoldier(NewSoldier(o));
    RecorderNext(cfgs, before, Direct(c));
    DirectAction(cfgs, before, c);
    StatesOfOne(o.id, OnSoldier(RecordSoldier(late)));
    Nothing([Raw(late)]);
  }

  /** The run ends in a mission whose export does not show a gap-free timeline for the soldier. */
  ghost predicate BrokenTimeline(cfgs: map<string, Config>, acts: seq<HostAction>, id: uint16, fmt: Format) {
    && InMission(Executed(cfgs, acts))
    && var d := RecordedData(INITIAL, Executed(cfgs, acts));
       id in d.soldiers && d.soldiers[id].states != [] && !GapFree(fmt, d.soldiers[id], MaxFrame(d))
  }

  lemma LateThenEarlyBreaks(cfgs: map<string, Config>, created: seq<HostAction>, rest: seq<HostAction>,
                            late: SoldierState, early: SoldierState, q: Pipe<Command>, fmt: Format)
    requires SOLDIER_STATE in cfgs && !cfgs[SOLDIER_STATE].blocking
    requires Reached(cfgs, created, rest, early.soldierId, q, [Raw(early)]) && Ready(q)
    requires Carried(cfgs, created, early.soldierId) == [Raw(late)]
    requires CompleteAt(cfgs, created, early.soldierId, [Raw(late)]) && early.captureFrame < late.captureFrame
    ensures BrokenTimeline(cfgs, created + rest, early.soldierId, fmt)
  {
    assert [Raw(late)] + [Raw(early)] != [];
    TimelineExact(cfgs, created, rest, early.soldierId, fmt);
    OutOfOrder(late, early);
  }

  lemma BreaksAfterCreation(cfgs: map<string, Config>, before: seq<HostAction>, o: Soldier, late: SoldierState,
                            early: SoldierState, fmt: Format)
    requires SOLDIER_STATE in cfgs && cfgs[SOLDIER_STATE].capacity > 0 && !cfgs[SOLDIER_STATE].blocking
    requires Wired(before) && JustStarted(cfgs, before)
    requires HoldsOne(QueueAfter(cfgs, before, SOLDIER_STATE), late)
    requires late.soldierId == early.soldierId == o.id && early.captureFrame < late.captureFrame
    ensures var created := before + [Direct(OnSoldier(NewSoldier(o)))];
      && Wired(created + LateThenEarly(early)) && BrokenTimeline(cfgs, created + LateThenEarly(early), o.id, fmt)
      && Dispatched(LateThenEarly(early), o.id) == [Raw(early)]
  {
    var created := before + [Direct(OnSoldier(NewSoldier(o)))];
    CreatedInMission(cfgs, before, o);
    var q := LateThenEarlyRuns(cfgs, created, late, early);
    KnownAfterCreation(cfgs, before, o, late);
    LateThenEarlyBreaks(cfgs, created, LateThenEarly(early), late, early, q, fmt);
  }

  /**
   Why the queue has to be idle: a mission has just started, a state of the mission before is
   still queued, its soldier is created again and sends its first state, with a smaller frame.
   The new mission's own states are in order, and the timeline is not gap-free.
   */
  lemma LateStateBreaksTimeline(cfgs: map<string, Config>, before: seq<HostAction>, acts: seq<HostAction>, o: Soldier,
                                late: SoldierState, early: SoldierState, fmt: Format)
    requires SOLDIER_STATE in cfgs && cfgs[SOLDIER_STATE].capacity > 0 && !cfgs[SOLDIER_STATE].blocking
    requires Wired(before) && JustStarted(cfgs, before)
    requires HoldsOne(QueueAfter(cfgs, before, SOLDIER_STATE), late)
    requires late.soldierId == early.soldierId == o.id && early.captureFrame < late.captureFrame
    requires acts == [Direct(OnSoldier(NewSoldier(o)))] + LateThenEarly(early)
    ensures Wired(before + acts) && FramesInOrder(Dispatched(acts, o.id))
    ensures BrokenTimeline(cfgs, before + acts, o.id, fmt)
  {
    var c := Direct(OnSoldier(NewSoldier(o)));
    BreaksAfterCreation(cfgs, before, o, late, early, fmt);
    DispatchedBehind(c, LateThenEarly(early), o.id);
    MovedBracket(before, c, LateThenEarly(early));
  }

  lemma MovedBracket(xs: seq<HostAction>, a: HostAction, ys: seq<HostAction>)
    ensures xs + ([a] + ys) == xs + [a] + ys
  {
  }

  lemma CreatedInMission(cfgs: map<string, Config>, before: seq<HostAction>, o: Soldier)
    requires SOLDIER_STATE in cfgs && Wired(before) && JustStarted(cfgs, before)
    ensures var created := before + [Direct(OnSoldier(NewSoldier(o)))];
      && Wired(created) && InMission(Executed(cfgs, created))
      && QueueAfter(cfgs, created, SOLDIER_STATE) == QueueAfter(cfgs, before, SOLDIER_STATE)
  {
    var c := OnSoldier(NewSoldier(o));
    WiredMore(before, Direct(c));
    DirectAction(cfgs, before, c);
    InMissionMore(Executed(cfgs, before), c);
  }

  lemma OutOfOrder(late: SoldierState, early: SoldierState)
    requires early.captureFrame < late.captureFrame
    ensures !FramesInOrder([Raw(late)] + [Raw(early)])
  {
    var frames := MapSeq(StateFrame, [Raw(late)] + [Raw(early)]);
    assert frames[0] == late.captureFrame && frames[1] == early.captureFrame;
  }

  lemma {:induction false} ProjectBehind(a: HostAction, acts: seq<HostAction>, name: string)
    requires a.Direct?
    ensures Project([a] + acts, name) == Project(acts, name)
  {
    if acts == [] {
      assert [a] + acts == [a] && [a][..0] == [];
    } else {
      assert ([a] + acts)[..|acts|] == [a] + acts[..|acts| - 1];
      ProjectBehind(a, acts[..|acts| - 1], name);
    }
  }

  lemma DispatchedBehind(a: HostAction, acts: seq<HostAction>, id: uint16)
    requires a.Direct?
    ensures Dispatched([a] + acts, id) == Dispatched(acts, id)
  {
    ProjectBehind(a, acts, SOLDIER_STATE);
  }

  /** Such a beginning exists: the last state of a mission is sent, and the next mission starts. */
  lemma LateStateIsPossible(cfgs: map<string, Config>, m1: Mission, m2: Mission, w: World, late: SoldierState)
    requires SOLDIER_STATE in cfgs && cfgs[SOLDIER_STATE].capacity > 0 && !cfgs[SOLDIER_STATE].gated
    ensures var sent := [Direct(StartMission(m1, w))]
                        + [On(SOLDIER_STATE, Send(OnSoldier(RecordSoldier(late))), true)];
      var before := sent + [Direct(StartMission(m2, w))];
      && Wired(before) && JustStarted(cfgs, before)
      && HoldsOne(QueueAfter(cfgs, before, SOLDIER_STATE), late)
  {
    var e := OnSoldier(RecordSoldier(late));
    var a1, a2 := Direct(StartMission(m1, w)), On(SOLDIER_STATE, Send(e), true);
    assert [] + [a1] == [a1];
    DirectAction(cfgs, [], StartMission(m1, w));
    QueueStep(cfgs, [a1], a2, SOLDIER_STATE);
    assert ([] + [e]) == [e];
    DirectAction(cfgs, [a1] + [a2], StartMission(m2, w));
  }
}
