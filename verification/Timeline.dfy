/**
 From dispatch to export: commands travel through their queues, in any interleaving, and the
 handlers that take effect are a run of the recorder.
 */
module Timeline {
  import opened Wrappers
  import opened Core
  import opened GapFill
  import opened Frames
  import opened Subsequences
  import opened Dispatcher
  import opened Recorder
  import opened RecorderProofs
  import opened ExportTypes
  import opened ExportSpec
  import opened Equivalence
  import opened MissionExport

  /**
   A step of a queue, or of a command that is handled in the caller's call. effect tells whether
   a handler reached the recorder before it returned or panicked.
   */
  datatype HostAction =
    | On(name: string, action: Action<Command>, effect: bool)
    | Direct(command: Command)

  datatype Host = Host(pipes: map<string, Pipe<Command>>, recorder: Snapshot)

  /** cfgs holds the options of every buffered command; other names are unknown commands. */
  function HostStart(cfgs: map<string, Config>): Host {
    Host(map name | name in cfgs :: Start(cfgs[name]), INITIAL)
  }

  /** The command whose handler ends with this action, if it reached the recorder. */
  function Reaches(p: Pipe<Command>, a: Action<Command>, effect: bool): seq<Command> {
    if a.Finish? && effect then InFlight(p) else []
  }

  function HostNext(cfgs: map<string, Config>, h: Host, a: HostAction): Host {
    match a
    case Direct(c) => h.(recorder := Step(h.recorder, c).0)
    case On(name, act, effect) =>
      if name !in cfgs || name !in h.pipes then h
      else
        var p := h.pipes[name];
        var reached := Reaches(p, act, effect);
        Host(h.pipes[name := Next(cfgs[name], p, act).0],
             if reached == [] then h.recorder else Step(h.recorder, reached[0]).0)
  }

  function HostAfter(cfgs: map<string, Config>, acts: seq<HostAction>): Host {
    if acts == [] then HostStart(cfgs)
    else HostNext(cfgs, HostAfter(cfgs, acts[..|acts| - 1]), acts[|acts| - 1])
  }

  // ---- one queue, and the recorder, seen alone ----

  function OnQueue(a: HostAction, name: string): seq<Action<Command>> {
    if a.On? && a.name == name then [a.action] else []
  }

  /** The actions of one queue. */
  function Project(acts: seq<HostAction>, name: string): seq<Action<Command>> {
    if acts == [] then [] else Project(acts[..|acts| - 1], name) + OnQueue(acts[|acts| - 1], name)
  }

  function QueueAfter(cfgs: map<string, Config>, acts: seq<HostAction>, name: string): Pipe<Command>
    requires name in cfgs
  {
    After(cfgs[name], Start(cfgs[name]), Project(acts, name))
  }

  function ExecutedBy(cfgs: map<string, Config>, before: seq<HostAction>, a: HostAction): seq<Command> {
    match a
    case Direct(c) => [c]
    case On(name, act, effect) => if name in cfgs then Reaches(QueueAfter(cfgs, before, name), act, effect) else []
  }

  /** The commands that reached the recorder, in order. */
  function Executed(cfgs: map<string, Config>, acts: seq<HostAction>): seq<Command> {
    if acts == [] then []
    else
      var before := acts[..|acts| - 1];
      Executed(cfgs, before) + ExecutedBy(cfgs, before, acts[|acts| - 1])
  }

  ghost predicate IsQueues(cfgs: map<string, Config>, acts: seq<HostAction>, pipes: map<string, Pipe<Command>>) {
    pipes.Keys == cfgs.Keys && forall name :: name in cfgs ==> pipes[name] == QueueAfter(cfgs, acts, name)
  }

  lemma QueueStep(cfgs: map<string, Config>, acts: seq<HostAction>, a: HostAction, name: string)
    requires name in cfgs
    ensures QueueAfter(cfgs, acts + [a], name)
         == if a.On? && a.name == name then Next(cfgs[name], QueueAfter(cfgs, acts, name), a.action).0
            else QueueAfter(cfgs, acts, name)
  {
    assert (acts + [a])[..|acts|] == acts;
    if a.On? && a.name == name {
      RunSnoc(cfgs[name], Start(cfgs[name]), Project(acts, name), a.action);
    } else {
      assert Project(acts, name) + [] == Project(acts, name);
    }
  }

  lemma QueuesStep(cfgs: map<string, Config>, acts: seq<HostAction>, a: HostAction, h: Host)
    requires IsQueues(cfgs, acts, h.pipes)
    ensures IsQueues(cfgs, acts + [a], HostNext(cfgs, h, a).pipes)
  {
    forall name | name in cfgs
      ensures name in HostNext(cfgs, h, a).pipes
      ensures HostNext(cfgs, h, a).pipes[name] == QueueAfter(cfgs, acts + [a], name)
    {
      QueueStep(cfgs, acts, a, name);
    }
  }

  lemma RunOneMore(s: Snapshot, cmds: seq<Command>, more: seq<Command>)
    requires |more| <= 1
    ensures Run(s, cmds + more) == if more == [] then Run(s, cmds) else Step(Run(s, cmds), more[0]).0
  {
    if more == [] {
      assert cmds + more == cmds;
    } else {
      assert (cmds + more)[..|cmds|] == cmds;
    }
  }

  lemma ExecutedMore(cfgs: map<string, Config>, acts: seq<HostAction>, a: HostAction)
    ensures Executed(cfgs, acts + [a]) == Executed(cfgs, acts) + ExecutedBy(cfgs, acts, a)
  {
    assert (acts + [a])[..|acts|] == acts;
  }

  /** The queues are what their own actions make them, the recorder what the executed commands make it. */
  ghost predicate HostOk(cfgs: map<string, Config>, acts: seq<HostAction>, h: Host) {
    IsQueues(cfgs, acts, h.pipes) && h.recorder == Run(INITIAL, Executed(cfgs, acts))
  }

  lemma HostStep(cfgs: map<string, Config>, acts: seq<HostAction>, a: HostAction, h: Host)
    requires HostOk(cfgs, acts, h)
    ensures HostOk(cfgs, acts + [a], HostNext(cfgs, h, a))
  {
    QueuesStep(cfgs, acts, a, h);
    ExecutedMore(cfgs, acts, a);
    RunOneMore(INITIAL, Executed(cfgs, acts), ExecutedBy(cfgs, acts, a));
  }

  /** Queues do not disturb each other, and the recorder sees one sequence of commands. */
  lemma {:induction false} HostIsQueuesAndRecorder(cfgs: map<string, Config>, acts: seq<HostAction>)
    ensures HostOk(cfgs, acts, HostAfter(cfgs, acts))
  {
    if acts != [] {
      var before, a := acts[..|acts| - 1], acts[|acts| - 1];
      HostIsQueuesAndRecorder(cfgs, before);
      HostStep(cfgs, before, a, HostAfter(cfgs, before));
      assert acts == before + [a];
    }
  }

  // ---- soldier states on their way ----

  const SOLDIER_STATE := ":SOLDIER:STATE:"

  predicate IsState(c: Command) { c.OnSoldier? && c.soldierCommand.RecordSoldier? }

  /** Group and side are filled in on the way; everything else must arrive as it was sent. */
  function Raw(s: SoldierState): SoldierState { s.(groupId := "", side := "") }

  function StateFor(id: uint16, c: Command): seq<SoldierState> {
    if IsState(c) && c.soldierCommand.state.soldierId == id then [Raw(c.soldierCommand.state)] else []
  }

  /** The states for one soldier in a list of commands. */
  function States(id: uint16, cmds: seq<Command>): seq<SoldierState> { FlatMap((c: Command) => StateFor(id, c), cmds) }

  /** Soldier states are registered as one buffered command, and sent under its name only. */
  predicate Wired(acts: seq<HostAction>) {
    forall a :: a in acts ==>
      if a.Direct? then !IsState(a.command)
      else a.action.Send? && IsState(a.action.event) ==> a.name == SOLDIER_STATE
  }

  lemma StatesMore(id: uint16, cmds: seq<Command>, more: seq<Command>)
    requires |more| <= 1
    ensures States(id, cmds + more) == States(id, cmds) + if more == [] then [] else StateFor(id, more[0])
  {
    if more == [] {
      assert cmds + more == cmds;
    } else {
      assert (cmds + more)[..|cmds|] == cmds;
    }
  }

  /** What a handler holds was sent. */
  lemma HeldWasSent(cfg: Config, acts: seq<Action<Command>>)
    ensures var p := After(cfg, Start(cfg), acts); p.inFlight.Some? ==> p.inFlight.value in Sent(acts)
  {
    var (p, l) := End(cfg, acts);
    EveryRunInOrder(cfg, acts);
    EveryRunConserved(cfg, acts);
    if p.inFlight.Some? {
      assert p.inFlight.value in InFlight(p);
      assert p.inFlight.value in l.accepted;
      assert p.inFlight.value in multiset(l.sent);
    }
  }

  lemma {:induction false} OtherQueuesCarryNoStates(acts: seq<HostAction>, name: string, c: Command)
    requires Wired(acts) && name != SOLDIER_STATE && c in Sent(Project(acts, name))
    ensures !IsState(c)
  {
    var before, a := acts[..|acts| - 1], acts[|acts| - 1];
    assert a in acts && forall x :: x in before ==> x in acts;
    if OnQueue(a, name) == [] {
      assert Project(before, name) + [] == Project(before, name);
      OtherQueuesCarryNoStates(before, name, c);
    } else {
      SentSnoc(Project(before, name), a.action);
      if c in Sent(Project(before, name)) {
        OtherQueuesCarryNoStates(before, name, c);
      }
    }
  }

  /** The commands the state queue handled. */
  function HandledStates(cfg: Config, acts: seq<HostAction>): seq<Command> {
    Handled(Log(cfg, Start(cfg), Project(acts, SOLDIER_STATE)))
  }

  /** What the state queue handles with one more action. */
  function HandledNow(cfg: Config, before: seq<HostAction>, a: HostAction): seq<Command> {
    if a.On? && a.name == SOLDIER_STATE && a.action.Finish?
    then InFlight(After(cfg, Start(cfg), Project(before, SOLDIER_STATE))) else []
  }

  lemma HandledStep(cfg: Config, acts: seq<HostAction>, a: HostAction)
    ensures HandledStates(cfg, acts + [a]) == HandledStates(cfg, acts) + HandledNow(cfg, acts, a)
  {
    assert (acts + [a])[..|acts|] == acts;
    var before := Project(acts, SOLDIER_STATE);
    if a.On? && a.name == SOLDIER_STATE {
      HandledSnoc(cfg, Start(cfg), before, a.action);
    } else {
      assert before + [] == before;
      assert HandledStates(cfg, acts) + [] == HandledStates(cfg, acts);
    }
  }

  /** A state that reaches the recorder comes from the state queue. */
  lemma ReachedOne(cfgs: map<string, Config>, before: seq<HostAction>, a: HostAction, id: uint16)
    requires Wired(before + [a]) && SOLDIER_STATE in cfgs
    ensures var reached := ExecutedBy(cfgs, before, a);
      reached != [] && StateFor(id, reached[0]) != [] ==>
        reached == HandledNow(cfgs[SOLDIER_STATE], before, a)
  {
    assert a in before + [a] && forall x :: x in before ==> x in before + [a];
    if a.On? && a.name in cfgs && a.name != SOLDIER_STATE && QueueAfter(cfgs, before, a.name).inFlight.Some? {
      HeldWasSent(cfgs[a.name], Project(before, a.name));
      OtherQueuesCarryNoStates(before, a.name, QueueAfter(cfgs, before, a.name).inFlight.value);
    }
  }

  lemma ReachedStep(id: uint16, executed: seq<Command>, handled: seq<Command>, reached: seq<Command>, now: seq<Command>)
    requires IsSubsequence(States(id, executed), States(id, handled))
    requires |reached| <= 1 && |now| <= 1
    requires reached != [] && StateFor(id, reached[0]) != [] ==> reached == now
    ensures IsSubsequence(States(id, executed + reached), States(id, handled + now))
  {
    StatesMore(id, executed, reached);
    StatesMore(id, handled, now);
    Extended(States(id, executed), States(id, handled),
             if reached == [] then [] else StateFor(id, reached[0]), if now == [] then [] else StateFor(id, now[0]));
  }

  lemma ReachedMore(cfgs: map<string, Config>, acts: seq<HostAction>, a: HostAction, id: uint16)
    requires Wired(acts + [a]) && SOLDIER_STATE in cfgs
    requires IsSubsequence(States(id, Executed(cfgs, acts)), States(id, HandledStates(cfgs[SOLDIER_STATE], acts)))
    ensures IsSubsequence(States(id, Executed(cfgs, acts + [a])),
                          States(id, HandledStates(cfgs[SOLDIER_STATE], acts + [a])))
  {
    var cfg := cfgs[SOLDIER_STATE];
    var executed, reached := Executed(cfgs, acts), ExecutedBy(cfgs, acts, a);
    var handled, now := HandledStates(cfg, acts), HandledNow(cfg, acts, a);
    ExecutedMore(cfgs, acts, a);
    HandledStep(cfg, acts, a);
    ReachedOne(cfgs, acts, a, id);
    ReachedStep(id, executed, handled, reached, now);
  }

  lemma WiredBefore(acts: seq<HostAction>, a: HostAction)
    requires Wired(acts + [a])
    ensures Wired(acts)
  {
    assert forall x :: x in acts ==> x in acts + [a];
  }

  /** What reached the recorder was handled before, in the same order. */
  lemma {:induction false} ReachedWereHandled(cfgs: map<string, Config>, acts: seq<HostAction>, id: uint16)
    requires Wired(acts) && SOLDIER_STATE in cfgs
    ensures IsSubsequence(States(id, Executed(cfgs, acts)), States(id, HandledStates(cfgs[SOLDIER_STATE], acts)))
  {
    if acts != [] {
      var before, a := acts[..|acts| - 1], acts[|acts| - 1];
      assert acts == before + [a];
      WiredBefore(before, a);
      ReachedWereHandled(cfgs, before, id);
      ReachedMore(cfgs, before, a, id);
    }
  }

  // ---- states in the store ----

  function RawStates(states: seq<SoldierState>): seq<SoldierState> { MapSeq(Raw, states) }

  ghost predicate StoredFrom(s: Snapshot, id: uint16, sent: seq<SoldierState>) {
    id in s.store.soldiers ==> IsSubsequence(RawStates(s.store.soldiers[id].states), sent)
  }

  lemma StoredStep(s: Snapshot, id: uint16, sent: seq<SoldierState>, c: Command)
    requires StoredFrom(s, id, sent)
    ensures StoredFrom(Step(s, c).0, id, sent + StateFor(id, c))
  {
    var after := Step(s, c).0.store.soldiers;
    if id in after && after[id].states != [] {
      var states := s.store.soldiers[id].states;
      if IsState(c) && c.soldierCommand.state.soldierId == id && id in s.caches.soldiers {
        var o := c.soldierCommand.state;
        assert after[id].states == states + [FillState(o, s.caches.soldiers[id])];
        assert RawStates(after[id].states) == RawStates(states) + [Raw(o)];
        KeepLast(RawStates(states), sent, Raw(o));
      } else {
        assert after[id].states == states;
        Extended(RawStates(states), sent, [], StateFor(id, c));
        assert RawStates(states) + [] == RawStates(states);
      }
    }
  }

  /** In every run, the stored states of a soldier are some of those executed, in their order. */
  lemma {:induction false} StoredWereExecuted(cmds: seq<Command>, id: uint16)
    ensures StoredFrom(Run(INITIAL, cmds), id, States(id, cmds))
  {
    if cmds != [] {
      var before, c := cmds[..|cmds| - 1], cmds[|cmds| - 1];
      StoredWereExecuted(before, id);
      StoredStep(Run(INITIAL, before), id, States(id, before), c);
      StatesMore(id, before, [c]);
      assert cmds == before + [c];
    }
  }

  /** No command of the list creates this soldier again, or starts or ends a mission. */
  ghost predicate KeepsSoldier(cmds: seq<Command>, id: uint16) {
    Recording(cmds)
    && forall c :: c in cmds && c.OnSoldier? && c.soldierCommand.NewSoldier? ==> c.soldierCommand.soldier.id != id
  }

  /** Once a soldier is created, every state executed for it is stored, from any state on. */
  lemma {:induction false} StoredExactly(s: Snapshot, o: Soldier, cmds: seq<Command>)
    requires KeepsSoldier(cmds, o.id)
    ensures var end := Run(Step(s, OnSoldier(NewSoldier(o))).0, cmds);
      && o.id in end.caches.soldiers && o.id in end.store.soldiers
      && RawStates(end.store.soldiers[o.id].states) == States(o.id, cmds)
  {
    if cmds != [] {
      var n := |cmds| - 1;
      var before, c := cmds[..n], cmds[n];
      assert c in cmds && forall x :: x in before ==> x in cmds;
      StoredExactly(s, o, before);
      var mid := Run(Step(s, OnSoldier(NewSoldier(o))).0, before);
      StatesMore(o.id, before, [c]);
      assert cmds == before + [c];
      StoredOne(mid, o.id, c);
    }
  }

  lemma StoredOne(s: Snapshot, id: uint16, c: Command)
    requires id in s.caches.soldiers && id in s.store.soldiers && KeepsSoldier([c], id)
    ensures var end := Step(s, c).0;
      && id in end.caches.soldiers && id in end.store.soldiers
      && RawStates(end.store.soldiers[id].states) == RawStates(s.store.soldiers[id].states) + StateFor(id, c)
  {
    assert c in [c];
    if c.OnSoldier? {
      StoredInRecord(s.caches.soldiers, s.store.soldiers, id, c.soldierCommand);
    } else {
      assert RawStates(s.store.soldiers[id].states) + [] == RawStates(s.store.soldiers[id].states);
    }
  }

  lemma StoredInRecord(cache: map<uint16, Soldier>, records: map<uint16, SoldierRecord>, id: uint16, c: SoldierCommand)
    requires id in cache && id in records && (c.NewSoldier? ==> c.soldier.id != id)
    ensures var r := StepSoldier(cache, records, c);
      && id in r.0 && id in r.1
      && RawStates(r.1[id].states) == RawStates(records[id].states) + StateFor(id, OnSoldier(c))
  {
    if c.RecordSoldier? && c.state.soldierId == id {
      assert Raw(FillState(c.state, cache[id])) == Raw(c.state);
    }
  }

  // ---- the exported timeline ----

  lemma RawFrames(states: seq<SoldierState>)
    ensures MapSeq(StateFrame, RawStates(states)) == MapSeq(StateFrame, states)
  {
  }

  /** The states dispatched for a soldier. */
  function Dispatched(acts: seq<HostAction>, id: uint16): seq<SoldierState> {
    States(id, Sent(Project(acts, SOLDIER_STATE)))
  }

  /** Through queueing, drops, panics and rejections: stored states are dispatched ones, in order. */
  lemma StoredWereDispatched(cfgs: map<string, Config>, acts: seq<HostAction>, id: uint16)
    requires Wired(acts) && SOLDIER_STATE in cfgs && !cfgs[SOLDIER_STATE].blocking
    ensures StoredFrom(HostAfter(cfgs, acts).recorder, id, Dispatched(acts, id))
  {
    var cfg := cfgs[SOLDIER_STATE];
    var cmds, handled := Executed(cfgs, acts), HandledStates(cfg, acts);
    HostIsQueuesAndRecorder(cfgs, acts);
    StoredWereExecuted(cmds, id);
    ReachedWereHandled(cfgs, acts, id);
    HandledIsPrefix(cfg, Project(acts, SOLDIER_STATE));
    Picked((c: Command) => StateFor(id, c), handled, Sent(Project(acts, SOLDIER_STATE)));
    var end := Run(INITIAL, cmds);
    if id in end.store.soldiers {
      var stored := RawStates(end.store.soldiers[id].states);
      Transitive(stored, States(id, cmds), States(id, handled));
      Transitive(stored, States(id, handled), Dispatched(acts, id));
    }
  }

  /** A gap-free timeline: one entry per frame, each the newest state, for as long as the soldier is shown. */
  ghost predicate GapFree(fmt: Format, r: SoldierRecord, maxFrame: Frame)
    requires r.states != []
  {
    ShowsStates(fmt, r, SoldierPositions(fmt, r, maxFrame, |r.states|), maxFrame)
  }

  lemma FramesAtMost(d: MissionData, id: uint16)
    requires id in d.soldiers
    ensures forall i :: 0 <= i < |d.soldiers[id].states| ==> d.soldiers[id].states[i].captureFrame <= MaxFrame(d)
  {
    MetadataBounds(d);
    forall i | 0 <= i < |d.soldiers[id].states| ensures d.soldiers[id].states[i].captureFrame <= MaxFrame(d) {
      assert SoldierFrames(d.soldiers)[id][i] in FramesIn(SoldierFrames(d.soldiers));
    }
  }
}
