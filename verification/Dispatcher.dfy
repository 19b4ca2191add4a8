/**
 The queue of one buffered command (internal/dispatcher/dispatcher.go, withBuffer and
 safeHandle) as a transition system. Any number of callers send, one goroutine drains; every
 list of actions is an interleaving, an action that is not enabled has no effect.
 */
module Dispatcher {
  import opened Wrappers
  import opened Subsequences

  datatype Config = Config(capacity: nat, blocking: bool, gated: bool)

  /** blocked holds the events of callers that wait for room in the channel, in any order. */
  datatype Pipe<E> = Pipe(
    buffer: seq<E>, blocked: seq<E>, inFlight: Option<E>, open: bool, processed: nat, dropped: nat)

  datatype Action<E> =
    | Send(event: E)          // a caller reaches the channel
    | Admit(index: nat)       // a waiting caller gets its event in
    | OpenGate
    | Receive                 // the goroutine takes the oldest event and calls the handler
    | Finish(panics: bool)    // the handler returns, or panics and is recovered

  /** What becomes of events: a caller gets "queued" or "queue full"; a handler ends. */
  datatype Notice<E> = Queued(event: E) | Full(event: E) | Returned(event: E) | Recovered(event: E)

  function Start<E>(cfg: Config): Pipe<E> { Pipe([], [], None, !cfg.gated, 0, 0) }

  function Without<T>(xs: seq<T>, i: nat): seq<T>
    requires i < |xs|
  {
    xs[..i] + xs[i + 1..]
  }

  function Next<E>(cfg: Config, p: Pipe<E>, a: Action<E>): (Pipe<E>, seq<Notice<E>>) {
    match a
    case Send(e) =>
      if |p.buffer| < cfg.capacity then (p.(buffer := p.buffer + [e]), [Queued(e)])
      else if cfg.blocking then (p.(blocked := p.blocked + [e]), [])
      else (p.(dropped := p.dropped + 1), [Full(e)])
    case Admit(i) =>
      if i < |p.blocked| && |p.buffer| < cfg.capacity
      then (p.(buffer := p.buffer + [p.blocked[i]], blocked := Without(p.blocked, i)), [Queued(p.blocked[i])])
      else (p, [])
    case OpenGate => (p.(open := true), [])
    case Receive =>
      if p.open && p.inFlight.None? && p.buffer != []
      then (p.(inFlight := Some(p.buffer[0]), buffer := p.buffer[1..]), [])
      else (p, [])
    case Finish(panics) =>
      if p.inFlight.None? then (p, [])
      else if panics then (p.(inFlight := None), [Recovered(p.inFlight.value)])
      else (p.(inFlight := None, processed := p.processed + 1), [Returned(p.inFlight.value)])
  }

  /** The queue after a list of actions. */
  function After<E>(cfg: Config, p: Pipe<E>, acts: seq<Action<E>>): Pipe<E> {
    if acts == [] then p else Next(cfg, After(cfg, p, acts[..|acts| - 1]), acts[|acts| - 1]).0
  }

  /** What was noticed on the way. */
  function Log<E>(cfg: Config, p: Pipe<E>, acts: seq<Action<E>>): seq<Notice<E>> {
    if acts == [] then []
    else
      var before := acts[..|acts| - 1];
      Log(cfg, p, before) + Next(cfg, After(cfg, p, before), acts[|acts| - 1]).1
  }

  // ---- reading a run ----

  function SentBy<E>(a: Action<E>): seq<E> { if a.Send? then [a.event] else [] }

  function Sent<E>(acts: seq<Action<E>>): seq<E> { FlatMap(SentBy, acts) }

  function AcceptedBy<E>(n: Notice<E>): seq<E> { if n.Queued? then [n.event] else [] }

  function RejectedBy<E>(n: Notice<E>): seq<E> { if n.Full? then [n.event] else [] }

  function HandledBy<E>(n: Notice<E>): seq<E> { if n.Returned? || n.Recovered? then [n.event] else [] }

  function PanickedBy<E>(n: Notice<E>): seq<E> { if n.Recovered? then [n.event] else [] }

  function Accepted<E>(log: seq<Notice<E>>): seq<E> { FlatMap(AcceptedBy, log) }

  function Rejected<E>(log: seq<Notice<E>>): seq<E> { FlatMap(RejectedBy, log) }

  function Handled<E>(log: seq<Notice<E>>): seq<E> { FlatMap(HandledBy, log) }

  function Panicked<E>(log: seq<Notice<E>>): seq<E> { FlatMap(PanickedBy, log) }

  function InFlight<E>(p: Pipe<E>): seq<E> { if p.inFlight.None? then [] else [p.inFlight.value] }

  lemma SentSnoc<E>(acts: seq<Action<E>>, a: Action<E>)
    ensures Sent(acts + [a]) == Sent(acts) + SentBy(a)
  {
    assert (acts + [a])[..|acts|] == acts;
  }

  /** One action: the queue and the notices it leaves. */
  lemma RunSnoc<E>(cfg: Config, p: Pipe<E>, acts: seq<Action<E>>, a: Action<E>)
    ensures var next := Next(cfg, After(cfg, p, acts), a);
      After(cfg, p, acts + [a]) == next.0 && Log(cfg, p, acts + [a]) == Log(cfg, p, acts) + next.1
  {
    assert (acts + [a])[..|acts|] == acts;
  }

  // ---- the ledger ----

  /** A run read as lists of events. */
  datatype Ledger<E> = Ledger(sent: seq<E>, accepted: seq<E>, rejected: seq<E>, handled: seq<E>, panicked: seq<E>)

  function LedgerOf<E>(acts: seq<Action<E>>, log: seq<Notice<E>>): Ledger<E> {
    Ledger(Sent(acts), Accepted(log), Rejected(log), Handled(log), Panicked(log))
  }

  /** The ledger after one more action and what was noticed of it. */
  function Entered<E>(l: Ledger<E>, a: Action<E>, noticed: seq<Notice<E>>): Ledger<E> {
    if noticed == [] then l.(sent := l.sent + SentBy(a))
    else
      var n := noticed[|noticed| - 1];
      Ledger(l.sent + SentBy(a), l.accepted + AcceptedBy(n), l.rejected + RejectedBy(n),
             l.handled + HandledBy(n), l.panicked + PanickedBy(n))
  }

  lemma LedgerSnoc<E>(acts: seq<Action<E>>, log: seq<Notice<E>>, a: Action<E>, noticed: seq<Notice<E>>)
    requires |noticed| <= 1
    ensures LedgerOf(acts + [a], log + noticed) == Entered(LedgerOf(acts, log), a, noticed)
  {
    SentSnoc(acts, a);
    if noticed == [] {
      assert log + noticed == log;
    } else {
      NoticeSnoc(log, noticed[0]);
      assert log + noticed == log + [noticed[0]];
    }
  }

  lemma NoticeSnoc<E>(log: seq<Notice<E>>, n: Notice<E>)
    ensures Accepted(log + [n]) == Accepted(log) + AcceptedBy(n)
    ensures Rejected(log + [n]) == Rejected(log) + RejectedBy(n)
    ensures Handled(log + [n]) == Handled(log) + HandledBy(n)
    ensures Panicked(log + [n]) == Panicked(log) + PanickedBy(n)
  {
    assert (log + [n])[..|log|] == log;
  }

  /** What was handled, what the handler holds and what waits in the channel: the accepted events, in order. */
  ghost predicate InOrder<E>(p: Pipe<E>, l: Ledger<E>) {
    l.handled + InFlight(p) + p.buffer == l.accepted
  }

  /** Every sent event was accepted, was rejected or waits to get in. */
  ghost predicate Conserved<E>(p: Pipe<E>, l: Ledger<E>) {
    multiset(l.sent) == multiset(l.accepted) + multiset(l.rejected) + multiset(p.blocked)
  }

  ghost predicate Counted<E>(p: Pipe<E>, l: Ledger<E>) {
    && |l.handled| == p.processed + |l.panicked|
    && |l.rejected| == p.dropped
    && |l.sent| == |l.accepted| + p.dropped + |p.blocked|
  }

  /** A blocking queue drops nothing; any other never blocks and keeps the order of sending. */
  ghost predicate ByMode<E>(cfg: Config, p: Pipe<E>, l: Ledger<E>) {
    if cfg.blocking then l.rejected == [] else p.blocked == [] && IsSubsequence(l.accepted, l.sent)
  }

  /** Nothing is handled before the gate opens. */
  ghost predicate GateKept<E>(cfg: Config, p: Pipe<E>, l: Ledger<E>) {
    !p.open ==> cfg.gated && l.handled == [] && p.inFlight.None?
  }

  lemma StepInOrder<E>(cfg: Config, p: Pipe<E>, l: Ledger<E>, a: Action<E>)
    requires InOrder(p, l)
    ensures var next := Next(cfg, p, a); InOrder(next.0, Entered(l, a, next.1))
  {
    var next := Next(cfg, p, a);
    var after := Entered(l, a, next.1);
    match a
    case Send(e) => assert next.0.buffer == p.buffer + AcceptedBy(Queued(e)) || next.0.buffer == p.buffer;
    case Receive => assert InFlight(next.0) + next.0.buffer == InFlight(p) + p.buffer;
    case _ =>
  }

  /** One more element in one of three parts, or moved from one to another. */
  lemma Shares<T>(all: multiset<T>, a: multiset<T>, b: multiset<T>, c: multiset<T>, x: T)
    ensures all == a + b + c ==> all + multiset{x} == (a + multiset{x}) + b + c
    ensures all == a + b + c ==> all + multiset{x} == a + (b + multiset{x}) + c
    ensures all == a + b + c ==> all + multiset{x} == a + b + (c + multiset{x})
    ensures all == a + b + (c + multiset{x}) ==> all == (a + multiset{x}) + b + c
  {
  }

  /** The lists behind two ledgers, as multisets. */
  ghost predicate Moved<T>(sent: seq<T>, accepted: seq<T>, rejected: seq<T>, blocked: seq<T>,
                           sent1: seq<T>, accepted1: seq<T>, rejected1: seq<T>, blocked1: seq<T>, x: T)
  {
    || (sent1 == sent + [x] && accepted1 == accepted + [x] && rejected1 == rejected && blocked1 == blocked)
    || (sent1 == sent + [x] && accepted1 == accepted && rejected1 == rejected + [x] && blocked1 == blocked)
    || (sent1 == sent + [x] && accepted1 == accepted && rejected1 == rejected && blocked1 == blocked + [x])
    || (sent1 == sent && accepted1 == accepted + [x] && rejected1 == rejected
        && exists i: nat :: i < |blocked| && blocked[i] == x && blocked1 == Without(blocked, i))
  }

  lemma MovedConserves<T>(sent: seq<T>, accepted: seq<T>, rejected: seq<T>, blocked: seq<T>,
                          sent1: seq<T>, accepted1: seq<T>, rejected1: seq<T>, blocked1: seq<T>, x: T)
    requires Moved(sent, accepted, rejected, blocked, sent1, accepted1, rejected1, blocked1, x)
    requires multiset(sent) == multiset(accepted) + multiset(rejected) + multiset(blocked)
    ensures multiset(sent1) == multiset(accepted1) + multiset(rejected1) + multiset(blocked1)
  {
    Shares(multiset(sent), multiset(accepted), multiset(rejected), multiset(blocked), x);
    if sent1 == sent {
      var i: nat :| i < |blocked| && blocked[i] == x && blocked1 == Without(blocked, i);
      OneLess(blocked, i);
      Shares(multiset(sent), multiset(accepted), multiset(rejected), multiset(blocked1), x);
    }
  }

  lemma OneLess<T>(xs: seq<T>, i: nat)
    requires i < |xs|
    ensures multiset(xs) == multiset(Without(xs, i)) + multiset{xs[i]}
  {
    assert xs == xs[..i] + [xs[i]] + xs[i + 1..];
  }

  lemma SendMoves<E>(cfg: Config, p: Pipe<E>, l: Ledger<E>, e: E)
    ensures var next := Next(cfg, p, Send(e)); var after := Entered(l, Send(e), next.1);
      Moved(l.sent, l.accepted, l.rejected, p.blocked, after.sent, after.accepted, after.rejected, next.0.blocked, e)
  {
    assert l.accepted + [] == l.accepted && l.rejected + [] == l.rejected;
  }

  lemma AdmitMoves<E>(cfg: Config, p: Pipe<E>, l: Ledger<E>, i: nat)
    requires i < |p.blocked| && |p.buffer| < cfg.capacity
    ensures var next := Next(cfg, p, Admit(i)); var after := Entered(l, Admit(i), next.1);
      Moved(l.sent, l.accepted, l.rejected, p.blocked,
            after.sent, after.accepted, after.rejected, next.0.blocked, p.blocked[i])
  {
    assert l.sent + [] == l.sent && l.rejected + [] == l.rejected;
  }

  lemma OthersMoveNothing<E>(cfg: Config, p: Pipe<E>, l: Ledger<E>, a: Action<E>)
    requires !a.Send? && !(a.Admit? && a.index < |p.blocked| && |p.buffer| < cfg.capacity)
    ensures var next := Next(cfg, p, a); var after := Entered(l, a, next.1);
      after.sent == l.sent && after.accepted == l.accepted && after.rejected == l.rejected
      && next.0.blocked == p.blocked
  {
    assert l.sent + [] == l.sent && l.accepted + [] == l.accepted && l.rejected + [] == l.rejected;
  }

  lemma StepConserved<E>(cfg: Config, p: Pipe<E>, l: Ledger<E>, a: Action<E>)
    requires Conserved(p, l)
    ensures var next := Next(cfg, p, a); Conserved(next.0, Entered(l, a, next.1))
  {
    var (q, noticed) := Next(cfg, p, a);
    var after := Entered(l, a, noticed);
    if a.Send? {
      SendMoves(cfg, p, l, a.event);
      MovedConserves(l.sent, l.accepted, l.rejected, p.blocked,
                     after.sent, after.accepted, after.rejected, q.blocked, a.event);
    } else if a.Admit? && a.index < |p.blocked| && |p.buffer| < cfg.capacity {
      AdmitMoves(cfg, p, l, a.index);
      MovedConserves(l.sent, l.accepted, l.rejected, p.blocked,
                     after.sent, after.accepted, after.rejected, q.blocked, p.blocked[a.index]);
    } else {
      OthersMoveNothing(cfg, p, l, a);
    }
  }

  lemma SendByMode<E>(cfg: Config, p: Pipe<E>, l: Ledger<E>, e: E)
    requires ByMode(cfg, p, l) && !cfg.blocking
    ensures var next := Next(cfg, p, Send(e)); ByMode(cfg, next.0, Entered(l, Send(e), next.1))
  {
    var accepted := if |p.buffer| < cfg.capacity then [e] else [];
    Extended(l.accepted, l.sent, accepted, [e]);
  }

  lemma StepByMode<E>(cfg: Config, p: Pipe<E>, l: Ledger<E>, a: Action<E>)
    requires ByMode(cfg, p, l)
    ensures var next := Next(cfg, p, a); ByMode(cfg, next.0, Entered(l, a, next.1))
  {
    if a.Send? && !cfg.blocking {
      SendByMode(cfg, p, l, a.event);
    } else {
      assert l.sent + [] == l.sent && l.rejected + [] == l.rejected && l.accepted + [] == l.accepted;
    }
  }

  /** The queue and the ledger at the end of a run. */
  function End<E>(cfg: Config, acts: seq<Action<E>>): (Pipe<E>, Ledger<E>) {
    (After(cfg, Start(cfg), acts), LedgerOf(acts, Log(cfg, Start(cfg), acts)))
  }

  /** What a run leaves after its first n actions. */
  function EndAt<E>(cfg: Config, acts: seq<Action<E>>, n: nat): (Pipe<E>, Ledger<E>)
    requires n <= |acts|
  {
    End(cfg, acts[..n])
  }

  lemma EndAtNext<E>(cfg: Config, acts: seq<Action<E>>, n: nat)
    requires n < |acts|
    ensures var (p, l) := EndAt(cfg, acts, n);
      EndAt(cfg, acts, n + 1) == (Next(cfg, p, acts[n]).0, Entered(l, acts[n], Next(cfg, p, acts[n]).1))
  {
    var before := acts[..n];
    assert acts[..n + 1] == before + [acts[n]];
    RunSnoc(cfg, Start(cfg), before, acts[n]);
    LedgerSnoc(before, Log(cfg, Start(cfg), before), acts[n], Next(cfg, After(cfg, Start(cfg), before), acts[n]).1);
  }

  lemma {:induction false} InductionUpTo<E(!new)>(cfg: Config, acts: seq<Action<E>>,
                                                  inv: (Pipe<E>, Ledger<E>) -> bool, n: nat)
    requires n <= |acts|
    requires inv(Start(cfg), LedgerOf<E>([], []))
    requires forall p, l, a :: inv(p, l) ==> inv(Next(cfg, p, a).0, Entered(l, a, Next(cfg, p, a).1))
    ensures inv(EndAt(cfg, acts, n).0, EndAt(cfg, acts, n).1)
  {
    if n == 0 {
      assert acts[..0] == [];
    } else {
      InductionUpTo(cfg, acts, inv, n - 1);
      EndAtNext(cfg, acts, n - 1);
    }
  }

  /** What holds of an idle queue and survives every action holds after every run. */
  lemma RunInduction<E(!new)>(cfg: Config, acts: seq<Action<E>>, inv: (Pipe<E>, Ledger<E>) -> bool)
    requires inv(Start(cfg), LedgerOf<E>([], []))
    requires forall p, l, a :: inv(p, l) ==> inv(Next(cfg, p, a).0, Entered(l, a, Next(cfg, p, a).1))
    ensures inv(End(cfg, acts).0, End(cfg, acts).1)
  {
    InductionUpTo(cfg, acts, inv, |acts|);
    assert acts[..|acts|] == acts;
  }

  /** First in, first out: for every interleaving of callers and every pattern of panics. */
  lemma EveryRunInOrder<E(!new)>(cfg: Config, acts: seq<Action<E>>)
    ensures InOrder(End(cfg, acts).0, End(cfg, acts).1)
  {
    forall p: Pipe<E>, l: Ledger<E>, a: Action<E> | InOrder(p, l)
      ensures InOrder(Next(cfg, p, a).0, Entered(l, a, Next(cfg, p, a).1))
    {
      StepInOrder(cfg, p, l, a);
    }
    RunInduction(cfg, acts, (p: Pipe<E>, l: Ledger<E>) => InOrder(p, l));
  }

  /** No event is lost, invented or doubled. */
  lemma EveryRunConserved<E(!new)>(cfg: Config, acts: seq<Action<E>>)
    ensures Conserved(End(cfg, acts).0, End(cfg, acts).1)
  {
    forall p: Pipe<E>, l: Ledger<E>, a: Action<E> | Conserved(p, l)
      ensures Conserved(Next(cfg, p, a).0, Entered(l, a, Next(cfg, p, a).1))
    {
      StepConserved(cfg, p, l, a);
    }
    RunInduction(cfg, acts, (p: Pipe<E>, l: Ledger<E>) => Conserved(p, l));
  }

  /** The counters: handled = processed + panicked, sent = accepted + dropped + waiting. */
  lemma EveryRunCounted<E(!new)>(cfg: Config, acts: seq<Action<E>>)
    ensures Counted(End(cfg, acts).0, End(cfg, acts).1)
  {
    forall p: Pipe<E>, l: Ledger<E>, a: Action<E> | Counted(p, l)
      ensures Counted(Next(cfg, p, a).0, Entered(l, a, Next(cfg, p, a).1))
    {
    }
    RunInduction(cfg, acts, (p: Pipe<E>, l: Ledger<E>) => Counted(p, l));
  }

  lemma EveryRunByMode<E(!new)>(cfg: Config, acts: seq<Action<E>>)
    ensures ByMode(cfg, End(cfg, acts).0, End(cfg, acts).1)
  {
    forall p: Pipe<E>, l: Ledger<E>, a: Action<E> | ByMode(cfg, p, l)
      ensures ByMode(cfg, Next(cfg, p, a).0, Entered(l, a, Next(cfg, p, a).1))
    {
      StepByMode(cfg, p, l, a);
    }
    RunInduction(cfg, acts, (p: Pipe<E>, l: Ledger<E>) => ByMode(cfg, p, l));
  }

  lemma EveryRunGateKept<E(!new)>(cfg: Config, acts: seq<Action<E>>)
    ensures GateKept(cfg, End(cfg, acts).0, End(cfg, acts).1)
  {
    forall p: Pipe<E>, l: Ledger<E>, a: Action<E> | GateKept(cfg, p, l)
      ensures GateKept(cfg, Next(cfg, p, a).0, Entered(l, a, Next(cfg, p, a).1))
    {
    }
    RunInduction(cfg, acts, (p: Pipe<E>, l: Ledger<E>) => GateKept(cfg, p, l));
  }

  /**
   A caller is told "queue full" exactly when it sends to a full channel of a command that does
   not block, and the channel never holds more than its capacity.
   */
  lemma RejectedOnlyWhenFull<E(!new)>(cfg: Config, acts: seq<Action<E>>, a: Action<E>, e: E)
    ensures var p := After(cfg, Start(cfg), acts);
      && |p.buffer| <= cfg.capacity
      && (Full(e) in Next(cfg, p, a).1 <==> a == Send(e) && |p.buffer| == cfg.capacity && !cfg.blocking)
  {
    RunInduction(cfg, acts, (p: Pipe<E>, l: Ledger<E>) => |p.buffer| <= cfg.capacity);
  }

  lemma PartsInOrder<T>(handled: seq<T>, rest: seq<T>, accepted: seq<T>)
    requires handled + rest == accepted
    ensures handled <= accepted && IsSubsequence(handled, accepted)
  {
    Prefix(handled, rest);
  }

  /** Handling goes on exactly where a handler ends. */
  lemma HandledSnoc<E>(cfg: Config, p: Pipe<E>, acts: seq<Action<E>>, a: Action<E>)
    ensures Handled(Log(cfg, p, acts + [a]))
         == Handled(Log(cfg, p, acts)) + if a.Finish? then InFlight(After(cfg, p, acts)) else []
  {
    RunSnoc(cfg, p, acts, a);
    var log, noticed := Log(cfg, p, acts), Next(cfg, After(cfg, p, acts), a).1;
    if noticed == [] {
      assert log + noticed == log;
      assert Handled(log) + [] == Handled(log);
    } else {
      assert log + noticed == log + [noticed[0]];
      NoticeSnoc(log, noticed[0]);
      assert Handled(log) + [] == Handled(log);
    }
  }

  /** Handled events are a beginning of the accepted ones. */
  lemma HandledIsPrefix<E(!new)>(cfg: Config, acts: seq<Action<E>>)
    ensures var l := End(cfg, acts).1;
      l.handled <= l.accepted && (!cfg.blocking ==> IsSubsequence(l.handled, l.sent))
  {
    EveryRunInOrder(cfg, acts);
    var (p, l) := End(cfg, acts);
    assert l.handled + InFlight(p) + p.buffer == l.handled + (InFlight(p) + p.buffer);
    PartsInOrder(l.handled, InFlight(p) + p.buffer, l.accepted);
    if !cfg.blocking {
      EveryRunByMode(cfg, acts);
      Transitive(l.handled, l.accepted, l.sent);
    }
  }

  // ---- waiting callers served in order ----

  /**
   The longest-waiting caller gets in first, and nobody overtakes a waiting caller: room in the
   channel goes to those who wait.
   */
  predicate Fair<E>(cfg: Config, p: Pipe<E>, a: Action<E>) {
    match a
    case Send(_) => p.blocked != [] ==> |p.buffer| >= cfg.capacity
    case Admit(i) => i == 0
    case _ => true
  }

  ghost predicate FairRun<E>(cfg: Config, acts: seq<Action<E>>) {
    forall i :: 0 <= i < |acts| ==> Fair(cfg, After(cfg, Start(cfg), acts[..i]), acts[i])
  }

  /** Accepted events, then the waiting ones, are the sent ones in order. */
  ghost predicate ServedInOrder<E>(p: Pipe<E>, l: Ledger<E>) { l.accepted + p.blocked == l.sent }

  lemma SendServed<E>(cfg: Config, p: Pipe<E>, l: Ledger<E>, e: E)
    requires cfg.blocking && ServedInOrder(p, l) && Fair(cfg, p, Send(e))
    ensures var next := Next(cfg, p, Send(e)); ServedInOrder(next.0, Entered(l, Send(e), next.1))
  {
    if |p.buffer| < cfg.capacity {
      assert l.accepted + p.blocked == l.accepted;
      assert l.accepted + [e] + p.blocked == l.accepted + [e];
    } else {
      assert l.accepted + (p.blocked + [e]) == l.accepted + p.blocked + [e];
    }
  }

  lemma AdmitServed<E>(accepted: seq<E>, blocked: seq<E>)
    requires blocked != []
    ensures accepted + [blocked[0]] + Without(blocked, 0) == accepted + blocked
  {
  }

  lemma StepServed<E>(cfg: Config, p: Pipe<E>, l: Ledger<E>, a: Action<E>)
    requires cfg.blocking && ServedInOrder(p, l) && Fair(cfg, p, a)
    ensures var next := Next(cfg, p, a); ServedInOrder(next.0, Entered(l, a, next.1))
  {
    if a.Send? {
      SendServed(cfg, p, l, a.event);
    } else {
      assert l.sent + [] == l.sent && l.accepted + [] == l.accepted;
      if a.Admit? && p.blocked != [] {
        AdmitServed(l.accepted, p.blocked);
      }
    }
  }

  lemma {:induction false} ServedUpTo<E>(cfg: Config, acts: seq<Action<E>>, n: nat)
    requires cfg.blocking && FairRun(cfg, acts) && n <= |acts|
    ensures ServedInOrder(EndAt(cfg, acts, n).0, EndAt(cfg, acts, n).1)
  {
    if n > 0 {
      ServedUpTo(cfg, acts, n - 1);
      EndAtNext(cfg, acts, n - 1);
      var (p, l) := EndAt(cfg, acts, n - 1);
      StepServed(cfg, p, l, acts[n - 1]);
    }
  }

  /** A blocking queue that serves its callers in order accepts events in the order of sending. */
  lemma BlockingInOrder<E>(cfg: Config, acts: seq<Action<E>>)
    requires cfg.blocking && FairRun(cfg, acts)
    ensures ServedInOrder(End(cfg, acts).0, End(cfg, acts).1)
  {
    ServedUpTo(cfg, acts, |acts|);
    assert acts[..|acts|] == acts;
  }

  // ---- panics do not stop the queue ----

  /** The goroutine works off what is buffered; panics[i] says how the i-th handler ends. */
  function Drain<E>(panics: seq<bool>): seq<Action<E>> {
    if panics == [] then [] else Drain(panics[..|panics| - 1]) + [Receive] + [Finish(panics[|panics| - 1])]
  }

  /** Taking the oldest event and handling it. */
  lemma HandleOne<E>(cfg: Config, p: Pipe<E>, before: seq<Action<E>>, panics: bool)
    requires var q := After(cfg, p, before); q.open && q.inFlight.None? && q.buffer != []
    ensures var q := After(cfg, p, before); var r := After(cfg, p, before + [Receive] + [Finish(panics)]);
      && r.open && r.inFlight.None? && r.buffer == q.buffer[1..]
      && Handled(Log(cfg, p, before + [Receive] + [Finish(panics)])) == Handled(Log(cfg, p, before)) + [q.buffer[0]]
  {
    RunSnoc(cfg, p, before, Receive);
    RunSnoc(cfg, p, before + [Receive], Finish(panics));
    HandledSnoc(cfg, p, before, Receive);
    HandledSnoc(cfg, p, before + [Receive], Finish(panics));
    assert Handled(Log(cfg, p, before)) + [] == Handled(Log(cfg, p, before));
  }

  /**
   From every state with an open gate and an idle handler, the goroutine can work off the
   buffer whichever handlers panic: every buffered event is handled, once and in order.
   */
  lemma {:induction false} PanicsDoNotStopTheQueue<E>(cfg: Config, p: Pipe<E>, panics: seq<bool>)
    requires p.open && p.inFlight.None? && |panics| <= |p.buffer|
    ensures var q := After(cfg, p, Drain(panics));
      && q.open && q.inFlight.None? && q.buffer == p.buffer[|panics|..]
      && Handled(Log(cfg, p, Drain(panics))) == p.buffer[..|panics|]
  {
    if panics != [] {
      var n := |panics| - 1;
      PanicsDoNotStopTheQueue(cfg, p, panics[..n]);
      HandleOne(cfg, p, Drain(panics[..n]), panics[n]);
      assert p.buffer[..n] + [p.buffer[n]] == p.buffer[..n + 1];
    }
  }
}
