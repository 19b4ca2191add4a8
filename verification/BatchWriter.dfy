/**
 The queue (internal/queue/queue.go) and the batch writer that drains it into the database
 (writeQueue in internal/storage/postgres/postgres.go). Database inserts are atomic, and a
 commit after a successful insert succeeds.
 */
module BatchWriter {
  import opened Wrappers

  /** Each method holds the lock for its whole body, so it is one atomic step. */
  class Queue<T> {
    var items: seq<T>

    constructor ()
      ensures items == []
    {
      items := [];
    }

    method Push(more: seq<T>)
      modifies this
      ensures items == old(items) + more
    {
      items := items + more;
    }

    /** The oldest item; the zero value of the type when there is none. */
    method Pop(zero: T) returns (item: T)
      modifies this
      ensures old(items) == [] ==> item == zero && items == []
      ensures old(items) != [] ==> old(items) == [item] + items
    {
      if |items| == 0 {
        return zero;
      }
      item := items[0];
      items := items[1..];
    }

    method Empty() returns (empty: bool)
      ensures empty <==> items == []
    {
      empty := |items| == 0;
    }

    method Len() returns (n: nat)
      ensures n == |items|
    {
      n := |items|;
    }

    method Clear()
      modifies this
      ensures items == []
    {
      items := items[..0];
    }

    method GetAndEmpty() returns (result: seq<T>)
      modifies this
      ensures result == old(items) && items == []
    {
      result := items;
      items := [];
    }
  }

  // ---- rows ----

  /** A queued row: its content, and the mission ID stamped on it when it is written. */
  datatype Row<T> = Row(content: T, missionId: nat)

  function ContentOf<T>(r: Row<T>): T { r.content }

  function Contents<T>(rows: seq<Row<T>>): seq<T> { MapSeq(ContentOf, rows) }

  function Stamped<T>(rows: seq<Row<T>>, missionId: nat): (r: seq<Row<T>>)
    ensures |r| == |rows| && Contents(r) == Contents(rows)
    ensures forall x :: x in r ==> x.missionId == missionId
  {
    seq(|rows|, i requires 0 <= i < |rows| => rows[i].(missionId := missionId))
  }

  /** prepare: stamps the drained rows in place. */
  method StampInPlace<T>(rows: array<Row<T>>, missionId: nat)
    modifies rows
    ensures rows[..] == Stamped(old(rows[..]), missionId)
  {
    for i := 0 to rows.Length
      invariant rows[..i] == Stamped(old(rows[..]), missionId)[..i]
      invariant rows[i..] == old(rows[..])[i..]
    {
      assert rows[i] == old(rows[..])[i..][0];
      rows[i] := rows[i].(missionId := missionId);
    }
  }

  /** One undisturbed call: the batch is committed and handed to onSuccess, or goes back to the queue. */
  method WriteQueue<T>(q: Queue<Row<T>>, missionId: nat, inserted: bool) returns (committed: seq<Row<T>>)
    modifies q
    ensures inserted ==> committed == Stamped(old(q.items), missionId) && q.items == []
    ensures !inserted ==> committed == [] && q.items == Stamped(old(q.items), missionId)
  {
    var empty := q.Empty();
    if empty {
      return [];
    }
    var drained := q.GetAndEmpty();
    var rows := new Row<T>[|drained|](i requires 0 <= i < |drained| => drained[i]);
    assert rows[..] == drained;
    StampInPlace(rows, missionId);
    if !inserted {
      q.Push(rows[..]);
      return [];
    }
    return rows[..];
  }

  // ---- writer and pushers, interleaved ----

  /** Where the writer stands: between calls, in a transaction, with a drained batch, with a stamped one. */
  datatype Phase = Idle | Begun | Drained | Ready

  /** cycleMission is the mission ID read at the start of the write cycle. */
  datatype Writer<T> = Writer(
    queue: seq<Row<T>>, hand: seq<Row<T>>, committed: seq<Row<T>>, phase: Phase, mission: nat, cycleMission: nat)

  datatype Event<T> =
    | Pushed(contents: seq<T>)   // some goroutine queues rows
    | MissionSet(mission: nat)
    | Cycle                      // the writer reads the mission ID
    | Begin                      // writeQueue finds the queue not empty
    | Drain
    | Stamp
    | Insert(ok: bool)           // and commit, or roll back and queue again

  function Start<T>(): Writer<T> { Writer([], [], [], Idle, 0, 0) }

  function Unstamped<T>(c: T): Row<T> { Row(c, 0) }

  function Next<T>(w: Writer<T>, e: Event<T>): Writer<T> {
    match e
    case Pushed(cs) => w.(queue := w.queue + MapSeq(Unstamped, cs))
    case MissionSet(m) => w.(mission := m)
    case Cycle => if w.phase.Idle? then w.(cycleMission := w.mission) else w
    case Begin => if w.phase.Idle? && w.queue != [] then w.(phase := Begun) else w
    case Drain => if w.phase.Begun? then w.(phase := Drained, hand := w.queue, queue := []) else w
    case Stamp => if w.phase.Drained? then w.(phase := Ready, hand := Stamped(w.hand, w.cycleMission)) else w
    case Insert(ok) =>
      if !w.phase.Ready? then w
      else if ok then w.(phase := Idle, committed := w.committed + w.hand, hand := [])
      else w.(phase := Idle, queue := w.queue + w.hand, hand := [])
  }

  function After<T>(events: seq<Event<T>>): Writer<T> {
    if events == [] then Start() else Next(After(events[..|events| - 1]), events[|events| - 1])
  }

  function PushedBy<T>(e: Event<T>): seq<T> { if e.Pushed? then e.contents else [] }

  /** Everything that was pushed, in order. */
  function AllPushed<T>(events: seq<Event<T>>): seq<T> { FlatMap(PushedBy, events) }

  /** What holds at the start and survives every event holds after every run. */
  lemma {:induction false} RunInduction<T(!new)>(events: seq<Event<T>>, inv: (Writer<T>, seq<T>) -> bool)
    requires inv(Start(), [])
    requires forall w, pushed, e :: inv(w, pushed) ==> inv(Next(w, e), pushed + PushedBy(e))
    ensures inv(After(events), AllPushed(events))
  {
    if events != [] {
      RunInduction(events[..|events| - 1], inv);
    }
  }

  // ---- nothing lost, nothing twice ----

  /** Only a drained batch is in hand. */
  predicate HandOk<T>(w: Writer<T>) { w.phase.Idle? || w.phase.Begun? ==> w.hand == [] }

  ghost predicate Conserved<T>(w: Writer<T>, pushed: seq<T>) {
    HandOk(w)
    && multiset(pushed) == multiset(Contents(w.queue)) + multiset(Contents(w.hand)) + multiset(Contents(w.committed))
  }

  lemma ContentsConcat<T>(a: seq<Row<T>>, b: seq<Row<T>>)
    ensures Contents(a + b) == Contents(a) + Contents(b)
  {
  }

  lemma Regroup<T>(q: multiset<T>, h: multiset<T>, c: multiset<T>, x: multiset<T>)
    ensures q + h + c + x == (q + x) + h + c
    ensures q + h + c == q + multiset{} + (c + h) == (q + h) + multiset{} + c
  {
  }

  lemma StepConserved<T>(w: Writer<T>, pushed: seq<T>, e: Event<T>)
    requires Conserved(w, pushed)
    ensures Conserved(Next(w, e), pushed + PushedBy(e))
  {
    var q, h, c := Contents(w.queue), Contents(w.hand), Contents(w.committed);
    assert pushed + [] == pushed;
    match e
    case Pushed(cs) =>
      ContentsConcat(w.queue, MapSeq(Unstamped, cs));
      assert Contents(MapSeq(Unstamped, cs)) == cs;
      Regroup(multiset(q), multiset(h), multiset(c), multiset(cs));
    case Insert(ok) =>
      ContentsConcat(w.committed, w.hand);
      ContentsConcat(w.queue, w.hand);
      Regroup(multiset(q), multiset(h), multiset(c), multiset{});
    case _ =>
  }

  /** For every interleaving of pushes and every pattern of failing inserts. */
  lemma EveryRunConserved<T(!new)>(events: seq<Event<T>>)
    ensures Conserved(After(events), AllPushed(events))
  {
    forall w: Writer<T>, pushed: seq<T>, e: Event<T> | Conserved(w, pushed)
      ensures Conserved(Next(w, e), pushed + PushedBy(e))
    {
      StepConserved(w, pushed, e);
    }
    RunInduction(events, (w: Writer<T>, pushed: seq<T>) => Conserved(w, pushed));
  }

  /** What was pushed once is committed at most once, and what is neither queued nor in hand is committed. */
  lemma CommittedOnce<T(!new)>(events: seq<Event<T>>, x: T)
    ensures var w := After(events);
      && multiset(Contents(w.committed))[x] <= multiset(AllPushed(events))[x]
      && (x !in Contents(w.queue) && x !in Contents(w.hand)
          ==> multiset(Contents(w.committed))[x] == multiset(AllPushed(events))[x])
  {
    EveryRunConserved(events);
    var w := After(events);
    assert multiset(AllPushed(events))[x]
        == multiset(Contents(w.queue))[x] + multiset(Contents(w.hand))[x] + multiset(Contents(w.committed))[x];
    assert x !in Contents(w.queue) ==> x !in multiset(Contents(w.queue));
    assert x !in Contents(w.hand) ==> x !in multiset(Contents(w.hand));
  }

  // ---- order ----

  /** Committed, in hand and queued rows are the pushed ones, in the order of pushing. */
  ghost predicate Ordered<T>(w: Writer<T>, pushed: seq<T>) {
    HandOk(w) && Contents(w.committed) + Contents(w.hand) + Contents(w.queue) == pushed
  }

  /** A batch that goes back is not put behind different, newer rows. */
  ghost predicate KeepsOrder<T>(w: Writer<T>, e: Event<T>) {
    e.Insert? && !e.ok && w.phase.Ready? ==>
      Contents(w.queue) + Contents(w.hand) == Contents(w.hand) + Contents(w.queue)
  }

  /** A step takes the rows out of order exactly when a failed batch is queued behind newer rows. */
  lemma OrderExact<T>(w: Writer<T>, pushed: seq<T>, e: Event<T>)
    requires Ordered(w, pushed)
    ensures Ordered(Next(w, e), pushed + PushedBy(e)) <==> KeepsOrder(w, e)
  {
    var q, h, c := Contents(w.queue), Contents(w.hand), Contents(w.committed);
    assert pushed + [] == pushed;
    match e
    case Pushed(cs) =>
      ContentsConcat(w.queue, MapSeq(Unstamped, cs));
      assert Contents(MapSeq(Unstamped, cs)) == cs;
      assert c + h + (q + cs) == c + h + q + cs;
    case Insert(ok) =>
      ContentsConcat(w.committed, w.hand);
      ContentsConcat(w.queue, w.hand);
      assert c + h + [] + q == c + h + q;
      if w.phase.Ready? && !ok {
        Uncons(c, q + h, h + q);
        assert c + [] + (q + h) == c + (q + h);
        assert c + h + q == c + (h + q);
      }
    case _ =>
      assert c + [] + q == c + q + [];
      assert c + q + [] == c + q;
  }

  lemma Uncons<T>(c: seq<T>, a: seq<T>, b: seq<T>)
    ensures c + a == c + b <==> a == b
  {
    assert (c + a)[|c|..] == a && (c + b)[|c|..] == b;
  }

  lemma AfterAt<T>(events: seq<Event<T>>, i: nat)
    requires i < |events|
    ensures After(events[..i + 1]) == Next(After(events[..i]), events[i])
    ensures AllPushed(events[..i + 1]) == AllPushed(events[..i]) + PushedBy(events[i])
  {
    assert events[..i + 1][..i] == events[..i];
  }

  ghost predicate OrderedAt<T>(events: seq<Event<T>>, n: nat)
    requires n <= |events|
  {
    Ordered(After(events[..n]), AllPushed(events[..n]))
  }

  ghost predicate KeepsOrderAt<T>(events: seq<Event<T>>, i: nat)
    requires i < |events|
  {
    KeepsOrder(After(events[..i]), events[i])
  }

  lemma {:induction false} OrderedUpTo<T>(events: seq<Event<T>>, n: nat)
    requires n <= |events| && forall i: nat :: i < n ==> KeepsOrderAt(events, i)
    ensures OrderedAt(events, n)
  {
    if n == 0 {
      assert events[..0] == [];
    } else {
      OrderedUpTo(events, n - 1);
      assert KeepsOrderAt(events, n - 1);
      AfterAt(events, n - 1);
      OrderExact(After(events[..n - 1]), AllPushed(events[..n - 1]), events[n - 1]);
    }
  }

  /** Rows are in the order of pushing throughout a run exactly when no failed batch is put behind newer rows. */
  lemma RunOrderExact<T>(events: seq<Event<T>>)
    ensures (forall n: nat :: n <= |events| ==> OrderedAt(events, n))
       <==> (forall i: nat :: i < |events| ==> KeepsOrderAt(events, i))
  {
    if forall i: nat :: i < |events| ==> KeepsOrderAt(events, i) {
      forall n: nat | n <= |events| ensures OrderedAt(events, n) {
        OrderedUpTo(events, n);
      }
    }
    if forall n: nat :: n <= |events| ==> OrderedAt(events, n) {
      forall i: nat | i < |events| ensures KeepsOrderAt(events, i) {
        assert OrderedAt(events, i) && OrderedAt(events, i + 1);
        AfterAt(events, i);
        OrderExact(After(events[..i]), AllPushed(events[..i]), events[i]);
      }
    }
  }

  /** If this is a failing insert, nothing was queued since the batch was drained. */
  ghost predicate AloneAt<T>(events: seq<Event<T>>, i: nat)
    requires i < |events|
  {
    events[i].Insert? && !events[i].ok ==> After(events[..i]).queue == []
  }

  lemma AloneKeepsOrder<T>(events: seq<Event<T>>, i: nat)
    requires i < |events| && AloneAt(events, i)
    ensures KeepsOrderAt(events, i)
  {
    var w := After(events[..i]);
    assert [] + Contents(w.hand) == Contents(w.hand) == Contents(w.hand) + [];
    assert w.queue == [] ==> Contents(w.queue) == [];
  }

  /** If every failing insert finds the queue empty, rows are committed in the order of pushing. */
  lemma CommittedInOrder<T>(events: seq<Event<T>>)
    requires forall i: nat :: i < |events| ==> AloneAt(events, i)
    ensures Ordered(After(events), AllPushed(events))
    ensures Contents(After(events).committed) <= AllPushed(events)
  {
    forall i: nat | i < |events| ensures KeepsOrderAt(events, i) {
      AloneKeepsOrder(events, i);
    }
    OrderedUpTo(events, |events|);
    assert events[..|events|] == events;
    CommittedFirst(After(events), AllPushed(events));
  }

  lemma CommittedFirst<T>(w: Writer<T>, pushed: seq<T>)
    requires Ordered(w, pushed)
    ensures Contents(w.committed) <= pushed
  {
    assert pushed == Contents(w.committed) + (Contents(w.hand) + Contents(w.queue));
  }

  // ---- stamps ----

  /** The mission after a list of events that starts in mission m. */
  function MissionAfter<T>(m: nat, events: seq<Event<T>>): nat {
    if events == [] then m
    else
      var e := events[|events| - 1];
      if e.MissionSet? then e.mission else MissionAfter(m, events[..|events| - 1])
  }

  function MissionAt<T>(events: seq<Event<T>>): nat { MissionAfter(0, events) }

  lemma {:induction false} MissionIs<T>(events: seq<Event<T>>)
    ensures After(events).mission == MissionAt(events)
  {
    if events != [] {
      MissionIs(events[..|events| - 1]);
    }
  }

  /** The writer reads the mission ID at event c and not again since. */
  ghost predicate LastRead<T>(events: seq<Event<T>>, c: nat) {
    && c < |events| && events[c].Cycle? && After(events[..c]).phase.Idle?
    && forall j :: c < j < |events| && events[j].Cycle? ==> !After(events[..j]).phase.Idle?
  }

  /** The mission ID the writer holds after n events is the one of its last read. */
  lemma {:induction false} HeldMission<T>(events: seq<Event<T>>, c: nat, n: nat)
    requires LastRead(events, c) && c < n <= |events|
    ensures After(events[..n]).cycleMission == MissionAt(events[..c])
  {
    AfterAt(events, n - 1);
    if n - 1 == c {
      MissionIs(events[..c]);
    } else {
      HeldMission(events, c, n - 1);
    }
  }

  ghost predicate HandStamped<T>(w: Writer<T>) {
    w.phase.Ready? ==> forall r :: r in w.hand ==> r.missionId == w.cycleMission
  }

  lemma EveryHandStamped<T(!new)>(events: seq<Event<T>>)
    ensures HandStamped(After(events))
  {
    RunInduction(events, (w: Writer<T>, pushed: seq<T>) => HandStamped(w));
  }

  /**
   Every run: the batch that a successful insert commits was pushed before, and each of its
   rows carries the mission ID of the writer's last read.
   */
  lemma BatchStamp<T(!new)>(events: seq<Event<T>>, c: nat, r: Row<T>)
    requires After(events).phase.Ready? && LastRead(events, c) && r in After(events).hand
    ensures After(events + [Insert(true)]).committed == After(events).committed + After(events).hand
    ensures r.missionId == MissionAt(events[..c]) && r.content in AllPushed(events)
  {
    var w := After(events);
    assert (events + [Insert(true)])[..|events|] == events;
    EveryHandStamped(events);
    HeldMission(events, c, |events|);
    assert events[..|events|] == events;
    EveryRunConserved(events);
    var i :| 0 <= i < |w.hand| && w.hand[i] == r;
    assert Contents(w.hand)[i] == r.content;
    assert r.content in multiset(Contents(w.hand));
    assert r.content in multiset(AllPushed(events));
  }

  /** Every committed row was committed by a successful insert, in a batch as above. */
  lemma {:induction false} CommittedByInsert<T>(events: seq<Event<T>>, r: Row<T>) returns (i: nat)
    requires r in After(events).committed
    ensures i < |events| && events[i] == Insert(true)
    ensures After(events[..i]).phase.Ready? && r in After(events[..i]).hand
  {
    i := |events| - 1;
    if r in After(events[..i]).committed {
      var before := events[..i];
      i := CommittedByInsert(before, r);
      assert before[..i] == events[..i];
    }
  }

  /** Event i is the last change of mission in the list. */
  predicate LastSet<T>(events: seq<Event<T>>, i: nat) {
    i < |events| && events[i].MissionSet? && forall j :: i < j < |events| ==> !events[j].MissionSet?
  }

  /** The last change of mission in the list, if there is one, is to m. */
  ghost predicate LastSetIs<T>(m: nat, events: seq<Event<T>>) {
    forall i: nat :: LastSet(events, i) ==> events[i].mission == m
  }

  lemma {:induction false} SameMissionExact<T>(m: nat, events: seq<Event<T>>)
    ensures MissionAfter(m, events) == m <==> LastSetIs(m, events)
  {
    if events != [] {
      var n := |events| - 1;
      var before := events[..n];
      SameMissionExact(m, before);
      if events[n].MissionSet? {
        assert LastSet(events, n);
      } else {
        assert forall j :: 0 <= j < n ==> before[j] == events[j];
        assert forall i: nat :: LastSet(events, i) <==> LastSet(before, i);
      }
    }
  }

  lemma {:induction false} MissionConcat<T>(m: nat, xs: seq<Event<T>>, ys: seq<Event<T>>)
    ensures MissionAfter(m, xs + ys) == MissionAfter(MissionAfter(m, xs), ys)
  {
    if ys == [] {
      assert xs + ys == xs;
    } else {
      var n := |ys| - 1;
      assert (xs + ys)[..|xs| + n] == xs + ys[..n];
      MissionConcat(m, xs, ys[..n]);
    }
  }

  lemma MissionBetween<T>(events: seq<Event<T>>, lo: nat, hi: nat)
    requires lo <= hi <= |events|
    ensures MissionAt(events[..hi]) == MissionAt(events[..lo])
       <==> LastSetIs(MissionAt(events[..lo]), events[lo..hi])
  {
    assert events[..hi] == events[..lo] + events[lo..hi];
    MissionConcat(0, events[..lo], events[lo..hi]);
    SameMissionExact(MissionAt(events[..lo]), events[lo..hi]);
  }

  /**
   A row about to be committed carries the mission it was pushed in if and only if the last
   change of mission between its push and the writer's last read, in either order, goes back
   to where it started, or there is none.
   */
  lemma StampExact<T(!new)>(events: seq<Event<T>>, c: nat, p: nat, r: Row<T>)
    requires After(events).phase.Ready? && LastRead(events, c) && r in After(events).hand
    requires p < |events| && events[p].Pushed? && r.content in events[p].contents
    ensures var lo, hi := if p < c then p else c, if p < c then c else p;
      r.missionId == MissionAt(events[..p]) <==> LastSetIs(MissionAt(events[..lo]), events[lo..hi])
  {
    BatchStamp(events, c, r);
    if p < c {
      MissionBetween(events, p, c);
    } else {
      MissionBetween(events, c, p);
    }
  }

  /** An example: a row pushed in one mission and written in the next cycle carries the later mission's ID. */
  lemma StampIsWriteTime<T>(x: T, first: nat, second: nat)
    ensures var events: seq<Event<T>> :=
        [MissionSet(first), Pushed([x]), MissionSet(second), Cycle, Begin, Drain, Stamp, Insert(true)];
      After(events).committed == [Row(x, second)]
  {
    var es: seq<Event<T>> :=
      [MissionSet(first), Pushed([x]), MissionSet(second), Cycle, Begin, Drain, Stamp, Insert(true)];
    forall i | 0 <= i < 8 ensures After(es[..i + 1]) == Next(After(es[..i]), es[i]) {
      assert es[..i + 1][..i] == es[..i];
    }
    assert es[..0] == [] && es[..8] == es;
    assert After(es[..1]) == Start<T>().(mission := first);
    assert After(es[..2]).queue == [Row(x, 0)];
    assert After(es[..3]).mission == second && After(es[..3]).queue == [Row(x, 0)];
    assert After(es[..4]).cycleMission == second && After(es[..4]).phase.Idle?;
    assert After(es[..6]).hand == [Row(x, 0)] && After(es[..6]).phase.Drained?;
    assert After(es[..7]).hand == [Row(x, second)];
  }
}
