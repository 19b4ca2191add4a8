/**
 Saving a mission in the background (cmd/ocap_recorder/mission_save.go): what one worker
 reports, and how requests and workers interleave around the in-flight flag.
 */
module MissionSave {
  import opened Wrappers

  // ---- one worker ----

  /** How a call into the backend or the API client ends. */
  datatype Call<T> = Returns(result: T) | Panics(info: string)

  /** The outside world of one save: every call the worker may make, and how it would end. */
  datatype World = World(
    end: Call<Option<string>>, uploadable: bool, path: Call<string>, hasClient: bool,
    metadata: Call<()>, upload: Call<Option<string>>)

  /** The arguments of the :MISSION:SAVED: callback. */
  datatype Callback = Error(info: string) | Partial(path: string, reason: string) | Saved(path: string)

  const PANIC_PREFIX := "panic during mission save: "

  /** The part of the worker under recover: where it stops, its local variables stay as they are. */
  method SaveAndUpload(w: World)
    returns (savedPath: string, endErr: Option<string>, uploadErr: Option<string>, panicked: Option<string>)
    ensures w.end.Panics? ==> panicked == Some(w.end.info)
    ensures w.end.Returns? && w.end.result.Some? ==> panicked.None? && endErr == w.end.result
    ensures w.end == Returns(None) ==> endErr.None?
    ensures w.end == Returns(None) && !w.uploadable ==> (savedPath, uploadErr, panicked) == ("", None, None)
    ensures w.end == Returns(None) && w.uploadable && w.path.Panics? ==> panicked == Some(w.path.info)
    ensures w.end == Returns(None) && w.uploadable && w.path.Returns? && (!w.hasClient || w.path.result == "") ==>
      (savedPath, uploadErr, panicked) == (w.path.result, None, None)
    ensures w.end == Returns(None) && w.uploadable && w.path.Returns? && w.hasClient && w.path.result != "" ==>
      && savedPath == w.path.result
      && panicked == (if w.metadata.Panics? then Some(w.metadata.info)
                      else if w.upload.Panics? then Some(w.upload.info) else None)
      && (panicked.None? ==> uploadErr == w.upload.result)
  {
    savedPath, endErr, uploadErr, panicked := "", None, None, None;
    if w.end.Panics? {
      panicked := Some(w.end.info);
      return;
    }
    if w.end.result.Some? {
      endErr := w.end.result;
      return;
    }
    if w.uploadable && w.hasClient {
      if w.path.Panics? {
        panicked := Some(w.path.info);
        return;
      }
      if w.path.result != "" {
        savedPath := w.path.result;
        if w.metadata.Panics? {
          panicked := Some(w.metadata.info);
          return;
        }
        if w.upload.Panics? {
          panicked := Some(w.upload.info);
          return;
        }
        if w.upload.result.Some? {
          uploadErr := w.upload.result;
        }
      }
    } else if w.uploadable {
      if w.path.Panics? {
        panicked := Some(w.path.info);
        return;
      }
      savedPath := w.path.result;
    }
  }

  /** The one callback of a worker, for every way its calls can end. */
  method RunMissionSaveWorker(w: World) returns (callback: Callback)
    // the mission cannot be ended
    ensures w.end.Panics? ==> callback == Error("panic during mission save: " + w.end.info)
    ensures w.end.Returns? && w.end.result.Some? ==> callback == Error(w.end.result.value)
    // nothing to upload, or nobody to do it
    ensures w.end == Returns(None) && !w.uploadable ==> callback == Saved("")
    ensures w.end == Returns(None) && w.uploadable && w.path.Panics? ==>
      callback == Error("panic during mission save: " + w.path.info)
    ensures w.end == Returns(None) && w.uploadable && w.path.Returns? && !w.hasClient ==>
      callback == Saved(w.path.result)
    ensures w.end == Returns(None) && w.uploadable && w.path == Returns("") && w.hasClient ==> callback == Saved("")
    // an upload
    ensures w.end == Returns(None) && w.uploadable && w.path.Returns? && w.path.result != "" && w.hasClient ==>
      && (w.metadata.Panics? ==> callback == Error("panic during mission save: " + w.metadata.info))
      && (w.metadata.Returns? && w.upload.Panics? ==>
            callback == Error("panic during mission save: " + w.upload.info))
      && (w.metadata.Returns? && w.upload.Returns? && w.upload.result.Some? ==>
            callback == Partial(w.path.result, w.upload.result.value))
      && (w.metadata.Returns? && w.upload == Returns(None) ==> callback == Saved(w.path.result))
  {
    var savedPath, endErr, uploadErr, panicked := SaveAndUpload(w);
    var panicInfo := if panicked.Some? then PANIC_PREFIX + panicked.value else "";
    assert panicked.Some? ==> |panicInfo| >= |PANIC_PREFIX|;
    if panicInfo != "" {
      callback := Error(panicInfo);
    } else if endErr.Some? {
      callback := Error(endErr.value);
    } else if uploadErr.Some? {
      callback := Partial(savedPath, uploadErr.value);
    } else {
      callback := Saved(savedPath);
    }
  }

  // ---- the request ----

  datatype Reply = Queued | NoBackend | InProgress

  /** The state shared by all requests. */
  class SaveState {
    var inFlight: bool

    method CompareAndSwap(from: bool, value: bool) returns (swapped: bool)
      modifies this
      ensures swapped <==> old(inFlight) == from
      ensures inFlight == if swapped then value else old(inFlight)
    {
      swapped := inFlight == from;
      if swapped {
        inFlight := value;
      }
    }

    /** The decision of triggerMissionSave; the worker it starts runs on its own. */
    method TriggerMissionSave(hasBackend: bool) returns (reply: Reply, started: bool)
      modifies this
      ensures !hasBackend ==> reply == NoBackend && inFlight == old(inFlight)
      ensures hasBackend ==> reply == (if old(inFlight) then InProgress else Queued) && inFlight
      ensures started <==> reply == Queued
    {
      if !hasBackend {
        return NoBackend, false;
      }
      var swapped := CompareAndSwap(false, true);
      if !swapped {
        return InProgress, false;
      }
      return Queued, true;
    }
  }

  // ---- requests and workers, interleaved ----

  /**
   winners: requests that took the flag and have not started their worker yet; returning:
   requests whose worker is started but whose "queued" is not returned yet; running and
   finishing: workers before and after their callback. The last five count what has happened.
   */
  datatype Saves = Saves(
    inFlight: bool, winners: nat, returning: nat, running: nat, finishing: nat,
    accepted: nat, replied: nat, rejected: nat, callbacks: nat)

  const IDLE := Saves(false, 0, 0, 0, 0, 0, 0, 0, 0)

  datatype Event =
    | Request     // a caller reaches the compare-and-swap
    | Spawn       // the caller that took the flag starts its worker
    | ReplyQueued // and returns
    | CallBack    // the worker is done and sends its callback
    | Clear       // the worker clears the flag and is gone

  function Next(s: Saves, e: Event): Saves {
    match e
    case Request =>
      if s.inFlight then s.(rejected := s.rejected + 1)
      else s.(inFlight := true, winners := s.winners + 1, accepted := s.accepted + 1)
    case Spawn =>
      if s.winners == 0 then s
      else s.(winners := s.winners - 1, returning := s.returning + 1, running := s.running + 1)
    case ReplyQueued => if s.returning == 0 then s else s.(returning := s.returning - 1, replied := s.replied + 1)
    case CallBack =>
      if s.running == 0 then s
      else s.(running := s.running - 1, finishing := s.finishing + 1, callbacks := s.callbacks + 1)
    case Clear => if s.finishing == 0 then s else s.(finishing := s.finishing - 1, inFlight := false)
  }

  function After(s: Saves, events: seq<Event>): Saves {
    if events == [] then s else Next(After(s, events[..|events| - 1]), events[|events| - 1])
  }

  /** The flag is set exactly while one request or worker holds it; every accepted save is accounted for. */
  ghost predicate SingleFlight(s: Saves) {
    && s.winners + s.running + s.finishing == (if s.inFlight then 1 else 0)
    && s.accepted == s.callbacks + s.running + s.winners
    && s.accepted == s.replied + s.returning + s.winners
  }

  lemma {:induction false} EveryRunSingleFlight(events: seq<Event>)
    ensures SingleFlight(After(IDLE, events))
  {
    if events != [] {
      EveryRunSingleFlight(events[..|events| - 1]);
    }
  }

  /** Requests made in a run. */
  function Requests(events: seq<Event>): nat {
    if events == [] then 0
    else Requests(events[..|events| - 1]) + if events[|events| - 1].Request? then 1 else 0
  }

  lemma {:induction false} RequestsCounted(events: seq<Event>)
    ensures After(IDLE, events).accepted + After(IDLE, events).rejected == Requests(events)
  {
    if events != [] {
      RequestsCounted(events[..|events| - 1]);
    }
  }

  /**
   For every interleaving: at most one save at a time; each accepted save has one callback, sent
   or still to come; a rejected request has none.
   */
  lemma OneCallbackEach(events: seq<Event>)
    ensures var s := After(IDLE, events);
      && s.running + s.finishing <= 1
      && (s.running + s.finishing == 1 ==> s.inFlight)
      && 0 <= s.accepted - s.callbacks <= 1
      && (!s.inFlight ==> s.callbacks == s.accepted == Requests(events) - s.rejected)
  {
    EveryRunSingleFlight(events);
    RequestsCounted(events);
  }

  // ---- replies and callbacks ----

  /** Replies minus callbacks is 0 or 1. */
  predicate RepliesLead(s: Saves) { 0 <= s.replied - s.callbacks <= 1 }

  /** The worker sends its callback while a started request has not returned yet. */
  predicate Overtakes(s: Saves, e: Event) { e.CallBack? && s.running > 0 && s.returning > 0 }

  /** A caller has been told "queued" at least as often as there were callbacks, at all times. */
  ghost predicate AlwaysLead(events: seq<Event>) {
    forall n :: 0 <= n <= |events| ==> RepliesLead(After(IDLE, events[..n]))
  }

  /** No worker is done before the request that started it, or an earlier one, has returned. */
  ghost predicate NoOvertaking(events: seq<Event>) {
    forall i :: 0 <= i < |events| ==> !Overtakes(After(IDLE, events[..i]), events[i])
  }

  /** The one step that breaks the relation, in every state a run can be in. */
  lemma OvertakingBreaks(s: Saves, e: Event)
    requires SingleFlight(s) && RepliesLead(s)
    ensures RepliesLead(Next(s, e)) <==> !Overtakes(s, e)
  {
  }

  lemma StepAt(events: seq<Event>, i: nat)
    requires i < |events|
    ensures After(IDLE, events[..i + 1]) == Next(After(IDLE, events[..i]), events[i])
  {
    assert events[..i + 1][..i] == events[..i];
  }

  /** One step of a run, seen from the states before and after it. */
  lemma OvertakingAt(events: seq<Event>, i: nat)
    requires i < |events| && RepliesLead(After(IDLE, events[..i]))
    ensures RepliesLead(After(IDLE, events[..i + 1])) <==> !Overtakes(After(IDLE, events[..i]), events[i])
  {
    EveryRunSingleFlight(events[..i]);
    StepAt(events, i);
    OvertakingBreaks(After(IDLE, events[..i]), events[i]);
  }

  lemma {:induction false} LeadsUpTo(events: seq<Event>, n: nat)
    requires NoOvertaking(events) && n <= |events|
    ensures RepliesLead(After(IDLE, events[..n]))
  {
    if n > 0 {
      LeadsUpTo(events, n - 1);
      OvertakingAt(events, n - 1);
    }
  }

  /**
   Replies are another matter: a worker can be faster than the return of the request that
   started it. Replies minus callbacks is 0 or 1 throughout a run exactly when no callback is
   sent while a started request is still about to return.
   */
  lemma RepliesExact(events: seq<Event>)
    ensures AlwaysLead(events) <==> NoOvertaking(events)
  {
    if NoOvertaking(events) {
      forall n | 0 <= n <= |events| ensures RepliesLead(After(IDLE, events[..n])) {
        LeadsUpTo(events, n);
      }
    }
    if AlwaysLead(events) {
      forall i | 0 <= i < |events| ensures !Overtakes(After(IDLE, events[..i]), events[i]) {
        assert RepliesLead(After(IDLE, events[..i])) && RepliesLead(After(IDLE, events[..i + 1]));
        OvertakingAt(events, i);
      }
    }
  }

  /** n saves, each done before its request returns. */
  function Overtaken(n: nat): seq<Event> {
    if n == 0 then [] else Overtaken(n - 1) + [Request] + [Spawn] + [CallBack] + [Clear]
  }

  lemma OneMore(s: Saves, events: seq<Event>, e: Event)
    ensures After(s, events + [e]) == Next(After(s, events), e)
  {
    assert (events + [e])[..|events|] == events;
  }

  /** One whole save after s: request, worker, callback, flag cleared; the reply is still due. */
  lemma OneOvertaken(s: Saves, events: seq<Event>)
    ensures After(s, events + [Request] + [Spawn] + [CallBack] + [Clear])
         == Next(Next(Next(Next(After(s, events), Request), Spawn), CallBack), Clear)
  {
    OneMore(s, events, Request);
    OneMore(s, events + [Request], Spawn);
    OneMore(s, events + [Request] + [Spawn], CallBack);
    OneMore(s, events + [Request] + [Spawn] + [CallBack], Clear);
  }

  /** Any number of callbacks can come before the first "queued" is returned. */
  lemma {:induction false} CallbacksBeforeReplies(n: nat)
    ensures var s := After(IDLE, Overtaken(n));
      s.callbacks == n && s.replied == 0 && s.returning == n && s.running == 0 && !s.inFlight && s.winners == 0
      && s.finishing == 0
  {
    if n > 0 {
      CallbacksBeforeReplies(n - 1);
      OneOvertaken(IDLE, Overtaken(n - 1));
    }
  }

  /** No earlier request is still about to return. */
  predicate NobodyInside(s: Saves) { s.winners == 0 && s.returning == 0 }

  /** One request at a time, as the game calls it: the next comes after the last has returned. */
  ghost predicate OneCaller(events: seq<Event>) {
    forall i :: 0 <= i < |events| && events[i].Request? ==> NobodyInside(After(IDLE, events[..i]))
  }

  lemma OneCallerStep(s: Saves, e: Event)
    requires s.winners + s.returning <= 1 && SingleFlight(s)
    requires e.Request? ==> s.winners == 0 && s.returning == 0
    ensures Next(s, e).winners + Next(s, e).returning <= 1
  {
  }

  lemma {:induction false} OneCallerUpTo(events: seq<Event>, n: nat)
    requires OneCaller(events) && n <= |events|
    ensures var s := After(IDLE, events[..n]); s.winners + s.returning <= 1
  {
    if n > 0 {
      OneCallerUpTo(events, n - 1);
      EveryRunSingleFlight(events[..n - 1]);
      StepAt(events, n - 1);
      OneCallerStep(After(IDLE, events[..n - 1]), events[n - 1]);
    }
  }

  /** With one caller, callbacks are at most one ahead of the replies, and at most one behind. */
  lemma OneCallerReplies(events: seq<Event>)
    requires OneCaller(events)
    ensures -1 <= After(IDLE, events).replied - After(IDLE, events).callbacks <= 1
  {
    EveryRunSingleFlight(events);
    OneCallerUpTo(events, |events|);
    assert events[..|events|] == events;
  }
}
