/** What a request that fails leaves with the content writer: exactly when nothing at all. */
module Traces {
  import opened Frames
  import opened Session
  import E = Effects
  import W = WriterProtocol
  import Opening
  import P = Progress
  import F = Finish

  // ---------- nothing is written any more ----------

  /** The content writer has not been opened and will not be: the handler is past opening it. */
  ghost predicate Shut(s: Session) {
    && Opening.Inv(s) && !s.cw.open && (s.th.h.InFail? || s.th.h.InReport? || s.th.h.InClose?)
  }

  lemma ShutMeans(s: Session)
    requires Shut(s)
    ensures Opening.NotOpen(s) && s.cw.stream.wire == []
  {
  }

  lemma ShutHandler(s: Session, e: Env)
    requires !s.cw.open && (s.th.h.InFail? || s.th.h.InReport? || s.th.h.InClose?) && Opening.Unopened(s.th.h)
    ensures var t := HandlerStep(s, e); !t.cw.open && (t.th.h.InFail? || t.th.h.InReport? || t.th.h.InClose?)
  {
  }

  lemma ShutStep(s: Session, a: Action)
    requires Shut(s)
    ensures Shut(Step(s, a))
  {
    hide Opening.Inv, HandlerStep, TransportStep, LoopStep, ReceiverStep;
    ShutMeans(s);
    Opening.Kept(s, a);
    match a
    case ByHandler(e) => ShutHandler(s, e);
    case ByTransport(e) => NotRunning(s, e);
    case ByLoop(pick, e) => E.LoopMeans(s, pick, e);
    case ByReceiver(e) => ShutReceiver(s, e);
    case _ =>
  }

  lemma NotRunning(s: Session, e: Env)
    requires s.th.t.TOff?
    ensures TransportStep(s, e) == s
  {
  }

  lemma ShutReceiver(s: Session, e: Env)
    requires !s.cw.open && (s.th.r.RCancelling? ==> s.th.r.at.CStart?) && !s.th.h.InRegister?
    ensures var t := ReceiverStep(s, e); t.cw == s.cw && t.th.h == s.th.h
  {
  }

  lemma {:induction false} ShutForever(s: Session, actions: seq<Action>)
    requires Shut(s)
    ensures P.Exec(s, actions).cw.stream.wire == []
    decreases |actions|
  {
    hide Step, Shut;
    if actions == [] {
      ShutMeans(s);
    } else {
      ShutStep(s, actions[0]);
      ShutForever(Step(s, actions[0]), actions[1..]);
    }
  }

  /** Nothing more reaches a dead stream. */
  ghost predicate StaysDead(st: Stream<WriterFrame>, st': Stream<WriterFrame>) {
    !st.Live() ==> !st'.Live() && st'.wire == st.wire
  }

  lemma DeadHandler(s: Session, e: Env)
    ensures StaysDead(s.cw.stream, HandlerStep(s, e).cw.stream)
  {
    hide StaysDead, RegisterStep, RequestStep, ResponseStep, BodyStep, MetaStep, ReportStep, FailStep, CloseStep;
    match s.th.h
    case InRequest(pc) => DeadRequest(s, pc, e);
    case InResponse(pc) => DeadResponse(s, pc, e);
    case InBody(pc) => DeadBody(s, pc, e);
    case InMeta(pc) => DeadMeta(s, pc, e);
    case InClose(pc) => DeadClose(s, pc, e);
    case _ => DeadRest(s, e);
  }

  lemma DeadRest(s: Session, e: Env)
    requires s.th.h.InRegister? || s.th.h.InReport? || s.th.h.InFail?
    ensures StaysDead(s.cw.stream, HandlerStep(s, e).cw.stream)
  {
  }

  lemma DeadRequest(s: Session, pc: RequestPc, e: Env)
    ensures StaysDead(s.cw.stream, RequestStep(s, pc, e).cw.stream)
  {
  }

  lemma DeadResponse(s: Session, pc: ResponsePc, e: Env)
    ensures StaysDead(s.cw.stream, ResponseStep(s, pc, e).cw.stream)
  {
  }

  lemma DeadBody(s: Session, pc: BodyPc, e: Env)
    ensures StaysDead(s.cw.stream, BodyStep(s, pc, e).cw.stream)
  {
  }

  lemma DeadMeta(s: Session, pc: MetaPc, e: Env)
    ensures StaysDead(s.cw.stream, MetaStep(s, pc, e).cw.stream)
  {
  }

  lemma DeadClose(s: Session, pc: ClosePc, e: Env)
    ensures StaysDead(s.cw.stream, CloseStep(s, pc, e).cw.stream)
  {
    hide CancelStep;
    if pc.Cancelling? { DeadCancel(s.cw, pc.at, Handler, e.ok); }
  }

  lemma DeadCancel(w: Writer, at: CancelPc, me: Thread, ok: bool)
    ensures StaysDead(w.stream, CancelStep(w, at, me, ok).0.stream)
  {
  }

  lemma DeadTransport(s: Session, e: Env)
    ensures StaysDead(s.cw.stream, TransportStep(s, e).cw.stream)
  {
  }

  lemma DeadReceiver(s: Session, e: Env)
    ensures StaysDead(s.cw.stream, ReceiverStep(s, e).cw.stream)
  {
    hide StaysDead, CancelStep;
    if s.th.r.RCancelling? { DeadCancel(s.cw, s.th.r.at, Receiver, e.ok); } else { Same(s.cw.stream); }
  }

  lemma Same(st: Stream<WriterFrame>)
    ensures StaysDead(st, st)
  {
  }

  lemma DeadWatch(w: Writer, d: DisconnectPc, ok: bool)
    ensures StaysDead(w.stream, WatchStep(w, d, ok).0.stream)
  {
  }

  lemma DeadStep(s: Session, a: Action)
    ensures StaysDead(s.cw.stream, Step(s, a).cw.stream)
  {
    hide StaysDead, HandlerStep, TransportStep, LoopStep, ReceiverStep, WatchStep;
    Same(s.cw.stream);
    match a
    case ByHandler(e) => DeadHandler(s, e);
    case ByTransport(e) => DeadTransport(s, e);
    case ByLoop(pick, e) => E.LoopMeans(s, pick, e);
    case ByReceiver(e) => DeadReceiver(s, e);
    case ByDisconnect(e) => DeadWatch(s.cw, s.th.d, e.ok);
    case _ =>
  }

  lemma {:induction false} DeadForever(s: Session, actions: seq<Action>)
    requires !s.cw.stream.Live()
    ensures P.Exec(s, actions).cw.stream.wire == s.cw.stream.wire
    decreases |actions|
  {
    hide Step;
    if actions != [] {
      DeadStep(s, actions[0]);
      DeadForever(Step(s, actions[0]), actions[1..]);
    }
  }

  // ---------- otherwise something still can be ----------

  /** A watcher that has moved on has found or claimed a terminal frame. */
  ghost predicate Watching(s: Session) {
    s.th.d.DWait? || s.th.d.DLock? || s.cw.gate.done
  }

  lemma StaysClaimed(s: Session, a: Action)
    ensures s.cw.gate.done ==> Step(s, a).cw.gate.done
    ensures !a.ByDisconnect? ==> Step(s, a).th.d == s.th.d
  {
    hide HandlerStep, TransportStep, LoopStep, CancelStep, WatchStep;
    match a
    case ByHandler(e) => HandlerClaims(s, e);
    case ByTransport(e) => F.TransportLeaves(s, e);
    case ByLoop(pick, e) => E.LoopMeans(s, pick, e);
    case ByReceiver(e) => if s.th.r.RCancelling? { CancelClaims(s.cw, s.th.r.at, Receiver, e.ok); }
    case ByDisconnect(e) => F.WatchLeaves(s.cw, s.th.d, e.ok);
    case _ =>
  }

  lemma CancelClaims(w: Writer, at: CancelPc, me: Thread, ok: bool)
    ensures w.gate.done ==> CancelStep(w, at, me, ok).0.gate.done
  {
  }

  lemma HandlerClaims(s: Session, e: Env)
    ensures var t := HandlerStep(s, e); t.th.d == s.th.d && (s.cw.gate.done ==> t.cw.gate.done)
  {
    hide RegisterStep, RequestStep, ResponseStep, BodyStep, MetaStep, CloseStep, ReportStep, FailStep;
    match s.th.h
    case InMeta(pc) => MetaClaims(s, pc, e);
    case InClose(pc) => CloseClaims(s, pc, e);
    case _ => RestClaims(s, e);
  }

  lemma MetaClaims(s: Session, pc: MetaPc, e: Env)
    ensures var t := MetaStep(s, pc, e); t.th.d == s.th.d && (s.cw.gate.done ==> t.cw.gate.done)
  {
  }

  lemma CloseClaims(s: Session, pc: ClosePc, e: Env)
    ensures var t := CloseStep(s, pc, e); t.th.d == s.th.d && (s.cw.gate.done ==> t.cw.gate.done)
  {
    hide CancelStep;
    if pc.Cancelling? { CancelClaims(s.cw, pc.at, Handler, e.ok); }
  }

  lemma RestClaims(s: Session, e: Env)
    requires !s.th.h.InMeta? && !s.th.h.InClose?
    ensures var t := HandlerStep(s, e); t.th.d == s.th.d && t.cw.gate == s.cw.gate
  {
    hide AfterChunk, BodyStep;
    if s.th.h.InBody? { BodyClaims(s, s.th.h.body, e); }
  }

  lemma BodyClaims(s: Session, pc: BodyPc, e: Env)
    ensures var t := BodyStep(s, pc, e); t.th.d == s.th.d && t.cw.gate == s.cw.gate
  {
  }

  lemma {:induction false} WatchingAlways(schedule: seq<Action>)
    ensures Watching(Run(schedule))
  {
    hide Step;
    if schedule != [] {
      var init, a := Run(schedule[..|schedule| - 1]), schedule[|schedule| - 1];
      WatchingAlways(schedule[..|schedule| - 1]);
      StaysClaimed(init, a);
      if a.ByDisconnect? { WatcherClaims(init, a.e); }
    }
  }

  lemma WatcherClaims(s: Session, e: Env)
    requires Watching(s)
    ensures Watching(Step(s, ByDisconnect(e)))
  {
  }

  const GO := Env(true, [], More, 0, false, true)

  /** The client leaves and the watcher sends its Cancel, or a Cancel that is on its way arrives. */
  function Next(s: Session): Action {
    if s.th.r == RCancelling(CSend) then ByReceiver(GO) else if s.clientGone then ByDisconnect(GO) else ClientLeaves
  }

  function WatcherFrom(s: Session): nat {
    (if s.clientGone then 0 else 1) + if s.th.d.DWait? then 2 else if s.th.d.DLock? then 1 else 0
  }

  ghost predicate Undisturbed(s: Session) {
    && W.Inv(s) && Watching(s) && s.cw.open && s.cw.stream.Live() && s.cw.stream.wire == [] && s.th.h.InFail?
  }

  lemma LockIsFree(s: Session)
    requires W.Inv(s) && s.cw.stream.Live() && s.cw.stream.wire == [] && s.th.h.InFail?
    ensures s.cw.gate.done ==> s.th.r == RCancelling(CSend) || s.th.d.DSend?
    ensures !s.cw.gate.done ==> s.cw.gate.owner.None?
  {
    hide Frames.Sent, HasMeta, OnlyRequest, Faithful;
    match s.cw.gate.owner
    case None =>
    case Some(me) => assert me.Handler? || me.Loop? || me.Receiver? || me.Disconnect?;
  }

  lemma NextStep(s: Session)
    requires Undisturbed(s)
    requires s.cw.gate.done ==> s.th.r == RCancelling(CSend) || s.th.d.DSend?
    requires !s.cw.gate.done ==> s.cw.gate.owner.None?
    ensures var t := Step(s, Next(s));
            t.cw.stream.wire != [] || (t.cw.open && t.cw.stream.Live() && t.th.h == s.th.h && WatcherFrom(t) < WatcherFrom(s))
  {
    hide W.Inv;
  }

  lemma {:induction false} CancelArrives(s: Session) returns (actions: seq<Action>)
    requires Undisturbed(s)
    ensures P.Exec(s, actions).cw.stream.wire != []
    decreases WatcherFrom(s)
  {
    hide Step, P.Exec, W.Inv, WatcherFrom, Watching;
    var a := Next(s);
    LockIsFree(s);
    NextStep(s);
    F.OneStep(s, a);
    actions := [a];
    if Step(s, a).cw.stream.wire == [] {
      W.Kept(s, a);
      StillWatching(s, a);
      var rest := CancelArrives(Step(s, a));
      actions := [a] + rest;
      P.ExecAppend(s, [a], rest);
    }
  }

  lemma StillWatching(s: Session, a: Action)
    requires Watching(s)
    ensures Watching(Step(s, a))
  {
    hide Step;
    StaysClaimed(s, a);
    if a.ByDisconnect? { WatcherClaims(s, a.e); }
  }

  /** A request fails, and its error is about to be handled. Nothing at all is written to the content writer, then
      or later, in every continuation, if and only if the content writer was not opened, or its stream is dead and
      nothing had been written. */
  lemma NothingWrittenIff(schedule: seq<Action>)
    requires Run(schedule).th.h.InFail?
    ensures (forall more :: Run(schedule + more).cw.stream.wire == []) <==>
            (var w := Run(schedule).cw; !w.open || (w.stream.wire == [] && !w.stream.Live()))
  {
    hide Run, Step, P.Exec, W.Inv, Opening.Inv, Watching;
    var s := Run(schedule);
    Opening.Always(schedule);
    if !s.cw.open {
      forall more ensures Run(schedule + more).cw.stream.wire == [] {
        ShutForever(s, more);
        P.RunThenExec(schedule, more);
      }
    } else if s.cw.stream.wire == [] && !s.cw.stream.Live() {
      forall more ensures Run(schedule + more).cw.stream.wire == [] {
        DeadForever(s, more);
        P.RunThenExec(schedule, more);
      }
    } else {
      var more: seq<Action> := [];
      assert schedule + [] == schedule;
      if s.cw.stream.wire == [] {
        W.Always(schedule);
        WatchingAlways(schedule);
        more := CancelArrives(s);
        P.RunThenExec(schedule, more);
      }
      assert Run(schedule + more).cw.stream.wire != [];
    }
  }
}
