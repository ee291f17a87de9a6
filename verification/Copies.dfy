/** Status code and error in the copies that handler and receiver hand to the loop: exactly when they differ. */
module Copies {
  import opened Frames
  import opened Session
  import opened LogWrites
  import E = Effects
  import C = ControllerProtocol
  import W = WriterProtocol
  import Growth
  import Telling
  import P = Progress
  import F = Finish

  // ---------- whether the handler can come to write an error of its own ----------

  /** The handler can come to write an error other than a cancel's, while the receiver is writing one. Unless it
      already does, `b.m` must not be held by finish and there must be no outcome; the cases follow the calls
      that it still has to make. */
  predicate MayEdit(s: Session) {
    Edits(s.th.h) || (!s.th.l.Holds() && s.bc.complete.None? && WayToEdit(s))
  }

  predicate WayToEdit(s: Session) {
    var live := s.bc.stream.Live();
    match s.th.h
    case InRequest(_) => live
    case InResponse(pc) =>
      if pc.RoundTrip? then live
      else (pc.RespHeader? ==> !s.cw.canceled) && (live || (s.cw.stream.Live() && F.CanArchive(s)))
    case InBody(_) => !s.rc.cached && F.CanArchive(s)
    case InMeta(pc) =>
      if pc.MetaSend? || pc.MetaClose? then true
      else if pc.MetaLock? then !s.cw.gate.done
      else F.CanArchive(s)
    case InReport(p, pc) => pc.Report? && !p.ForSave? && p.code != CANCELED_BY_BROWSER
    case InFail(code, _) => live && code != CANCELED_BY_BROWSER
    case _ => false
  }

  /** Neither a status code nor an error that differs can still be written. */
  ghost predicate HandlerDone(s: Session) {
    !CanWriteStatus(s) && !MayEdit(s)
  }

  lemma DoneRequest(s: Session, pc: RequestPc, e: Env)
    requires HandlerDone(s) && s.th.h == InRequest(pc)
    ensures !MayEdit(RequestStep(s, pc, e))
  {
  }

  lemma DoneResponse(s: Session, pc: ResponsePc, e: Env)
    requires HandlerDone(s) && s.th.h == InResponse(pc) && !s.rc.cached
    ensures !MayEdit(ResponseStep(s, pc, e))
  {
  }

  lemma DoneBody(s: Session, pc: BodyPc, e: Env)
    requires HandlerDone(s) && s.th.h == InBody(pc)
    ensures !MayEdit(BodyStep(s, pc, e))
  {
  }

  lemma DoneMeta(s: Session, pc: MetaPc, e: Env)
    requires HandlerDone(s) && s.th.h == InMeta(pc)
    ensures !MayEdit(MetaStep(s, pc, e))
  {
  }

  lemma DoneReport(s: Session, p: Purpose, pc: ReportPc, e: Env)
    requires HandlerDone(s) && s.th.h == InReport(p, pc) && (s.th.l.Holds() ==> s.bc.owner.Some?)
    ensures !MayEdit(ReportStep(s, p, pc, e))
  {
  }

  lemma DoneFail(s: Session, code: int, pc: FailPc, e: Env)
    requires HandlerDone(s) && s.th.h == InFail(code, pc)
    ensures !MayEdit(FailStep(s, code, pc, e))
  {
  }

  lemma DoneRest(s: Session, e: Env)
    requires HandlerDone(s) && (s.th.h.InRegister? || s.th.h.InClose?) && !s.bc.peer.chanClosed
    ensures !MayEdit(HandlerStep(s, e))
  {
    hide CancelStep;
  }

  lemma DoneHandler(s: Session, e: Env)
    requires HandlerDone(s) && C.Inv(s) && !s.bc.peer.chanClosed
    ensures !MayEdit(HandlerStep(s, e))
  {
    hide C.Inv, MayEdit, CanWriteStatus, RegisterStep, RequestStep, ResponseStep, BodyStep, MetaStep, ReportStep,
         FailStep, CloseStep;
    match s.th.h
    case InRequest(pc) => DoneRequest(s, pc, e);
    case InResponse(pc) => F.Uncached(s); DoneResponse(s, pc, e);
    case InBody(pc) => DoneBody(s, pc, e);
    case InMeta(pc) => DoneMeta(s, pc, e);
    case InReport(p, pc) => LoopOwns(s); DoneReport(s, p, pc, e);
    case InFail(code, pc) => DoneFail(s, code, pc, e);
    case _ => DoneRest(s, e);
  }

  lemma LoopOwns(s: Session)
    requires C.Inv(s)
    ensures s.th.l.Holds() ==> s.bc.owner.Some? && !s.th.h.HoldsController()
    ensures s.th.h.HoldsController() ==> s.bc.owner == Some(Handler)
    ensures !s.th.l.Holds() && !s.th.h.HoldsController() ==> s.bc.owner.None?
  {
    hide C.Scan;
    var me := if s.bc.owner.Some? then s.bc.owner.value else Handler;
    assert me.Handler? || me.Loop? || me.Receiver? || me.Disconnect?;
  }

  /** What the others may do without helping the handler to an error. */
  lemma StaysDone(s: Session, t: Session)
    requires !MayEdit(s) && (t.th.h == s.th.h || t.th.h.InClose?) && t.rc.cached == s.rc.cached
    requires (s.th.l.Holds() ==> t.th.l.Holds()) && (t.bc.complete.None? ==> s.bc.complete.None?)
    requires (t.bc.stream.Live() ==> s.bc.stream.Live()) && (t.cw.stream.Live() ==> s.cw.stream.Live())
    requires (s.cw.canceled ==> t.cw.canceled) && (s.cw.gate.done ==> t.cw.gate.done)
    ensures !MayEdit(t)
  {
  }

  // ---------- the receiver's copy ----------

  /** The receiver is between its cancel of the content writer and its copy. */
  predicate Writing(r: ReceiverPc) {
    r.REdit? || r.REditError? || r.RCopy?
  }

  /** What the receiver has written so far is still in the log. */
  predicate ReceiverReady(s: Session) {
    match s.th.r
    case REdit => true
    case REditError => s.rc.log.status == CANCELED_BY_BROWSER
    case _ => Agrees(s.rc.log)
  }

  /** The receiver's turns up to and including its copy. */
  function ToCopy(r: ReceiverPc): nat {
    match r
    case REdit => 3
    case REditError => 2
    case RCopy => 1
    case _ => 0
  }

  function Turns(actions: seq<Action>): nat {
    if actions == [] then 0 else (if actions[0].ByReceiver? then 1 else 0) + Turns(actions[1..])
  }

  /** The receiver, with `k` turns left, will copy a log that agrees, or has copied one. */
  ghost predicate CopiesWell(s: Session, k: nat) {
    && C.Inv(s) && Telling.Inv(s) && P.Tidy(s)
    && (if Writing(s.th.r) then k <= ToCopy(s.th.r) && ReceiverReady(s) && HandlerDone(s)
        else k == 0 && (s.th.r.RPost? ==> Agrees(s.th.r.msg.log)))
  }

  /** The log of a receiver about to copy says cancelled, unless the handler's own error is complete. */
  lemma SaysCanceled(s: Session)
    requires Telling.Inv(s) && s.th.r.RCopy? && Telling.Unedited(s.th.h, s.bc.received)
    ensures s.rc.log.error == CANCELED_BY_BROWSER
  {
    hide Telling.AllCancel, Telling.AllSayCanceled;
  }

  lemma NoOutcome(s: Session)
    requires Telling.Inv(s)
    ensures s.bc.complete.None? <==> s.bc.received == []
  {
    hide Telling.Foreign, Telling.Header;
  }

  /** Writes of a cancel's codes leave a ready log ready; past the handler's copy there are none. */
  lemma TameReady(s: Session, t: Session)
    requires Writing(s.th.r) && t.th.r == s.th.r && ReceiverReady(s) && Tame(s.rc.log, t.rc.log)
    requires s.th.r.RCopy? ==> s.rc.log.error == CANCELED_BY_BROWSER || t.rc.log == s.rc.log
    ensures ReceiverReady(t)
  {
  }

  lemma HandlerWell(s: Session, e: Env)
    requires CopiesWell(s, ToCopy(s.th.r)) && Writing(s.th.r)
    ensures ReceiverReady(HandlerStep(s, e)) && HandlerDone(HandlerStep(s, e))
  {
    hide C.Inv, Telling.Inv, MayEdit, CanWriteStatus, HandlerStep, ReceiverReady, P.Tidy;
    NotClosed(s);
    DoneHandler(s, e);
    NoEdits(s);
    QuietHandler(s, e);
    Growth.ByHandler(s, e);
    if s.th.r.RCopy? && !Copied(s.th.h) { SaysCanceled(s); }
    TameReady(s, HandlerStep(s, e));
  }

  lemma NotClosed(s: Session)
    requires P.Tidy(s) && Writing(s.th.r)
    ensures !s.bc.peer.chanClosed && !s.th.l.CancelCtx?
  {
  }

  lemma NoEdits(s: Session)
    requires !MayEdit(s)
    ensures !Edits(s.th.h)
  {
  }

  /** What the loop does to what a handler needs for an error. */
  lemma LoopKeeps(s: Session, pick: Pick, e: Env)
    requires s.th.l.Holds() ==> !s.th.l.CancelCtx?
    ensures var t := LoopStep(s, pick, e);
            && (s.th.l.Holds() ==> t.th.l.Holds()) && (t.bc.complete.None? ==> s.bc.complete.None?)
            && (t.bc.stream.Live() ==> s.bc.stream.Live()) && t.bc.peer == s.bc.peer
            && (s.th.l.Held? && s.bc.complete.Some? ==> t.rc == s.rc) && (t.th.l.HeldError? ==> s.bc.complete.None?)
  {
    hide Reported;
    if s.th.l.Select? && s.th.h.InReport? && s.th.h.rep.Post? {
      E.ReportedMeans(UnlockB(WithBc(s, Take(s.bc, s.th.h.rep.msg))), s.th.h.p, true);
    }
  }

  lemma LoopWell(s: Session, pick: Pick, e: Env)
    requires CopiesWell(s, ToCopy(s.th.r)) && Writing(s.th.r) && (s.th.l.HeldError? ==> s.bc.complete.None?)
    ensures var t := LoopStep(s, pick, e); ReceiverReady(t) && HandlerDone(t) && t.th.r == s.th.r
  {
    hide C.Inv, Telling.Inv, MayEdit, CanWriteStatus, ReceiverReady, P.Tidy, LoopStep;
    var t := LoopStep(s, pick, e);
    NotClosed(s);
    E.LoopMeans(s, pick, e);
    LoopKeeps(s, pick, e);
    LoopTame(s, pick, e);
    QuietLoop(s, pick, e);
    StaysDone(s, t);
    if s.th.r.RCopy? && t.rc.log != s.rc.log { HeldSaysCanceled(s); }
    TameReady(s, t);
  }

  /** While finish writes its error, the handler has handed nothing over. */
  lemma HeldSaysCanceled(s: Session)
    requires C.Inv(s) && Telling.Inv(s) && s.th.r.RCopy? && (s.th.l.Held? || s.th.l.HeldError?) && s.bc.complete.None?
    ensures s.rc.log.error == CANCELED_BY_BROWSER
  {
    hide C.Inv, Telling.Inv;
    LoopOwns(s);
    NoOutcome(s);
    NotCopying(s.th.h);
    SaysCanceled(s);
  }

  lemma NotCopying(h: HandlerPc)
    requires !h.HoldsController()
    ensures Telling.Unedited(h, [])
  {
  }

  lemma ReceiverWell(s: Session, e: Env, k: nat)
    requires CopiesWell(s, k) && Writing(s.th.r) && k > 0
    ensures var t := ReceiverStep(s, e);
            if Writing(t.th.r) then k - 1 <= ToCopy(t.th.r) && ReceiverReady(t) && HandlerDone(t)
            else k - 1 == 0 && t.th.r.RPost? && Agrees(t.th.r.msg.log)
  {
    hide C.Inv, Telling.Inv, P.Tidy, CancelStep;
  }

  lemma OthersWell(s: Session, a: Action)
    requires CopiesWell(s, ToCopy(s.th.r)) && Writing(s.th.r) && !a.ByHandler? && !a.ByLoop? && !a.ByReceiver?
    ensures var t := Step(s, a); ReceiverReady(t) && HandlerDone(t) && t.th.r == s.th.r
  {
    hide C.Inv, Telling.Inv, MayEdit, CanWriteStatus, ReceiverReady, P.Tidy, Step;
    var t := Step(s, a);
    QuietOthers(s, a);
    OthersKeep(s, a);
    StaysDone(s, t);
    TameReady(s, t);
  }

  lemma OthersKeep(s: Session, a: Action)
    requires !a.ByHandler? && !a.ByLoop? && !a.ByReceiver?
    ensures var t := Step(s, a);
            && t.th.h == s.th.h && t.th.l == s.th.l && t.th.r == s.th.r && t.rc.cached == s.rc.cached
            && t.bc == s.bc.(peer := t.bc.peer) && (t.cw.stream.Live() ==> s.cw.stream.Live())
            && (s.cw.canceled ==> t.cw.canceled) && (s.cw.gate.done ==> t.cw.gate.done)
  {
    hide TransportStep, WatchStep;
    if a.ByTransport? {
      F.TransportLeaves(s, a.e);
    } else if a.ByDisconnect? {
      F.WatchLeaves(s.cw, s.th.d, a.e.ok);
    }
  }

  /** HeldError is entered without an outcome, and only the loop writes one. */
  ghost predicate Undecided(s: Session) {
    s.th.l.HeldError? ==> s.bc.complete.None?
  }

  lemma UndecidedStep(s: Session, a: Action)
    requires Undecided(s)
    ensures Undecided(Step(s, a))
  {
    hide HandlerStep, TransportStep, CancelStep, SelectStep;
    match a
    case ByHandler(e) => Growth.ByHandler(s, e);
    case ByTransport(e) => E.TransportMeans(s, e);
    case ByLoop(pick, e) => if s.th.l.Select? { P.SelectMeans(s, pick); }
    case _ =>
  }

  lemma {:induction false} UndecidedAlways(schedule: seq<Action>)
    ensures Undecided(Run(schedule))
  {
    hide Step;
    if schedule != [] {
      UndecidedAlways(schedule[..|schedule| - 1]);
      UndecidedStep(Run(schedule[..|schedule| - 1]), schedule[|schedule| - 1]);
    }
  }

  function TurnOf(a: Action): nat {
    if a.ByReceiver? then 1 else 0
  }

  lemma WellStep(s: Session, a: Action, k: nat)
    requires CopiesWell(s, k) && Undecided(s) && TurnOf(a) <= k
    ensures CopiesWell(Step(s, a), k - TurnOf(a)) && Undecided(Step(s, a))
  {
    hide C.Inv, Telling.Inv, P.Tidy, HandlerDone, ReceiverReady, Undecided, Step;
    C.Kept(s, a);
    Telling.Kept(s, a);
    P.TidyStep(s, a);
    UndecidedStep(s, a);
    if Writing(s.th.r) { WritingStep(s, a, k); } else { CopiedStep(s, a); }
  }

  lemma WritingStep(s: Session, a: Action, k: nat)
    requires CopiesWell(s, k) && Undecided(s) && TurnOf(a) <= k && Writing(s.th.r)
    ensures var t := Step(s, a);
            if Writing(t.th.r) then k - TurnOf(a) <= ToCopy(t.th.r) && ReceiverReady(t) && HandlerDone(t)
            else k - TurnOf(a) == 0 && t.th.r.RPost? && Agrees(t.th.r.msg.log)
  {
    hide C.Inv, Telling.Inv, P.Tidy, HandlerDone, ReceiverReady, HandlerStep, LoopStep, ReceiverStep, TransportStep,
         DisconnectStep, PeerStep;
    match a
    case ByHandler(e) => Growth.ByHandler(s, e); HandlerWell(s, e);
    case ByLoop(pick, e) => LoopWell(s, pick, e);
    case ByReceiver(e) => ReceiverWell(s, e, k);
    case _ => OthersWell(s, a);
  }

  lemma CopiedStep(s: Session, a: Action)
    requires !Writing(s.th.r) && !a.ByReceiver? && (s.th.r.RPost? ==> Agrees(s.th.r.msg.log))
    ensures !Writing(Step(s, a).th.r) && (Step(s, a).th.r.RPost? ==> Agrees(Step(s, a).th.r.msg.log))
  {
    hide HandlerStep, TransportStep, CancelStep, LoopStep;
    match a
    case ByHandler(e) => Growth.ByHandler(s, e);
    case ByTransport(e) => E.TransportMeans(s, e);
    case ByLoop(pick, e) => E.LoopMeans(s, pick, e);
    case _ =>
  }

  lemma {:induction false} WellForever(s: Session, actions: seq<Action>, k: nat)
    requires CopiesWell(s, k) && Undecided(s) && Turns(actions) <= k
    ensures var t := P.Exec(s, actions); t.th.r.RPost? ==> Agrees(t.th.r.msg.log)
    decreases |actions|
  {
    hide Step, C.Inv, Telling.Inv, P.Tidy, HandlerDone, ReceiverReady, Undecided;
    if actions != [] {
      WellStep(s, actions[0], k);
      WellForever(Step(s, actions[0]), actions[1..], k - TurnOf(actions[0]));
    }
  }

  // ---------- and one that does not agree ----------

  function Nudge(ok: bool): Env {
    Env(ok, [], Eof, RUNTIME_EXCEPTION, false, true)
  }

  /** The result that brings the handler closer to an error of its own. */
  function Push(s: Session): Env {
    match s.th.h
    case InRequest(_) => Nudge(false)
    case InResponse(_) => Nudge(!s.bc.stream.Live())
    case InMeta(pc) => Nudge(pc.NotifyAll? || pc.NotifyAllSend? || pc.MetaCheck? || pc.MetaLock?)
    case _ => Nudge(true)
  }

  /** How many steps the handler is from writing its error. */
  function Way(h: HandlerPc): nat {
    if h.InReport? && h.rep.Report? then 3 else if h.InReport? then 2 else F.Rank(h) + 3
  }

  /** The handler can be pushed on: nothing holds the locks that it needs, and it will write a differing error. */
  ghost predicate Pushable(s: Session) {
    && MayEdit(s) && !CanWriteStatus(s) && C.Inv(s) && W.Inv(s)
  }

  ghost predicate Pushed(s: Session, t: Session) {
    MayEdit(t) && t.rc.log.error == s.rc.log.error && Way(t.th.h) < Way(s.th.h)
  }

  lemma PushRequest(s: Session, pc: RequestPc)
    requires s.th.h == InRequest(pc) && MayEdit(s) && !CanWriteStatus(s)
    ensures Pushed(s, RequestStep(s, pc, Push(s)))
  {
  }

  lemma PushResponse(s: Session, pc: ResponsePc)
    requires s.th.h == InResponse(pc) && MayEdit(s) && !CanWriteStatus(s) && !s.rc.cached
    ensures Pushed(s, ResponseStep(s, pc, Push(s)))
  {
  }

  lemma PushBody(s: Session, pc: BodyPc)
    requires s.th.h == InBody(pc) && MayEdit(s) && !CanWriteStatus(s) && (pc.Notify? ==> s.bc.owner.None?)
    ensures Pushed(s, BodyStep(s, pc, Push(s)))
  {
  }

  lemma PushMeta(s: Session, pc: MetaPc)
    requires s.th.h == InMeta(pc) && MayEdit(s) && !CanWriteStatus(s)
    requires (pc.NotifyAll? ==> s.bc.owner.None?) && (pc.MetaLock? ==> s.cw.gate.owner.None?)
    ensures Pushed(s, MetaStep(s, pc, Push(s)))
  {
  }

  lemma PushRest(s: Session)
    requires MayEdit(s) && !CanWriteStatus(s) && !Edits(s.th.h) && (s.th.h.InFail? || s.th.h.InReport?)
    requires !s.th.h.HoldsController() ==> s.bc.owner.None?
    ensures Pushed(s, HandlerStep(s, Push(s)))
  {
  }

  lemma PushStep(s: Session)
    requires Pushable(s) && !Edits(s.th.h)
    ensures Pushed(s, HandlerStep(s, Push(s)))
  {
    hide C.Inv, W.Inv, CanWriteStatus, Pushed, RegisterStep, RequestStep, ResponseStep, BodyStep, MetaStep, ReportStep,
         FailStep, CloseStep;
    LoopOwns(s);
    F.WriterUnlocked(s);
    match s.th.h
    case InRequest(pc) => PushRequest(s, pc);
    case InResponse(pc) => F.Uncached(s); PushResponse(s, pc);
    case InBody(pc) => PushBody(s, pc);
    case InMeta(pc) => PushMeta(s, pc);
    case _ => PushRest(s);
  }

  /** The handler's way to an error of its own, which breaks a log that says cancelled. */
  lemma {:induction false} EditComes(s: Session) returns (actions: seq<Action>)
    requires Pushable(s) && s.rc.log.error == CANCELED_BY_BROWSER
    requires Edits(s.th.h) ==> s.rc.log.status == CANCELED_BY_BROWSER
    ensures var t := P.Exec(s, actions); !Agrees(t.rc.log) && t.th.r == s.th.r && OnlyHandler(actions)
    decreases Way(s.th.h)
  {
    hide Step, P.Exec, C.Inv, W.Inv, MayEdit, CanWriteStatus, WayToEdit;
    if Edits(s.th.h) {
      actions := [Action.ByHandler(Nudge(true))];
      F.OneStep(s, actions[0]);
      EditBreaks(s, Nudge(true));
    } else {
      var a := Action.ByHandler(Push(s));
      PushStep(s);
      F.OneStep(s, a);
      var t := Step(s, a);
      assert t == HandlerStep(s, Push(s)) by { StepIs(s, Push(s)); }
      C.Kept(s, a);
      W.Kept(s, a);
      Growth.ByHandler(s, Push(s));
      if !Agrees(t.rc.log) {
        actions := [a];
      } else {
        QuietHandler(s, Push(s));
        var rest := EditComes(t);
        actions := [a] + rest;
        P.ExecAppend(s, [a], rest);
      }
    }
  }

  lemma StepIs(s: Session, e: Env)
    ensures Step(s, Action.ByHandler(e)) == HandlerStep(s, e)
  {
    hide HandlerStep;
  }

  lemma EditBreaks(s: Session, e: Env)
    requires Edits(s.th.h) && s.rc.log.error == CANCELED_BY_BROWSER && s.rc.log.status == CANCELED_BY_BROWSER
    ensures !Agrees(Step(s, Action.ByHandler(e)).rc.log) && Step(s, Action.ByHandler(e)).th.r == s.th.r
  {
  }

  lemma {:induction false} TurnsOfHandler(actions: seq<Action>, more: seq<Action>)
    requires OnlyHandler(actions)
    ensures Turns(actions + more) == Turns(more)
  {
    if actions == [] {
      assert actions + more == more;
    } else {
      assert (actions + more)[0] == actions[0] && (actions + more)[1..] == actions[1..] + more;
      TurnsOfHandler(actions[1..], more);
    }
  }

  const GO := Env(true, [], More, 0, false, true)

  /** The receiver is about to copy a log that agrees: the handler breaks it. */
  lemma Breaks(schedule: seq<Action>) returns (more: seq<Action>)
    requires var s := Run(schedule); s.th.r.RCopy? && Agrees(s.rc.log) && !HandlerDone(s)
    ensures var t := Run(schedule + more); t.th.r.RCopy? && !Agrees(t.rc.log) && OnlyHandler(more)
  {
    hide Run, Step, P.Exec, C.Inv, W.Inv, Telling.Inv, CanWriteStatus, MayEdit;
    var s := Run(schedule);
    C.Always(schedule);
    W.Always(schedule);
    Telling.Always(schedule);
    NotYetCopied(s);
    SaysCanceled(s);
    if CanWriteStatus(s) {
      NoCancelLeft(s);
      more := StatusComes(s);
    } else {
      more := EditComes(s);
    }
    P.RunThenExec(schedule, more);
  }

  lemma NotYetCopied(s: Session)
    requires !HandlerDone(s)
    ensures Telling.Unedited(s.th.h, s.bc.received)
  {
  }

  lemma NoCancelLeft(s: Session)
    requires CanWriteStatus(s) && s.th.r.RCopy?
    ensures s.th.h.InRequest? && s.th.h.req.ReqHeader? ==> s.cw.canceled || s.cw.stream.Live()
  {
  }

  lemma ReceiverTurn(s: Session)
    requires Writing(s.th.r)
    ensures var t := Step(s, Action.ByReceiver(GO));
            && (if s.th.r.RCopy? then t.th.r.RPost? && t.th.r.msg.log == s.rc.log
                else Writing(t.th.r) && ToCopy(t.th.r) == ToCopy(s.th.r) - 1)
            && (!s.th.r.RCopy? && ReceiverReady(t) && HandlerDone(t) ==> ReceiverReady(s) && HandlerDone(s))
  {
  }

  /** A copy that does not agree can be made. */
  lemma {:induction false} CopiesBadly(schedule: seq<Action>) returns (more: seq<Action>)
    requires var s := Run(schedule); Writing(s.th.r) && !(ReceiverReady(s) && HandlerDone(s))
    ensures var t := Run(schedule + more); t.th.r.RPost? && !Agrees(t.th.r.msg.log)
    ensures Turns(more) <= ToCopy(Run(schedule).th.r)
    decreases ToCopy(Run(schedule).th.r)
  {
    hide Run, Step, P.Exec, HandlerDone, ReceiverReady;
    var a := Action.ByReceiver(GO);
    var s := Run(schedule);
    if s.th.r.RCopy? {
      var first: seq<Action> := [];
      assert schedule + [] == schedule;
      if Agrees(s.rc.log) {
        assert ReceiverReady(s) by { ReadyAtCopy(s); }
        first := Breaks(schedule);
      }
      P.RunThenExec(schedule + first, [a]);
      F.OneStep(Run(schedule + first), a);
      ReceiverTurn(Run(schedule + first));
      more := first + [a];
      assert schedule + more == schedule + first + [a];
      TurnsOfHandler(first, [a]);
      assert [a][1..] == [];
    } else {
      P.RunThenExec(schedule, [a]);
      F.OneStep(s, a);
      ReceiverTurn(s);
      var rest := CopiesBadly(schedule + [a]);
      more := [a] + rest;
      assert schedule + more == schedule + [a] + rest;
      assert more[1..] == rest;
    }
  }

  lemma ReadyAtCopy(s: Session)
    requires s.th.r.RCopy? && Agrees(s.rc.log)
    ensures ReceiverReady(s)
  {
  }

  /** The receiver writes a cancel of the controller into the log and copies it. The copy agrees, whatever the
      other threads do before it is made, if and only if what the receiver has written so far is still in the log
      and the handler can write neither a status code nor an error of its own any more. */
  lemma ReceiverAgreesIff(schedule: seq<Action>)
    requires Writing(Run(schedule).th.r)
    ensures var s := Run(schedule);
            (forall more :: Turns(more) <= ToCopy(s.th.r) && Run(schedule + more).th.r.RPost? ==>
               Agrees(Run(schedule + more).th.r.msg.log))
            <==> ReceiverReady(s) && !CanWriteStatus(s) && !MayEdit(s)
  {
    hide Run, Step, P.Exec, C.Inv, Telling.Inv, P.Tidy, Undecided, ReceiverReady, CanWriteStatus, MayEdit;
    var s := Run(schedule);
    C.Always(schedule);
    Telling.Always(schedule);
    P.TidyAlways(schedule);
    UndecidedAlways(schedule);
    if ReceiverReady(s) && HandlerDone(s) {
      forall more | Turns(more) <= ToCopy(s.th.r) && Run(schedule + more).th.r.RPost?
        ensures Agrees(Run(schedule + more).th.r.msg.log)
      {
        WellForever(s, more, ToCopy(s.th.r));
        P.RunThenExec(schedule, more);
      }
    } else {
      var more := CopiesBadly(schedule);
      assert !Agrees(Run(schedule + more).th.r.msg.log);
    }
  }

  // ---------- the handler's copy ----------

  /** The handler is between its check under `b.m` and its copy, on its way to report an error. */
  predicate Reporting(h: HandlerPc) {
    h.InReport? && !h.p.ForSave? && (h.rep.Edit? || h.rep.EditError? || h.rep.Copy?)
  }

  /** What the handler has written so far is still in the log. */
  predicate HandlerReady(s: Session)
    requires Reporting(s.th.h)
  {
    match s.th.h.rep
    case Edit => true
    case EditError => s.rc.log.status == s.th.h.p.code
    case _ => Agrees(s.rc.log)
  }

  /** The next thing that the receiver reads is a cancel, or may be one. */
  predicate AbortNext(b: Controller) {
    if b.peer.inbox == [] then b.peer.ended.None? else b.peer.inbox[0].Abort?
  }

  /** The receiver can still come to write a cancel of the controller. */
  predicate ReceiverMayWrite(s: Session) {
    || s.th.r.RCancelling? || s.th.r.REdit? || s.th.r.REditError?
    || ((s.th.r.Recv? || ((s.th.r.RCopy? || s.th.r.RPost?) && s.th.l.Select?)) && AbortNext(s.bc))
  }

  /** A cancel's codes would change nothing, or none can come. */
  predicate HandlerSafe(s: Session)
    requires Reporting(s.th.h)
  {
    (if s.th.h.rep.Copy? then s.rc.log.error else s.th.h.p.code) == CANCELED_BY_BROWSER || !ReceiverMayWrite(s)
  }

  ghost predicate ReportsWell(s: Session) {
    && C.Inv(s)
    && match s.th.h
       case InClose(_) => true
       case InReport(p, Post(m)) => Agrees(m.log)
       case _ => Reporting(s.th.h) && HandlerReady(s) && HandlerSafe(s)
  }

  /** What the receiver does while the handler is reporting. */
  lemma ReceiverWrites(s: Session, e: Env)
    requires s.th.h != InRegister(RegisterWait) && !s.th.l.Drain?
    ensures var t := ReceiverStep(s, e);
            && t.th.h == s.th.h && Tame(s.rc.log, t.rc.log) && (ReceiverMayWrite(t) ==> ReceiverMayWrite(s))
            && (!ReceiverMayWrite(s) ==> t.rc.log == s.rc.log)
  {
    hide CancelStep;
  }

  lemma SelectWrites(s: Session, pick: Pick)
    requires s.th.l.Select?
    ensures var t := SelectStep(s, pick);
            && t.rc.log == s.rc.log && (t.th.h == s.th.h || t.th.h.InClose?)
            && (ReceiverMayWrite(t) ==> ReceiverMayWrite(s))
  {
  }

  lemma LoopWrites(s: Session, pick: Pick, e: Env)
    requires !s.th.l.Holds() && s.bc.owner.Some?
    ensures var t := LoopStep(s, pick, e);
            && t.rc.log == s.rc.log && (t.th.h == s.th.h || t.th.h.InClose?)
            && (ReceiverMayWrite(t) ==> ReceiverMayWrite(s))
  {
    hide SelectStep;
    if s.th.l.Select? { SelectWrites(s, pick); }
  }

  lemma OthersWrite(s: Session, a: Action)
    requires !a.ByHandler? && !a.ByLoop? && !a.ByReceiver?
    ensures var t := Step(s, a);
            t.rc.log == s.rc.log && t.th.h == s.th.h && (ReceiverMayWrite(t) ==> ReceiverMayWrite(s))
  {
    hide TransportStep, WatchStep;
    if a.ByTransport? { E.TransportMeans(s, a.e); }
  }

  /** The log under a report that goes well. */
  lemma StaysWell(s: Session, t: Session)
    requires ReportsWell(s) && Reporting(s.th.h) && t.th.h == s.th.h && C.Inv(t)
    requires Tame(s.rc.log, t.rc.log) && (ReceiverMayWrite(t) ==> ReceiverMayWrite(s))
    requires !ReceiverMayWrite(s) ==> t.rc.log == s.rc.log
    ensures ReportsWell(t)
  {
    hide C.Inv, ReceiverMayWrite;
  }

  lemma HandlerReports(s: Session, e: Env)
    requires ReportsWell(s) && C.Inv(HandlerStep(s, e))
    ensures ReportsWell(HandlerStep(s, e))
  {
    hide C.Inv, CloseStep, ReceiverMayWrite;
    if s.th.h.InClose? { StaysClosed(s, s.th.h.close, e); } else { SameWrites(s, HandlerStep(s, e)); }
  }

  lemma StaysClosed(s: Session, pc: ClosePc, e: Env)
    requires s.th.h == InClose(pc)
    ensures CloseStep(s, pc, e).th.h.InClose?
  {
    hide CancelStep;
  }

  lemma SameWrites(s: Session, t: Session)
    requires t.th.r == s.th.r && t.th.l == s.th.l && t.bc == s.bc
    ensures ReceiverMayWrite(t) == ReceiverMayWrite(s)
  {
  }

  lemma ReportStays(s: Session, a: Action)
    requires ReportsWell(s) && Reporting(s.th.h) && !a.ByHandler? && C.Inv(Step(s, a))
    ensures ReportsWell(Step(s, a))
  {
    hide C.Inv, ReceiverMayWrite, ReportsWell, LoopStep, ReceiverStep, TransportStep, DisconnectStep, PeerStep;
    assert C.Inv(s) by { WellMeans(s); }
    Holding(s);
    LoopOwns(s);
    match a
    case ByLoop(pick, e) =>
      LoopWrites(s, pick, e);
      if Step(s, a).th.h == s.th.h { StaysWell(s, Step(s, a)); } else { ClosedWell(Step(s, a)); }
    case ByReceiver(e) => ReceiverWrites(s, e); StaysWell(s, Step(s, a));
    case _ => OthersWrite(s, a); StaysWell(s, Step(s, a));
  }

  lemma WellMeans(s: Session)
    requires ReportsWell(s)
    ensures C.Inv(s)
  {
    hide C.Inv;
  }

  lemma ClosedWell(s: Session)
    requires C.Inv(s) && s.th.h.InClose?
    ensures ReportsWell(s)
  {
    hide C.Inv;
  }

  lemma Holding(s: Session)
    requires Reporting(s.th.h)
    ensures s.th.h.HoldsController() && s.th.h != InRegister(RegisterWait)
  {
  }

  /** Past the copy the others leave the handler where it is, or the loop takes its message. */
  lemma PostStays(s: Session, a: Action)
    requires ReportsWell(s) && !Reporting(s.th.h) && !a.ByHandler? && C.Inv(Step(s, a))
    ensures ReportsWell(Step(s, a))
  {
    hide C.Inv, LoopStep, ReceiverStep, TransportStep, WatchStep;
    match a
    case ByLoop(pick, e) => E.LoopMeans(s, pick, e);
    case ByReceiver(e) => E.ReceiverMeans(s, e);
    case ByTransport(e) => E.TransportMeans(s, e);
    case _ =>
  }

  lemma {:induction false} WellReported(s: Session, actions: seq<Action>)
    requires ReportsWell(s)
    ensures ReportsWell(P.Exec(s, actions))
    decreases |actions|
  {
    hide Step, ReportsWell, C.Inv;
    if actions != [] {
      var a := actions[0];
      WellMeans(s);
      C.Kept(s, a);
      if a.ByHandler? { StepIs(s, a.e); HandlerReports(s, a.e); }
      else if Reporting(s.th.h) { ReportStays(s, a); }
      else { PostStays(s, a); }
      WellReported(Step(s, a), actions[1..]);
    }
  }

  // ---------- a cancel that can come in between does ----------

  function WatchLeft(d: DisconnectPc): nat {
    if d.DSend? then 3 else if d.DClose? then 2 else if d.DFree? then 1 else 0
  }

  /** How far the receiver is from writing; it may have to wait for the watcher to leave `c.m`. */
  function WayToWrite(s: Session): nat {
    match s.th.r
    case RCopy => 20
    case RPost(_) => 19
    case Recv => if s.bc.peer.inbox == [] then 18 else 17
    case RCancelling(CStart) => 16
    case RCancelling(CLock) =>
      6 + if s.cw.gate.owner.Some? then WatchLeft(s.th.d) + (if s.clientGone then 0 else 1) else 0
    case RCancelling(CSend) => 5
    case RCancelling(CClose) => 4
    case _ => 1
  }

  /** What brings the receiver closer to writing. */
  function Approach(s: Session): Action {
    match s.th.r
    case RPost(_) => ByLoop(OnReceiver, GO)
    case Recv => if s.bc.peer.inbox == [] then PeerReplies(Abort) else ByReceiver(GO)
    case RCancelling(CLock) =>
      if s.cw.gate.owner.None? then ByReceiver(GO) else if s.clientGone then ByDisconnect(GO) else ClientLeaves
    case _ => ByReceiver(GO)
  }

  ghost predicate Approaches(s: Session, t: Session) {
    ReceiverMayWrite(t) && WayToWrite(t) < WayToWrite(s) && t.th.h == s.th.h && t.rc.log == s.rc.log
  }

  lemma ApproachCancelling(s: Session)
    requires s.th.r.RCancelling? && (s.cw.gate.owner.Some? && s.th.r.at.CLock? ==> WatchLeft(s.th.d) > 0)
    ensures Approaches(s, Step(s, Approach(s)))
  {
  }

  lemma ApproachReading(s: Session)
    requires ReceiverMayWrite(s) && (s.th.r.Recv? || s.th.r.RCopy? || s.th.r.RPost?)
    ensures Approaches(s, Step(s, Approach(s)))
  {
  }

  /** Only the watcher can be in the way of the receiver. */
  lemma WatcherHolds(s: Session)
    requires W.Inv(s) && Reporting(s.th.h) && s.th.r == RCancelling(CLock) && s.cw.gate.owner.Some?
    ensures WatchLeft(s.th.d) > 0
  {
    hide Frames.Sent, Terminals, HasMeta, OnlyRequest, Faithful;
    var me := s.cw.gate.owner.value;
    assert me.Handler? || me.Loop? || me.Receiver? || me.Disconnect?;
  }

  /** The receiver comes to write into a log that does not say cancelled, and breaks it. */
  lemma {:induction false} WriteComes(s: Session) returns (actions: seq<Action>)
    requires W.Inv(s) && Reporting(s.th.h) && ReceiverMayWrite(s)
    requires Agrees(s.rc.log) && s.rc.log.error != CANCELED_BY_BROWSER
    ensures var t := P.Exec(s, actions); t.th.h == s.th.h && !Agrees(t.rc.log)
    decreases WayToWrite(s)
  {
    hide Step, P.Exec, W.Inv, ReceiverMayWrite, WayToWrite;
    var a := Approach(s);
    F.OneStep(s, a);
    if s.th.r.REdit? || s.th.r.REditError? {
      actions := [a];
      Writes(s);
    } else {
      if s.th.r == RCancelling(CLock) && s.cw.gate.owner.Some? { WatcherHolds(s); }
      if s.th.r.RCancelling? {
        ApproachCancelling(s);
      } else {
        Rest(s);
        ApproachReading(s);
      }
      W.Kept(s, a);
      var rest := WriteComes(Step(s, a));
      actions := [a] + rest;
      P.ExecAppend(s, [a], rest);
    }
  }

  lemma Rest(s: Session)
    requires ReceiverMayWrite(s) && !s.th.r.RCancelling? && !s.th.r.REdit? && !s.th.r.REditError?
    ensures s.th.r.Recv? || s.th.r.RCopy? || s.th.r.RPost?
  {
  }

  lemma Writes(s: Session)
    requires (s.th.r.REdit? || s.th.r.REditError?) && Agrees(s.rc.log) && s.rc.log.error != CANCELED_BY_BROWSER
    ensures var t := Step(s, Approach(s)); t.th.h == s.th.h && !Agrees(t.rc.log)
  {
  }

  predicate HandedAgrees(s: Session) {
    s.th.h.InReport? && s.th.h.rep.Post? ==> Agrees(s.th.h.rep.msg.log)
  }

  /** One step of a reporting handler. */
  lemma ReportTurn(s: Session)
    requires Reporting(s.th.h)
    ensures var t := Step(s, Action.ByHandler(GO));
            if s.th.h.rep.Copy? then t.th.h.InReport? && t.th.h.rep.Post? && t.th.h.rep.msg.log == s.rc.log
            else
              && Reporting(t.th.h) && t.th.h.p == s.th.h.p
              && (if s.th.h.rep.Edit? then t.th.h.rep.EditError? else t.th.h.rep.Copy?)
              && (HandlerReady(t) && HandlerSafe(t) ==> HandlerReady(s) && HandlerSafe(s))
  {
  }

  /** A message that does not agree can be handed over. */
  lemma {:induction false} ReportsBadly(schedule: seq<Action>) returns (more: seq<Action>)
    requires var s := Run(schedule); Reporting(s.th.h) && !(HandlerReady(s) && HandlerSafe(s))
    ensures !HandedAgrees(Run(schedule + more))
    decreases if Run(schedule).th.h.rep.Copy? then 0 else if Run(schedule).th.h.rep.EditError? then 1 else 2
  {
    hide Run, Step, P.Exec, W.Inv, ReceiverMayWrite;
    var a := Action.ByHandler(GO);
    var s := Run(schedule);
    if s.th.h.rep.Copy? {
      var first: seq<Action> := [];
      assert schedule + [] == schedule;
      if Agrees(s.rc.log) {
        W.Always(schedule);
        first := WriteComes(s);
        P.RunThenExec(schedule, first);
      }
      P.RunThenExec(schedule + first, [a]);
      F.OneStep(Run(schedule + first), a);
      ReportTurn(Run(schedule + first));
      more := first + [a];
      assert schedule + more == schedule + first + [a];
    } else {
      P.RunThenExec(schedule, [a]);
      F.OneStep(s, a);
      ReportTurn(s);
      var rest := ReportsBadly(schedule + [a]);
      more := [a] + rest;
      assert schedule + more == schedule + [a] + rest;
    }
  }

  /** The handler writes its error into the log, status code first, and copies it. The copy that it hands to the
      loop agrees in every continuation if and only if what it has written so far is still in the log, and the
      error is a cancel's itself or the receiver can no longer come to write one. */
  lemma HandlerAgreesIff(schedule: seq<Action>)
    requires Reporting(Run(schedule).th.h)
    ensures (forall more :: HandedAgrees(Run(schedule + more)))
            <==> HandlerReady(Run(schedule)) && HandlerSafe(Run(schedule))
  {
    hide Run, Step, P.Exec, C.Inv, HandlerReady, HandlerSafe;
    var s := Run(schedule);
    C.Always(schedule);
    if HandlerReady(s) && HandlerSafe(s) {
      forall more ensures HandedAgrees(Run(schedule + more)) {
        WellReported(s, more);
        P.RunThenExec(schedule, more);
        WellHanded(P.Exec(s, more));
      }
    } else {
      var more := ReportsBadly(schedule);
      assert !HandedAgrees(Run(schedule + more));
    }
  }

  lemma WellHanded(s: Session)
    requires ReportsWell(s)
    ensures HandedAgrees(s)
  {
    hide C.Inv;
  }
}
