/** A cancel of the controller, at whatever point of the session the receiver begins to act on it: exactly when it keeps
    the response out of the archive. */
module Cancels {
  import opened Frames
  import opened Session
  import E = Effects
  import A = Aborting
  import C = ControllerProtocol
  import W = WriterProtocol
  import F = Finish
  import I = Interceptor
  import Opening
  import P = Progress

  // ---------- the condition ----------

  /** Reading on, the receiver finds no acceptance of the request: cancels apart, a refusal or the end comes first. */
  predicate DeafQueue(q: seq<Reply>, ended: bool) {
    if q == [] then ended
    else if q[0].Abort? then DeafQueue(q[1..], ended)
    else q[0].Robots?
  }

  /** Before registration has an answer: the loop has to take the cancel, or the receiver reads no further, and then an
      acceptance has to be on its way. Before SendMeta's check: the content writer is open, or finish holds `b.m`.
      Inside SendMeta: only its own claim or its own send can fail. Afterwards it is as it is. */
  predicate KeepsOut(s: Session) {
    match s.th.h
    case InRegister(pc) =>
      || !s.th.l.Select? || (pc.Register? && s.bc.complete.Some?)
      || DeafQueue(s.bc.peer.inbox, s.bc.peer.ended.Some?)
    case InMeta(pc) =>
      if pc.MetaClose? then false
      else if pc.MetaSend? then !s.cw.stream.Live()
      else if pc.MetaLock? then s.cw.gate.done || !s.cw.stream.Live()
      else true
    case InRequest(_) => s.cw.open || s.th.l.Holds()
    case InResponse(_) => true
    case InBody(_) => true
    case _ => !s.cw.acked
  }

  // ---------- no way to an acknowledgement ----------

  predicate Deaf(s: Session) {
    match s.th.r
    case Deliver(reply) => reply.Robots?
    case DeliverLast(_) => true
    case RClose => true
    case REnded => true
    case _ => DeafQueue(s.bc.peer.inbox, s.bc.peer.ended.Some?)
  }

  predicate Bar(s: Session) {
    match s.th.h
    case InRegister(pc) =>
      || (pc.Register? && (s.bc.complete.Some? || s.th.l.Drain?))
      || (s.th.r.Aborting() && !s.th.l.Select?)
      || Deaf(s) || s.bc.peer.chanClosed
    case InMeta(pc) =>
      (pc.MetaLock? && (s.cw.gate.done || !s.cw.stream.Live())) || (pc.MetaSend? && !s.cw.stream.Live())
    case InRequest(_) => false
    case InResponse(_) => false
    case InBody(_) => false
    case _ => true
  }

  ghost predicate Barred(s: Session) {
    Bar(s) && !s.cw.acked && C.Inv(s) && P.Tidy(s)
  }

  lemma {:induction false} DeafToMore(q: seq<Reply>, r: Reply)
    requires DeafQueue(q, false)
    ensures DeafQueue(q + [r], false)
  {
    if q[0].Abort? {
      DeafToMore(q[1..], r);
      assert (q + [r])[1..] == q[1..] + [r];
    }
  }

  lemma {:induction false} DeafToEnd(q: seq<Reply>)
    requires DeafQueue(q, false)
    ensures DeafQueue(q, true)
  {
    if q[0].Abort? { DeafToEnd(q[1..]); }
  }

  lemma BarPeer(s: Session, a: Action)
    requires Bar(s) && (a.PeerReplies? || a.PeerEnds?)
    ensures Bar(Step(s, a))
  {
    var q := s.bc.peer.inbox;
    if s.bc.peer.ended.None? && DeafQueue(q, false) {
      if a.PeerReplies? { DeafToMore(q, a.reply); } else { DeafToEnd(q); }
    }
  }

  lemma BarHandler(s: Session, e: Env)
    requires Bar(s) && (s.th.l.Drain? ==> s.bc.owner.Some?) && !s.cw.acked
    ensures Bar(HandlerStep(s, e)) && !HandlerStep(s, e).cw.acked
  {
    hide RegisterStep, MetaStep, ReportStep, FailStep, CloseStep, Deaf;
    match s.th.h
    case InRegister(pc) => BarRegister(s, pc, e);
    case InMeta(pc) => BarMeta(s, pc, e);
    case InReport(p, pc) => BarReport(s, p, pc, e);
    case InFail(code, pc) => BarFail(s, code, pc, e);
    case InClose(pc) => A.JamClose(s, pc, e);
    case _ =>
  }

  lemma BarRegister(s: Session, pc: RegisterPc, e: Env)
    requires Bar(s) && s.th.h == InRegister(pc) && (s.th.l.Drain? ==> s.bc.owner.Some?)
    ensures var t := RegisterStep(s, pc, e); Bar(t) && t.cw == s.cw
  {
    hide DeafQueue;
  }

  lemma BarMeta(s: Session, pc: MetaPc, e: Env)
    requires Bar(s) && s.th.h == InMeta(pc)
    ensures var t := MetaStep(s, pc, e); Bar(t) && t.cw.acked == s.cw.acked
  {
    hide Deaf;
  }

  lemma BarReport(s: Session, p: Purpose, pc: ReportPc, e: Env)
    requires s.th.h == InReport(p, pc)
    ensures var t := ReportStep(s, p, pc, e); Bar(t) && t.cw == s.cw
  {
    hide Deaf;
  }

  lemma BarFail(s: Session, code: int, pc: FailPc, e: Env)
    requires s.th.h == InFail(code, pc)
    ensures var t := FailStep(s, code, pc, e); Bar(t) && t.cw == s.cw
  {
    hide Deaf;
  }

  lemma BarReceiver(s: Session, e: Env)
    requires Bar(s) && (s.bc.peer.chanClosed ==> s.th.r.REnded?)
    requires s.th.l.Drain? && s.th.h.InRegister? ==> s.th.h.reg.Register?
    ensures var t := ReceiverStep(s, e); Bar(t) && t.cw.acked == s.cw.acked
  {
    hide CancelStep;
    if s.th.r.RCancelling? {
      A.CancelAcksNothing(s.cw, s.th.r.at, Receiver, e.ok);
      CancelOnly(s.cw, s.th.r.at, e.ok);
    }
  }

  lemma CancelOnly(w: Writer, at: CancelPc, ok: bool)
    ensures var w' := CancelStep(w, at, Receiver, ok).0;
            (w.gate.done ==> w'.gate.done) && (w'.stream.Live() ==> w.stream.Live())
  {
  }

  lemma BarLoop(s: Session, pick: Pick, e: Env)
    requires Bar(s)
    ensures Bar(LoopStep(s, pick, e)) && LoopStep(s, pick, e).cw == s.cw
  {
    hide DeafQueue, LoopStep;
    E.LoopMeans(s, pick, e);
    LoopKeepsPeer(s, pick, e);
  }

  lemma LoopKeepsPeer(s: Session, pick: Pick, e: Env)
    ensures var t := LoopStep(s, pick, e);
            && t.bc.peer == s.bc.peer && (s.bc.complete.Some? ==> t.bc.complete.Some?)
            && (!s.th.l.Select? ==> !t.th.l.Select? && t.th.r == s.th.r)
            && (s.th.l.Drain? && !s.bc.peer.chanClosed ==> t == s)
  {
    hide Reported;
    if s.th.h.InReport? && s.th.h.rep.Post? {
      E.ReportedMeans(UnlockB(WithBc(s, Take(s.bc, s.th.h.rep.msg))), s.th.h.p, true);
    }
  }

  lemma BarOthers(s: Session, a: Action)
    requires Bar(s) && (a.ByTransport? || a.ByDisconnect? || a.ClientLeaves?)
    ensures Bar(Step(s, a)) && Step(s, a).cw.acked == s.cw.acked
  {
    hide TransportStep, WatchStep, DeafQueue;
    if a.ByTransport? { E.TransportMeans(s, a.e); I.TransportReleases(s, a.e); TransportDies(s, a.e); }
    if a.ByDisconnect? { A.CutWatch(s.cw, s.th.d, a.e.ok); F.WatchLeaves(s.cw, s.th.d, a.e.ok); }
  }

  lemma TransportDies(s: Session, e: Env)
    ensures TransportStep(s, e).cw.stream.Live() ==> s.cw.stream.Live()
  {
    F.TransportLeaves(s, e);
  }

  lemma BarredStep(s: Session, a: Action)
    requires Barred(s)
    ensures Barred(Step(s, a))
  {
    hide C.Inv, P.Tidy, Bar, HandlerStep, LoopStep, ReceiverStep, TransportStep, DisconnectStep;
    C.Kept(s, a);
    P.TidyStep(s, a);
    if s.th.l.Holds() { A.LoopOwns(s); }
    match a
    case ByHandler(e) => BarHandler(s, e);
    case ByLoop(pick, e) => BarLoop(s, pick, e);
    case ByReceiver(e) => ClosedHasEnded(s); BarReceiver(s, e);
    case PeerReplies(_) => BarPeer(s, a);
    case PeerEnds(_) => BarPeer(s, a);
    case _ => BarOthers(s, a);
  }

  lemma ClosedHasEnded(s: Session)
    requires P.Tidy(s)
    ensures s.bc.peer.chanClosed ==> s.th.r.REnded?
  {
  }

  lemma {:induction false} BarredForever(s: Session, actions: seq<Action>)
    requires Barred(s)
    ensures !P.Exec(s, actions).cw.acked
    decreases |actions|
  {
    hide Step, Bar, C.Inv, P.Tidy;
    if actions != [] {
      BarredStep(s, actions[0]);
      BarredForever(Step(s, actions[0]), actions[1..]);
    }
  }

  // ---------- otherwise there is one ----------

  const GO := Env(true, [], More, 0, false, true)

  /** The session waits for its registration's answer, and nothing has happened to it yet. */
  predicate Fresh(s: Session) {
    && s.th.h == InRegister(RegisterWait) && s.th.l.Select? && s.th.t.TOff?
    && s.cw == Init().cw && !s.rc.cached && !s.rc.rcError
  }

  /** The loop takes the receiver's cancel, and the receiver reads on. */
  lemma Taken(s0: Session, s: Session) returns (u: Session)
    requires A.Reaches(s0, s) && Fresh(s) && s.th.r.REdit?
    ensures A.Reaches(s0, u) && Fresh(u) && u.th.r.Recv? && u.bc.peer == s.bc.peer
  {
    hide A.Reaches;
    u := A.Go(s0, s, ByReceiver(GO));
    u := A.Go(s0, u, ByReceiver(GO));
    u := A.Go(s0, u, ByReceiver(GO));
    u := A.Go(s0, u, ByLoop(OnReceiver, GO));
  }

  /** It comes to an acceptance. */
  lemma {:induction false} Accepted(s0: Session, s: Session) returns (u: Session)
    requires A.Reaches(s0, s) && Fresh(s) && s.th.r.Recv? && !DeafQueue(s.bc.peer.inbox, s.bc.peer.ended.Some?)
    ensures A.Reaches(s0, u) && u.th.h == InRequest(Filtering) && u.th.l.Select? && u.th.t.TOff?
    ensures u.cw == Init().cw && !u.rc.cached && !u.rc.rcError && u.bc.owner.None?
    decreases |s.bc.peer.inbox|
  {
    hide A.Reaches, Step;
    var q := s.bc.peer.inbox;
    if q == [] {
      u := A.Go(s0, s, PeerReplies(Accept));
      PeerSays(s, Accept);
      u := AcceptedNow(s0, u);
    } else if q[0].Abort? {
      u := A.Go(s0, s, ByReceiver(GO));
      ReadsAbort(s);
      u := A.Go(s0, u, ByReceiver(GO));
      u := Taken(s0, u);
      u := Accepted(s0, u);
    } else {
      u := AcceptedNow(s0, s);
    }
  }

  lemma PeerSays(s: Session, r: Reply)
    requires s.bc.peer.ended.None?
    ensures var t := Step(s, PeerReplies(r)); t == WithBc(s, s.bc.(peer := s.bc.peer.(inbox := s.bc.peer.inbox + [r])))
  {
  }

  lemma ReadsAbort(s: Session)
    requires Fresh(s) && s.th.r.Recv? && s.bc.peer.inbox != [] && s.bc.peer.inbox[0].Abort?
    ensures var t := Step(s, ByReceiver(GO)); var v := Step(t, ByReceiver(GO));
            && Fresh(v) && v.th.r.REdit? && v.bc.peer == s.bc.peer.(inbox := s.bc.peer.inbox[1..])
  {
  }

  lemma AcceptedNow(s0: Session, s: Session) returns (u: Session)
    requires A.Reaches(s0, s) && Fresh(s) && s.th.r.Recv? && s.bc.peer.inbox != [] && s.bc.peer.inbox[0].Accept?
    ensures A.Reaches(s0, u) && u.th.h == InRequest(Filtering) && u.th.l.Select? && u.th.t.TOff?
    ensures u.cw == Init().cw && !u.rc.cached && !u.rc.rcError && u.bc.owner.None?
  {
    hide A.Reaches;
    u := A.Go(s0, s, ByReceiver(GO));
    u := A.Go(s0, u, ByReceiver(GO));
  }

  /** The registration is sent, and waits. */
  lemma Registered(s0: Session, s: Session) returns (u: Session)
    requires A.Reaches(s0, s) && s.th.h.InRegister? && s.th.l.Select? && s.th.t.TOff? && s.th.r.REdit?
    requires s.cw == Init().cw && !s.rc.cached && !s.rc.rcError
    requires s.th.h.reg.Register? ==> s.bc.owner.None? && s.bc.complete.None?
    ensures A.Reaches(s0, u) && Fresh(u) && u.th.r.REdit? && u.bc.peer == s.bc.peer
  {
    hide A.Reaches;
    u := s;
    if u.th.h.reg.Register? { u := A.Go(s0, u, ByHandler(GO)); }
    if u.th.h.reg.RegisterSend? { u := A.Go(s0, u, ByHandler(GO)); }
  }

  lemma RegistrationArchived(s: Session) returns (u: Session)
    requires s.th.h.InRegister? && s.th.l.Select? && s.th.t.TOff? && s.th.r.REdit?
    requires s.cw == Init().cw && !s.rc.cached && !s.rc.rcError && !DeafQueue(s.bc.peer.inbox, s.bc.peer.ended.Some?)
    requires s.th.h.reg.Register? ==> s.bc.owner.None? && s.bc.complete.None?
    ensures A.Reaches(s, u) && u.cw.acked
  {
    hide A.Reaches, Step;
    A.Stays(s);
    u := Registered(s, s);
    u := Taken(s, u);
    u := Accepted(s, u);
    u := A.ToBody(s, u);
    u := A.ToArchive(s, u);
  }

  /** What holds in every state in which the receiver begins to act on a cancel. */
  lemma Begins(schedule: seq<Action>)
    requires Run(schedule).th.r == RCancelling(CStart)
    ensures var s := Run(schedule);
            && (s.th.h.InRegister? ==> s.cw == Init().cw && !s.rc.cached && !s.rc.rcError && s.th.t.TOff?)
            && (s.th.h.InRegister? && s.th.h.reg.Register? && s.th.l.Select? ==> s.bc.owner.None?)
            && (s.th.h.InResponse? || s.th.h.InBody? || s.th.h.InMeta? ==> s.cw.open)
            && (s.th.h.InMeta? && !s.th.h.meta.MetaClose? ==> !s.cw.acked)
            && (s.th.h.InMeta? && s.th.h.meta.MetaLock? && !s.cw.gate.done ==> s.cw.gate.owner.None?)
  {
    hide Run;
    var s := Run(schedule);
    C.Always(schedule);
    W.Always(schedule);
    Opening.Always(schedule);
    hide C.Inv, W.Inv;
    if s.th.h.InRegister? { NotBegun(s); NobodyHolds(s); }
    if s.th.h.InMeta? && !s.th.h.meta.MetaClose? { NotYetAcked(s); }
    if s.cw.gate.owner.Some? { I.HeldIsClaimed(s); }
  }

  lemma NotBegun(s: Session)
    requires Opening.Inv(s) && W.Inv(s) && s.th.h.InRegister? && s.th.r.RCancelling?
    ensures s.cw == Init().cw && !s.rc.cached && !s.rc.rcError && s.th.t.TOff?
  {
    hide Terminals, HasMeta, Faithful, OnlyRequest;
  }

  lemma NobodyHolds(s: Session)
    requires C.Inv(s) && s.th.h.InRegister?
    ensures s.th.h.reg.Register? && s.th.l.Select? ==> s.bc.owner.None?
  {
    hide C.Scan;
    match s.bc.owner
    case None =>
    case Some(me) => assert me.Handler? || me.Loop? || me.Receiver? || me.Disconnect?;
  }

  lemma NotYetAcked(s: Session)
    requires W.Inv(s) && s.th.h.InMeta? && !s.th.h.meta.MetaClose?
    ensures !s.cw.acked
  {
    hide Frames.Sent, Terminals, HasMeta, OnlyRequest, Faithful;
  }

  // ---------- the exact condition ----------

  /** The receiver begins to act on a cancel of the controller. Whatever follows, the response is not archived, if and only
      if the condition for the point that the handler has reached holds. */
  lemma KeepsOutIff(schedule: seq<Action>)
    requires Run(schedule).th.r == RCancelling(CStart)
    ensures (forall e, more :: !Run(schedule + [Action.ByReceiver(e)] + more).cw.acked) <==> KeepsOut(Run(schedule))
  {
    hide Run, Step, P.Exec, C.Inv, W.Inv, P.Tidy, DeafQueue;
    var s := Run(schedule);
    Begins(schedule);
    if A.Undecided(s.th.h) {
      A.AbortKeepsOutIff(schedule);
    } else if KeepsOut(s) {
      C.Always(schedule);
      P.TidyAlways(schedule);
      forall e, more ensures !Run(schedule + [Action.ByReceiver(e)] + more).cw.acked {
        var a := Action.ByReceiver(e);
        BarredForever(s, [a] + more);
        P.RunThenExec(schedule, [a] + more);
        assert schedule + [a] + more == schedule + ([a] + more);
      }
    } else {
      var t := Step(s, Action.ByReceiver(GO));
      var u := Archived(s, t);
      var more :| P.Exec(t, more) == u;
      var a := Action.ByReceiver(GO);
      P.RunThenExec(schedule, [a] + more);
      P.ExecAppend(s, [a], more);
      F.OneStep(s, a);
      assert schedule + [a] + more == schedule + ([a] + more);
    }
  }

  lemma Archived(s: Session, t: Session) returns (u: Session)
    requires s.th.r == RCancelling(CStart) && !A.Undecided(s.th.h) && !KeepsOut(s) && t == Step(s, Action.ByReceiver(GO))
    requires s.th.h.InRegister? ==> s.cw == Init().cw && !s.rc.cached && !s.rc.rcError && s.th.t.TOff?
    requires s.th.h.InRegister? && s.th.h.reg.Register? && s.th.l.Select? ==> s.bc.owner.None?
    requires s.th.h.InMeta? ==> s.cw.open
    requires s.th.h.InMeta? && s.th.h.meta.MetaLock? && !s.cw.gate.done ==> s.cw.gate.owner.None?
    ensures A.Reaches(t, u) && u.cw.acked
  {
    hide A.Reaches, Step, DeafQueue;
    A.Stays(t);
    if s.th.h.InRegister? {
      A.Looked(s);
      u := RegistrationArchived(t);
    } else if s.th.h.InMeta? {
      Marked(s);
      u := MetaArchived(t);
    } else {
      assert t.cw.acked by { StaysAcked(s); }
      u := t;
    }
  }

  lemma Marked(s: Session)
    requires s.th.r == RCancelling(CStart) && s.cw.open
    ensures var t := Step(s, Action.ByReceiver(GO)); t.th.h == s.th.h && t.cw == s.cw.(canceled := true)
  {
  }

  lemma StaysAcked(s: Session)
    requires s.th.r == RCancelling(CStart) && s.cw.acked
    ensures Step(s, Action.ByReceiver(GO)).cw.acked
  {
  }

  lemma MetaArchived(t: Session) returns (u: Session)
    requires t.th.h.InMeta? && A.PastCheck(t.th.h)
    requires t.th.h.meta.MetaLock? ==> !t.cw.gate.done && t.cw.gate.owner.None?
    requires !t.th.h.meta.MetaClose? ==> t.cw.stream.Live()
    ensures A.Reaches(t, u) && u.cw.acked
  {
    hide A.Reaches;
    A.Stays(t);
    u := t;
    if u.th.h.meta.MetaLock? { u := A.Go(t, u, ByHandler(GO)); }
    if u.th.h.meta.MetaSend? { u := A.Go(t, u, ByHandler(GO)); }
    u := A.Go(t, u, ByHandler(GO));
  }
}
