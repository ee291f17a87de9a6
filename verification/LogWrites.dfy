/** Who may still write the status code of the crawl log, and what the writes of the other threads do to it. */
module LogWrites {
  import opened Frames
  import opened Session
  import E = Effects
  import F = Finish
  import Opening
  import P = Progress

  /** A cancel of the controller can reach `canceled` before the receiver waits for the loop. */
  predicate CancelCanCome(s: Session) {
    || s.th.r == RCancelling(CStart)
    || (s.th.r.Recv? && if s.bc.peer.inbox == [] then s.bc.peer.ended.None? else s.bc.peer.inbox[0].Abort?)
  }

  /** The handler can still put a status code, and nothing else, into the log: it has been accepted, and
      neither a dead content writer nor an error of the controller's stream keeps it from the response. */
  predicate CanWriteStatus(s: Session) {
    match s.th.h
    case InRequest(Filtering) => true
    case InRequest(ReqHeader(_)) => !s.rc.rcError && (s.cw.canceled || s.cw.stream.Live() || CancelCanCome(s))
    case InRequest(ReqHeaderSend(_)) => !s.rc.rcError && s.cw.stream.Live()
    case InResponse(pc) => pc.RoundTrip? && !s.rc.rcError
    case _ => false
  }

  /** The handler is between its check under `b.m` and its copy, and writes another code than a cancel's. */
  predicate Edits(h: HandlerPc) {
    h.InReport? && !h.p.ForSave? && h.p.code != CANCELED_BY_BROWSER && (h.rep.Edit? || h.rep.EditError?)
  }

  /** The handler's message is copied or handed over, or the response is being closed. */
  predicate Copied(h: HandlerPc) {
    h.InClose? || (h.InReport? && (h.rep.Copy? || h.rep.Post?))
  }

  predicate Agrees(log: CrawlLog) {
    log.status == log.error
  }

  /** Status code and error stay or become those of a cancel, each for itself. */
  predicate Tame(a: CrawlLog, b: CrawlLog) {
    && (b.status == a.status || b.status == CANCELED_BY_BROWSER)
    && (b.error == a.error || b.error == CANCELED_BY_BROWSER)
  }

  /** The handler's step writes at most a cancel's code, and opens no way to another. */
  ghost predicate Quiet(s: Session, t: Session) {
    && !CanWriteStatus(t) && Tame(s.rc.log, t.rc.log)
    && (Copied(s.th.h) ==> t.rc.log == s.rc.log)
  }

  lemma QuietRegister(s: Session, pc: RegisterPc, e: Env)
    requires !CanWriteStatus(s) && s.th.h == InRegister(pc)
    ensures Quiet(s, RegisterStep(s, pc, e))
  {
  }

  lemma QuietRequest(s: Session, pc: RequestPc, e: Env)
    requires !CanWriteStatus(s) && s.th.h == InRequest(pc)
    ensures Quiet(s, RequestStep(s, pc, e))
  {
  }

  lemma QuietResponse(s: Session, pc: ResponsePc, e: Env)
    requires !CanWriteStatus(s) && s.th.h == InResponse(pc)
    ensures Quiet(s, ResponseStep(s, pc, e))
  {
  }

  lemma QuietBody(s: Session, pc: BodyPc, e: Env)
    requires !CanWriteStatus(s) && s.th.h == InBody(pc)
    ensures Quiet(s, BodyStep(s, pc, e))
  {
  }

  lemma QuietMeta(s: Session, pc: MetaPc, e: Env)
    requires !CanWriteStatus(s) && s.th.h == InMeta(pc)
    ensures Quiet(s, MetaStep(s, pc, e))
  {
  }

  lemma QuietReport(s: Session, p: Purpose, pc: ReportPc, e: Env)
    requires !Edits(s.th.h) && s.th.h == InReport(p, pc)
    ensures Quiet(s, ReportStep(s, p, pc, e))
  {
  }

  lemma QuietRest(s: Session, e: Env)
    requires s.th.h.InFail? || s.th.h.InClose?
    ensures Quiet(s, HandlerStep(s, e))
  {
    hide CancelStep;
  }

  lemma QuietHandler(s: Session, e: Env)
    requires !CanWriteStatus(s) && !Edits(s.th.h)
    ensures Quiet(s, HandlerStep(s, e))
  {
    hide Quiet, CanWriteStatus, RegisterStep, RequestStep, ResponseStep, BodyStep, MetaStep, ReportStep, FailStep,
         CloseStep;
    match s.th.h
    case InRegister(pc) => QuietRegister(s, pc, e);
    case InRequest(pc) => QuietRequest(s, pc, e);
    case InResponse(pc) => QuietResponse(s, pc, e);
    case InBody(pc) => QuietBody(s, pc, e);
    case InMeta(pc) => QuietMeta(s, pc, e);
    case InReport(p, pc) => QuietReport(s, p, pc, e);
    case _ => QuietRest(s, e);
  }

  /** What the others may do without helping the handler to a status code. */
  lemma StaysQuiet(s: Session, t: Session)
    requires !CanWriteStatus(s) && (t.th.h == s.th.h || t.th.h.InClose?)
    requires (t.cw.canceled ==> s.cw.canceled || CancelCanCome(s)) && (CancelCanCome(t) ==> CancelCanCome(s))
    requires (t.cw.stream.Live() ==> s.cw.stream.Live()) && (s.rc.rcError ==> t.rc.rcError)
    ensures !CanWriteStatus(t)
  {
  }

  lemma CancelWrites(w: Writer, at: CancelPc, me: Thread, ok: bool)
    ensures var (w', next) := CancelStep(w, at, me, ok);
            && (w'.canceled ==> w.canceled || at.CStart?) && (w'.stream.Live() ==> w.stream.Live())
            && next != Some(CStart)
  {
  }

  /** The receiver, unless it answers a registration, or lets a reply go by that finish drains. */
  lemma QuietReceiver(s: Session, e: Env)
    requires !CanWriteStatus(s) && s.th.h != InRegister(RegisterWait) && !s.th.l.Drain?
    ensures !CanWriteStatus(ReceiverStep(s, e)) && Tame(s.rc.log, ReceiverStep(s, e).rc.log)
  {
    hide CancelStep, CanWriteStatus;
    if s.th.r.RCancelling? { CancelWrites(s.cw, s.th.r.at, Receiver, e.ok); }
    StaysQuiet(s, ReceiverStep(s, e));
  }

  lemma QuietLoop(s: Session, pick: Pick, e: Env)
    requires !CanWriteStatus(s) && (CancelCanCome(LoopStep(s, pick, e)) ==> CancelCanCome(s))
    ensures !CanWriteStatus(LoopStep(s, pick, e))
  {
    hide CanWriteStatus, LoopStep, CancelCanCome;
    E.LoopMeans(s, pick, e);
    StaysQuiet(s, LoopStep(s, pick, e));
  }

  lemma LoopTame(s: Session, pick: Pick, e: Env)
    ensures Tame(s.rc.log, LoopStep(s, pick, e).rc.log)
    ensures !s.th.l.Held? && !s.th.l.HeldError? ==> LoopStep(s, pick, e).rc == s.rc
  {
    hide SelectStep;
    if s.th.l.Select? { E.SelectMeans(s, pick); }
  }

  /** Transport, watcher, peer and client do not touch the log. */
  lemma QuietOthers(s: Session, a: Action)
    requires !CanWriteStatus(s) && !a.ByHandler? && !a.ByLoop? && !a.ByReceiver?
    ensures !CanWriteStatus(Step(s, a)) && Step(s, a).rc.log == s.rc.log
  {
    hide TransportStep, WatchStep, CanWriteStatus;
    if a.ByTransport? {
      F.TransportLeaves(s, a.e);
      E.TransportMeans(s, a.e);
    } else if a.ByDisconnect? {
      F.WatchLeaves(s.cw, s.th.d, a.e.ok);
    }
    StaysQuiet(s, Step(s, a));
  }

  // ---------- a status code that can come does ----------

  const OK_200 := Env(true, [], More, 200, false, true)

  predicate OnlyHandler(actions: seq<Action>) {
    forall i :: 0 <= i < |actions| ==> actions[i].ByHandler?
  }

  lemma Nothing(s: Session)
    ensures P.Exec(s, []) == s
  {
  }

  /** The handler's way to writing a status code. */
  lemma {:induction false} StatusComes(s: Session) returns (actions: seq<Action>)
    requires CanWriteStatus(s) && s.rc.log.error == CANCELED_BY_BROWSER
    requires s.th.h.InRequest? && s.th.h.req.ReqHeader? ==> s.cw.canceled || s.cw.stream.Live()
    ensures var t := P.Exec(s, actions);
            && !Agrees(t.rc.log) && t.th.l == s.th.l && t.th.r == s.th.r && t.bc == s.bc && OnlyHandler(actions)
    decreases F.Rank(s.th.h)
  {
    hide P.Exec;
    var a := Action.ByHandler(OK_200);
    F.OneStep(s, a);
    if s.th.h.InResponse? || s.th.h.req.Filtering? {
      actions := [a];
    } else {
      var rest := StatusComes(Step(s, a));
      actions := [a] + rest;
      P.ExecAppend(s, [a], rest);
    }
  }

  /** A dead content writer is passed by once a cancel has come. */
  lemma CancelComes(s: Session) returns (actions: seq<Action>)
    requires CanWriteStatus(s) && Opening.Inv(s)
    ensures var t := P.Exec(s, actions);
            && CanWriteStatus(t) && t.rc.log == s.rc.log && t.th.l == s.th.l && t.bc.stream == s.bc.stream
            && t.bc.complete == s.bc.complete
            && (t.th.h.InRequest? && t.th.h.req.ReqHeader? ==> t.cw.canceled || t.cw.stream.Live())
  {
    hide P.Exec, Opening.Inv;
    actions := [];
    assert P.Exec(s, []) == s by { Nothing(s); }
    if s.th.h.InRequest? && s.th.h.req.ReqHeader? && !s.cw.canceled && !s.cw.stream.Live() {
      assert s.cw.open by { OpenThen(s); }
      actions := Cancelled(s);
    }
  }

  lemma OpenThen(s: Session)
    requires Opening.Inv(s) && s.th.h.InRequest? && s.th.h.req.ReqHeader?
    ensures s.cw.open
  {
    hide Opening.OnlyCancels;
  }

  lemma Cancelled(s: Session) returns (actions: seq<Action>)
    requires CancelCanCome(s) && s.cw.open && !s.rc.rcError && s.th.h.InRequest? && s.th.h.req.ReqHeader?
    ensures var t := P.Exec(s, actions);
            && t.cw.canceled && t.rc == s.rc && t.th.l == s.th.l && t.th.h == s.th.h && t.bc.stream == s.bc.stream
            && t.bc.complete == s.bc.complete
  {
    hide P.Exec;
    var look := Action.ByReceiver(OK_200);
    if s.th.r.RCancelling? {
      actions := [look];
      F.OneStep(s, look);
    } else {
      var reply := PeerReplies(Abort);
      var t := if s.bc.peer.inbox == [] then Step(s, reply) else s;
      var first := if s.bc.peer.inbox == [] then [reply] else [];
      Nothing(s);
      F.OneStep(s, reply);
      assert P.Exec(s, first) == t;
      F.OneStep(t, look);
      var u := Step(t, look);
      F.OneStep(u, look);
      P.ExecAppend(s, first, [look]);
      P.ExecAppend(s, first + [look], [look]);
      actions := first + [look] + [look];
    }
  }
}
