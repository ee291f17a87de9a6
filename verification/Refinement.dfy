/** The objects and the interleaved session are the same code: run without interruption, the session's steps
    have the effects that the objects' methods promise. */
module Refinement {
  import opened Frames
  import opened Session
  import opened ContentWriter
  import opened BrowserController
  import opened ResponseBody
  import P = Progress
  import F = Finish

  // ---------- steps of one thread ----------

  datatype Actor = TheHandler | TheTransport | TheLoop

  /** The actor's own steps; the handler's completion message is taken by the loop. */
  predicate Acts(who: Actor, a: Action) {
    match who
    case TheHandler => a.ByHandler? || (a.ByLoop? && a.pick.OnHandler?)
    case TheTransport => a.ByTransport?
    case TheLoop => a.ByLoop?
  }

  ghost predicate Reaches(who: Actor, s: Session, t: Session) {
    exists actions :: ActsOnly(who, actions) && P.Exec(s, actions) == t
  }

  predicate ActsOnly(who: Actor, actions: seq<Action>) {
    forall i :: 0 <= i < |actions| ==> Acts(who, actions[i])
  }

  lemma Stay(who: Actor, s: Session)
    ensures Reaches(who, s, s)
  {
    assert P.Exec(s, []) == s;
    assert ActsOnly(who, []);
  }

  lemma Go(who: Actor, s: Session, t: Session, a: Action) returns (u: Session)
    requires Reaches(who, s, t) && Acts(who, a)
    ensures u == Step(t, a) && Reaches(who, s, u)
  {
    hide Step;
    var actions :| ActsOnly(who, actions) && P.Exec(s, actions) == t;
    P.ExecAppend(s, actions, [a]);
    F.OneStep(t, a);
    assert P.Exec(s, actions + [a]) == Step(t, a) && ActsOnly(who, actions + [a]);
    u := Step(t, a);
  }

  /** One step of the handler. */
  lemma Handle(s0: Session, s: Session, e: Env) returns (t: Session)
    requires Reaches(TheHandler, s0, s)
    ensures t == HandlerStep(s, e) && Reaches(TheHandler, s0, t)
  {
    t := Go(TheHandler, s0, s, ByHandler(e));
  }

  function If(ok: bool): Env {
    Env(ok, [], More, 0, false, true)
  }

  // ---------- notifications ----------

  /** NotifyDataReceived, called by innerRead after it has read the chunk. */
  lemma NotifyIsSteps(s0: Session, s: Session, c: Chunk, ok: bool) returns (t: Session)
    requires Reaches(TheHandler, s0, s) && s.th.h == InBody(Notify(c)) && s.bc.owner.None?
    ensures Reaches(TheHandler, s0, t)
    ensures t == s.(th := s.th.(h := InBody(Forward(c))), bc := Notified(s.bc, Data, ok), rc := s.rc.(resp := s.rc.resp.Absorb(c.data)))
  {
    hide Reaches;
    t := Handle(s0, s, If(ok));
    if s.bc.complete.None? { t := Handle(s0, t, If(ok)); }
  }

  /** NotifyAllDataReceived, called by innerRead at EOF. */
  lemma NotifyAllIsSteps(s0: Session, s: Session, ok: bool) returns (t: Session)
    requires Reaches(TheHandler, s0, s) && s.th.h == InMeta(NotifyAll) && s.bc.owner.None?
    ensures Reaches(TheHandler, s0, t)
    ensures t == s.(th := s.th.(h := InMeta(MetaCheck)), bc := Notified(s.bc, AllData, ok))
  {
    hide Reaches;
    t := Handle(s0, s, If(ok));
    if s.bc.complete.None? { t := Handle(s0, t, If(ok)); }
  }

  // ---------- reports ----------

  /** SaveCrawlLog, with the loop listening. */
  lemma SaveIsSteps(s0: Session, s: Session) returns (t: Session)
    requires Reaches(TheHandler, s0, s) && s.th.h == InReport(ForSave, Report) && s.bc.owner.None? && s.th.l.Select?
    ensures Reaches(TheHandler, s0, t)
    ensures t == GoH(WithBc(s, Saved(s.bc, s.rc.log)), InClose(if s.rc.cached then Cancelling(CStart, ToBodyDone) else BodyDone))
  {
    hide Reaches;
    t := Handle(s0, s, If(true));
    if s.bc.complete.None? {
      t := Handle(s0, t, If(true));
      t := Handle(s0, t, If(true));
      t := Go(TheHandler, s0, t, ByLoop(OnHandler, If(true)));
    }
  }

  /** Under `b.m`: the log takes the error, status code first, and is copied. */
  lemma EditIsSteps(s0: Session, s: Session, p: Purpose) returns (t: Session)
    requires Reaches(TheHandler, s0, s) && s.th.h == InReport(p, Edit) && !p.ForSave?
    ensures Reaches(TheHandler, s0, t)
    ensures var log := WithError(s.rc.log, p.code);
            t == GoH(WithRc(s, s.rc.(log := log)), InReport(p, Post(Outcome(log, Some(p.code)))))
  {
    hide Reaches;
    t := Handle(s0, s, If(true));
    t := Handle(s0, t, If(true));
    t := Handle(s0, t, If(true));
  }

  /** SendResponseError, with the loop listening. */
  lemma ResponseErrorIsSteps(s0: Session, s: Session, code: int) returns (t: Session)
    requires Reaches(TheHandler, s0, s) && s.th.h == InReport(ForResponseError(code), Report)
    requires s.bc.owner.None? && s.th.l.Select?
    ensures Reaches(TheHandler, s0, t)
    ensures var (b, log) := ResponseFailed(s.bc, s.rc.log, code);
            t == GoH(WithRc(WithBc(s, b), s.rc.(log := log)), InClose(BodyDone))
  {
    hide Reaches;
    t := Handle(s0, s, If(true));
    if s.bc.complete.None? {
      t := EditIsSteps(s0, t, ForResponseError(code));
      t := Go(TheHandler, s0, t, ByLoop(OnHandler, If(true)));
    }
  }

  /** SendRequestError, with the loop listening. */
  lemma RequestErrorIsSteps(s0: Session, s: Session, code: int, ok: bool) returns (t: Session)
    requires Reaches(TheHandler, s0, s) && s.th.h == InFail(code, Fail) && s.bc.owner.None? && s.th.l.Select?
    ensures Reaches(TheHandler, s0, t)
    ensures var (b, log, header) := RequestFailed(s.bc, s.rc.log, code, ok);
            t == ErrorReturned(WithRc(WithBc(s, b), s.rc.(log := log)), header)
  {
    hide Reaches;
    t := Handle(s0, s, If(true));
    if s.bc.complete.None? {
      t := Handle(s0, t, If(true));
      t := Handle(s0, t, If(ok));
      if s.bc.stream.Live() && ok {
        t := PostIsSteps(s0, t, code);
      }
    }
  }

  lemma PostIsSteps(s0: Session, s: Session, code: int) returns (t: Session)
    requires Reaches(TheHandler, s0, s) && s.th.h == InReport(ForRequestError(code), Report)
    requires s.bc.owner.None? && s.th.l.Select? && s.bc.complete.None?
    ensures Reaches(TheHandler, s0, t)
    ensures var log := WithError(s.rc.log, code);
            t == ErrorReturned(WithRc(WithBc(s, Take(s.bc, Outcome(log, Some(code)))), s.rc.(log := log)), Posted(code))
  {
    hide Reaches;
    t := Handle(s0, s, If(true));
    t := EditIsSteps(s0, t, ForRequestError(code));
    t := Go(TheHandler, s0, t, ByLoop(OnHandler, If(true)));
  }

  /** finish, from the loop's last branch on, with msgChan closed. */
  lemma FinishIsSteps(s: Session, ok: bool) returns (t: Session)
    requires s.th.l.Want? && s.bc.owner.None? && s.bc.peer.chanClosed
    ensures Reaches(TheLoop, s, t)
    ensures var (b, log) := Finished(s.bc, s.rc.log, s.rc.cached, ok);
            t == GoL(WithRc(WithBc(s, b), s.rc.(log := log)), LEnded)
  {
    Stay(TheLoop, s);
    hide Reaches;
    t := Go(TheLoop, s, s, ByLoop(OnDone, If(true)));
    t := HeldIsSteps(s, t);
    t := Go(TheLoop, s, t, ByLoop(OnDone, If(ok)));
    t := Go(TheLoop, s, t, ByLoop(OnDone, If(true)));
    t := DrainIsSteps(s, t);
  }

  lemma HeldIsSteps(s0: Session, s: Session) returns (t: Session)
    requires Reaches(TheLoop, s0, s) && s.th.l.Held?
    ensures Reaches(TheLoop, s0, t)
    ensures var log := if s.bc.complete.Some? then s.rc.log else WithError(s.rc.log, CANCELED_BY_BROWSER);
            t == GoL(WithRc(s, s.rc.(log := log)), SendCompleted)
  {
    hide Reaches, SelectStep;
    t := Go(TheLoop, s0, s, ByLoop(OnDone, If(true)));
    if s.bc.complete.None? { t := Go(TheLoop, s0, t, ByLoop(OnDone, If(true))); }
  }

  lemma DrainIsSteps(s0: Session, s: Session) returns (t: Session)
    requires Reaches(TheLoop, s0, s) && s.th.l.Drain? && s.bc.peer.chanClosed
    ensures Reaches(TheLoop, s0, t) && t == GoL(WithBc(s, s.bc.(ctxDone := true, owner := None)), LEnded)
  {
    hide Reaches, SelectStep;
    t := Go(TheLoop, s0, s, ByLoop(OnDone, If(true)));
    t := Go(TheLoop, s0, t, ByLoop(OnDone, If(true)));
    t := Go(TheLoop, s0, t, ByLoop(OnDone, If(true)));
    t := Go(TheLoop, s0, t, ByLoop(OnDone, If(true)));
  }

  /** finish does nothing once the connection's slot is clear. */
  lemma NoFinishIsSteps(s: Session) returns (t: Session)
    requires s.th.l.Want? && s.bc.owner.None?
    ensures Reaches(TheLoop, s, t) && t == GoL(s, LEnded)
  {
    Stay(TheLoop, s);
    hide Reaches;
    t := Go(TheLoop, s, s, ByLoop(OnDone, Env(true, [], More, 0, false, false)));
  }

  // ---------- cancelling ----------

  /** CancelContentWriter by the handler, on a content writer that has been opened. */
  lemma CancelCallIsSteps(s0: Session, s: Session, after: After, ok: bool) returns (t: Session)
    requires Reaches(TheHandler, s0, s) && s.th.h == InClose(Cancelling(CStart, after))
    requires s.cw.open && s.cw.gate.owner.None?
    ensures Reaches(TheHandler, s0, t)
    ensures t == GoH(WithCw(s, Canceled(s.cw, Handler, ok)), InClose(AfterCancel(after)))
  {
    hide Reaches, CancelStep, Canceled;
    CancelIsSteps(s.cw, Handler, ok);
    CancelStarts(s.cw, ok);
    t := Handle(s0, s, If(ok));
    t := Handle(s0, t, If(ok));
    if !s.cw.gate.done {
      t := Handle(s0, t, If(ok));
      t := Handle(s0, t, If(ok));
    }
  }

  lemma CancelStarts(w: Writer, ok: bool)
    requires w.open
    ensures CancelStep(w, CStart, Handler, ok).1 == Some(CLock)
  {
  }

  /** handleRequestError, as the object's method has it. */
  lemma HandleErrorIsSteps(s: Session, code: int, notified: bool, sent: bool) returns (t: Session)
    requires s.th.h == InFail(code, Fail) && s.bc.owner.None? && s.th.l.Select? && s.cw.open && s.cw.gate.owner.None?
    ensures Reaches(TheHandler, s, t) && t.th.h == InClose(ErrorReply)
    ensures (t.bc, t.rc.log, t.hist.header) == RequestFailed(s.bc, s.rc.log, code, notified)
    ensures t.cw == Canceled(s.cw, Handler, sent)
  {
    Stay(TheHandler, s);
    hide Reaches, RequestFailed, Canceled;
    t := RequestErrorIsSteps(s, s, code, notified);
    t := CancelCallIsSteps(s, t, ToErrorReply, sent);
  }

  // ---------- the request ----------

  /** WrapRequestBody: the header, then the round trip, or the error. */
  lemma WrapRequestIsSteps(s: Session, prolog: seq<Byte>, ok: bool) returns (t: Session)
    requires s.th.h == InRequest(Filtering)
    ensures Reaches(TheHandler, s, t)
    ensures var failed := !s.cw.canceled && !(s.cw.stream.Live() && ok);
            && t.th.h == (if failed then InFail(RUNTIME_EXCEPTION, Fail) else InResponse(RoundTrip))
            && t.th.t == (if failed then s.th.t else TReading)
            && t.cw == Offered(s.cw.(open := true), Header(REQUEST, prolog), ok) && t.bc == s.bc
            && t.rc == s.rc.(log := s.rc.log.(status := -1), req := s.rc.req.Absorb(prolog),
                             meta := s.rc.meta[REQUEST := RecordMeta(0, Unset)])
            && (t.hist.lostReq <==> s.hist.lostReq || s.cw.canceled || failed)
  {
    Stay(TheHandler, s);
    hide Reaches;
    t := Handle(s, s, Env(true, prolog, More, 0, false, true));
    t := Handle(s, t, If(ok));
    if !s.cw.canceled { t := Handle(s, t, If(ok)); }
  }

  /** wrappedRequestBody.Read: the chunk is counted, hashed and offered, and the record described at EOF. */
  lemma RequestReadIsSteps(s: Session, c: Chunk, ok: bool) returns (t: Session)
    requires s.th.t.TReading?
    ensures Reaches(TheTransport, s, t)
    ensures t.th == s.th.(t := if c.res.Eof? then TEof else TReading) && t.bc == s.bc
    ensures t.cw == if c.data != [] then Offered(s.cw, Payload(REQUEST, c.data), ok) else s.cw
    ensures var req := if c.data != [] then s.rc.req.Absorb(c.data) else s.rc.req;
            t.rc == s.rc.(req := req, meta := if c.res.Eof? then s.rc.meta[REQUEST := req.Meta()] else s.rc.meta)
    ensures t.hist.lostReq <==> s.hist.lostReq || (c.data != [] && (s.cw.canceled || !(s.cw.stream.Live() && ok)))
  {
    Stay(TheTransport, s);
    hide Reaches;
    t := Go(TheTransport, s, s, ByTransport(Env(true, c.data, c.res, 0, false, true)));
    if c.data != [] {
      t := Go(TheTransport, s, t, ByTransport(If(ok)));
      if !s.cw.canceled { t := Go(TheTransport, s, t, ByTransport(If(ok))); }
    }
    if c.res.Eof? { t := Go(TheTransport, s, t, ByTransport(If(ok))); }
  }

  // ---------- the response ----------

  /** filterResponse with its WrapResponseBody. */
  lemma FilterIsSteps(s: Session, status: int, hit: bool, prolog: seq<Byte>, ok: bool) returns (t: Session)
    requires s.th.h == InResponse(RoundTrip)
    ensures Reaches(TheHandler, s, t) && t.bc == s.bc && t.th == s.th.(h := t.th.h)
    ensures s.rc.rcError ==> t == GoH(s, InClose(BodyDone))
    ensures !s.rc.rcError ==>
              var failed := !hit && !s.cw.canceled && !(s.cw.stream.Live() && ok);
              && t.th.h == (if failed then InFail(RUNTIME_EXCEPTION, Fail) else InBody(Reading))
              && t.cw == (if hit then s.cw else Offered(s.cw, Header(RESPONSE, prolog), ok))
              && t.rc == s.rc.(cached := hit, log := s.rc.log.(status := status), resp := s.rc.resp.Absorb(prolog),
                               meta := s.rc.meta[RESPONSE := RecordMeta(0, Unset)])
              && (t.hist.lostResp <==> s.hist.lostResp || failed || (!hit && s.cw.canceled))
  {
    Stay(TheHandler, s);
    hide Reaches;
    t := Handle(s, s, Env(true, prolog, More, status, hit, true));
    if !s.rc.rcError && !hit {
      t := Handle(s, t, If(ok));
      if !s.cw.canceled { t := Handle(s, t, If(ok)); }
    }
  }

  /** SendPayload, called by innerRead. */
  lemma ForwardIsSteps(s0: Session, s: Session, c: Chunk, ok: bool) returns (t: Session)
    requires Reaches(TheHandler, s0, s) && s.th.h == InBody(Forward(c))
    ensures Reaches(TheHandler, s0, t)
    ensures var lost := s.cw.canceled || !(s.cw.stream.Live() && ok);
            var u := WithCw(s, Offered(s.cw, Payload(RESPONSE, c.data), ok));
            t == AfterChunk(if lost then LoseResp(u) else u, c.res)
  {
    hide Reaches;
    t := Handle(s0, s, If(ok));
    if !s.cw.canceled { t := Handle(s0, t, If(ok)); }
  }

  /** The session once innerRead has dealt with the bytes of a chunk. */
  function Dealt(s: Session, d: seq<Byte>, link: Link): Session {
    if s.rc.cached || d == [] then s
    else
      var lost := s.cw.canceled || !(s.cw.stream.Live() && link.sent);
      var u := s.(bc := Announced(s.bc, d, link), cw := Forwarded(s.cw, d, link), rc := s.rc.(resp := s.rc.resp.Absorb(d)));
      if lost then LoseResp(u) else u
  }

  /** One innerRead that has not ended: notification, count, digest and payload frame; from the cache, nothing. */
  lemma ReadIsSteps(s: Session, c: Chunk, link: Link) returns (t: Session)
    requires s.th.h == InBody(Reading) && s.bc.owner.None?
    ensures Reaches(TheHandler, s, t) && t == AfterChunk(Dealt(s, c.data, link), c.res)
    ensures !c.res.Eof? ==> t.th == s.th
  {
    Stay(TheHandler, s);
    hide Reaches;
    t := Handle(s, s, Env(true, c.data, c.res, 0, false, true));
    if !s.rc.cached && c.data != [] {
      t := DealsIsSteps(s, t, c, link);
    }
  }

  lemma DealsIsSteps(s0: Session, s: Session, c: Chunk, link: Link) returns (t: Session)
    requires Reaches(TheHandler, s0, s) && s.th.h == InBody(Notify(c)) && s.bc.owner.None? && !s.rc.cached && c.data != []
    ensures Reaches(TheHandler, s0, t)
    ensures t == AfterChunk(Dealt(GoH(s, InBody(Reading)), c.data, link), c.res)
  {
    hide Reaches, HandlerStep;
    t := NotifyIsSteps(s0, s, c, link.notified);
    t := ForwardIsSteps(s0, t, c, link.sent);
  }

  /** SendMeta, from the check of `canceled` on, and what innerRead does with its answer up to the report. */
  lemma MetaIsSteps(s0: Session, s: Session, link: Link) returns (t: Session)
    requires Reaches(TheHandler, s0, s) && s.th.h == InMeta(MetaCheck) && s.cw.gate.owner.None?
    ensures Reaches(TheHandler, s0, t) && t.bc == s.bc && t.th == s.th.(h := t.th.h)
    ensures var meta := s.rc.meta[RESPONSE := s.rc.resp.Meta()];
            && t.cw == MetaSent(s.cw, meta, link.metaSent, link.replied)
            && t.rc == (if Replies(s.cw, link) then ArchivedLog(s.rc) else s.rc).(meta := meta)
    ensures t.th.h == if Replies(s.cw, link) then InReport(ForSave, Report)
                      else if Asks(s.cw) then InReport(ForResponseError(RUNTIME_EXCEPTION), Report)
                      else InClose(BodyDone)
  {
    hide Reaches;
    t := Handle(s0, s, If(true));
    if !s.cw.canceled { t := Handle(s0, t, If(true)); }
    if Asks(s.cw) { t := AnswerIsSteps(s0, t, link); }
  }

  /** From the send of Meta on, the content writer's lock taken. */
  lemma AnswerIsSteps(s0: Session, s: Session, link: Link) returns (t: Session)
    requires Reaches(TheHandler, s0, s) && s.th.h.InMeta? && s.th.h.meta.MetaSend?
    ensures Reaches(TheHandler, s0, t) && t.bc == s.bc && t.th == s.th.(h := t.th.h)
    ensures var tried, sent := Try(s.cw, Meta(s.rc.meta), link.metaSent), s.cw.stream.Live() && link.metaSent;
            && t.cw == (if sent then CloseW(tried, link.replied) else LeaveW(tried))
            && t.rc == (if sent && link.replied then ArchivedLog(s.rc) else s.rc)
            && t.th.h == InReport(if sent && link.replied then ForSave else ForResponseError(RUNTIME_EXCEPTION), Report)
  {
    hide Reaches;
    t := Handle(s0, s, If(link.metaSent));
    if s.cw.stream.Live() && link.metaSent { t := Handle(s0, t, If(link.replied)); }
  }

  /** From NotifyAllDataReceived to the report of what became of Meta. */
  lemma DescribeIsSteps(s0: Session, s: Session, link: Link) returns (t: Session)
    requires Reaches(TheHandler, s0, s) && s.th.h == InMeta(NotifyAll) && !s.rc.cached && s.th.l.Select?
    requires s.bc.owner.None? && s.cw.gate.owner.None? && s.rc.resp.Exact()
    ensures Reaches(TheHandler, s0, t) && t.th == s.th.(h := InClose(BodyDone))
    ensures t.rc.resp == s.rc.resp && t.rc.meta == s.rc.meta[RESPONSE := s.rc.resp.Meta()]
    ensures t.cw == MetaSent(s.cw, t.rc.meta, link.metaSent, link.replied)
    ensures (t.bc, t.rc.log) == AfterMeta(Notified(s.bc, AllData, link.notified), s.rc.log, s.rc.resp.hashed,
                                          Asks(s.cw), Replies(s.cw, link))
  {
    hide Reaches, Notified, MetaSent, Saved, ResponseFailed;
    NotifiedKeeps(s.bc, AllData, link.notified);
    t := NotifyAllIsSteps(s0, s, link.notified);
    t := MetaIsSteps(s0, t, link);
    if Replies(s.cw, link) {
      t := SaveIsSteps(s0, t);
    } else if Asks(s.cw) {
      t := ResponseErrorIsSteps(s0, t, RUNTIME_EXCEPTION);
    }
  }

  lemma NotifiedKeeps(b: Controller, f: ControllerFrame, ok: bool)
    ensures Notified(b, f, ok).owner == b.owner && Notified(b, f, ok).complete == b.complete
  {
  }

  lemma DealtKeeps(s: Session, d: seq<Byte>, link: Link)
    ensures var u := Dealt(s, d, link);
            && u.th == s.th && u.bc.owner == s.bc.owner && u.cw.gate == s.cw.gate && u.rc == s.rc.(resp := u.rc.resp)
            && (s.rc.resp.Exact() ==> u.rc.resp.Exact())
  {
  }

  /** The read that ends a response that is recorded: its bytes are dealt with like any others, then the
      controller is notified, the record described and the result reported. */
  lemma EofIsSteps(s: Session, d: seq<Byte>, link: Link) returns (t: Session)
    requires s.th.h == InBody(Reading) && !s.rc.cached && s.th.l.Select? && s.rc.resp.Exact()
    requires s.bc.owner.None? && s.cw.gate.owner.None?
    ensures Reaches(TheHandler, s, t) && t.th == s.th.(h := InClose(BodyDone))
    ensures var last := Dealt(s, d, link);
            && t.rc.resp == last.rc.resp && t.rc.meta == s.rc.meta[RESPONSE := last.rc.resp.Meta()]
            && t.cw == MetaSent(last.cw, t.rc.meta, link.metaSent, link.replied)
            && (t.bc, t.rc.log) == AfterMeta(Notified(last.bc, AllData, link.notified), s.rc.log, last.rc.resp.hashed,
                                             Asks(last.cw), Replies(last.cw, link))
  {
    hide Reaches, Notified, MetaSent, AfterMeta, Dealt, Asks, Replies;
    DealtKeeps(s, d, link);
    t := ReadIsSteps(s, Chunk(d, Eof), link);
    t := DescribeIsSteps(s, t, link);
  }

  /** The read that ends a response from the cache: the log's size, the report, and the cancel. */
  lemma CachedEofIsSteps(s: Session, d: seq<Byte>, link: Link) returns (t: Session)
    requires s.th.h == InBody(Reading) && s.rc.cached && s.th.l.Select?
    requires s.bc.owner.None? && s.cw.open && s.cw.gate.owner.None?
    ensures Reaches(TheHandler, s, t) && t.th == s.th.(h := InClose(BodyDone))
    ensures t.rc == s.rc.(log := s.rc.log.(size := s.rc.resp.size))
    ensures t.bc == Saved(s.bc, t.rc.log) && t.cw == Canceled(s.cw, Handler, link.sent)
  {
    hide Reaches, HandlerStep, Saved, Canceled;
    t := ReadIsSteps(s, Chunk(d, Eof), link);
    t := SaveIsSteps(s, t);
    t := CancelCallIsSteps(s, t, ToBodyDone, link.sent);
  }
}
