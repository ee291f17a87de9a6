/** The content writer's side of a session: one terminal frame per stream, and a Meta frame that
    describes exactly the bytes transmitted before it. */
module WriterProtocol {
  import opened Frames
  import opened Session
  import E = Effects

  // ---------- what the program counters mean to the content writer's stream ----------

  /** Whether a thread has claimed the stream: about to send its Meta or Cancel frame, or about to close. */
  datatype Stage = Idle | Sends | Closes

  function CancelStage(at: CancelPc): Stage {
    if at.CSend? then Sends else if at.CClose? then Closes else Idle
  }

  function StageOf(h: HandlerPc): Stage {
    match h
    case InMeta(pc) => if pc.MetaSend? then Sends else if pc.MetaClose? then Closes else Idle
    case InClose(pc) => if pc.Cancelling? then CancelStage(pc.at) else Idle
    case _ => Idle
  }

  function ReceiverStage(r: ReceiverPc): Stage {
    if r.RCancelling? then CancelStage(r.at) else Idle
  }

  /** How far the record of a body is: not begun, with bytes hashed but not yet offered to the stream, or all offered. */
  datatype Progress = NotBegun | Offering(data: seq<Byte>) | Offered

  function RequestProgress(h: HandlerPc): Progress {
    match h
    case InRegister(_) => NotBegun
    case InRequest(pc) => if pc.Filtering? then NotBegun else Offering(pc.prolog)
    case _ => Offered
  }

  function ResponseProgress(h: HandlerPc): Progress {
    match h
    case InRegister(_) => NotBegun
    case InRequest(_) => NotBegun
    case InResponse(pc) => if pc.RoundTrip? then NotBegun else Offering(pc.prolog)
    case InBody(pc) => if pc.Forward? || pc.ForwardSend? then Offering(pc.chunk.data) else Offered
    case _ => Offered
  }

  /** Where the handler is with respect to SendMeta; `drained` says that the request body was at EOF when it began. */
  datatype MetaStage = TooEarly | Ahead | Ready(drained: bool) | Awaiting | Past

  function MetaStageOf(h: HandlerPc): MetaStage {
    match h
    case InRegister(_) => TooEarly
    case InRequest(pc) => if pc.Filtering? then TooEarly else Ahead
    case InResponse(_) => Ahead
    case InBody(_) => Ahead
    case InMeta(pc) => if pc.MetaLock? || pc.MetaSend? then Ready(pc.drained) else if pc.MetaClose? then Awaiting else Ahead
    case _ => Past
  }

  // ---------- the invariant ----------

  /** Who holds `c.m` is determined by the program counters. */
  ghost predicate Lock(h: Stage, r: Stage, d: DisconnectPc, owner: Option<Thread>) {
    && (owner == Some(Handler) <==> !h.Idle?)
    && (owner == Some(Receiver) <==> !r.Idle?)
    && (owner == Some(Disconnect) <==> d.DSend? || d.DClose? || d.DFree?)
    && owner != Some(Loop)
  }

  ghost predicate OneTerminal(h: Stage, r: Stage, d: DisconnectPc, g: Gate, st: Stream<WriterFrame>, ctxDone: bool) {
    var sending := h.Sends? || r.Sends? || d.DSend?;
    var closing := h.Closes? || r.Closes? || d.DClose?;
    && Terminals(st.wire) <= g.tries <= 1
    && (!g.done ==> g.tries == 0)
    && (st.closed ==> g.tries == 1)
    && (ctxDone ==> g.tries == 1 && !st.Live())
    && (sending ==> g.done && g.tries == 0)
    && (closing ==> g.done && g.tries == 1)
    && (d.DFree? ==> g.done)
    && (g.done && !sending && !closing ==> g.tries == 1 && !st.Live())
    && (!st.broken ==> Terminals(st.wire) == g.tries)
  }

  /** An acknowledgement follows a Meta frame on a stream that is then closed. */
  ghost predicate Acknowledged(awaiting: bool, st: Stream<WriterFrame>, acked: bool) {
    && (awaiting ==> HasMeta(st.wire))
    && (acked ==> st.closed && HasMeta(st.wire))
  }

  function PendingReq(p: Progress, t: TransportPc): seq<Byte> {
    if p.Offering? then p.data else if t.TForward? || t.TForwardSend? then t.chunk.data else []
  }

  function PendingResp(p: Progress): seq<Byte> {
    if p.Offering? then p.data else []
  }

  ghost predicate RequestRecord(p: Progress, t: TransportPc, st: Stream<WriterFrame>, canceled: bool,
                                req: Recording, meta: map<nat, RecordMeta>, lost: bool)
  {
    && req.Exact()
    && (lost ==> canceled || !st.Live())
    && (!lost ==> Sent(st.wire, REQUEST) + PendingReq(p, t) == req.hashed)
    && (!p.Offered? ==> t.TOff?)
    && (p.NotBegun? ==> req.hashed == [])
    && (t.TEof? ==> REQUEST in meta && meta[REQUEST] == req.Meta())
  }

  ghost predicate ResponseRecord(p: Progress, st: Stream<WriterFrame>, canceled: bool, resp: Recording,
                                 cached: bool, prologLen: nat, lost: bool)
  {
    && resp.Exact()
    && (lost ==> canceled || !st.Live())
    && (!lost && !cached ==> Sent(st.wire, RESPONSE) + PendingResp(p) == resp.hashed)
    && (p.NotBegun? ==> resp.hashed == [] && !lost && !cached && OnlyRequest(st.wire))
    && (cached ==> p.Offered? && OnlyRequest(st.wire) && resp.size == prologLen)
  }

  /** A cached session reads its body without notifying, recording or sending Meta. */
  predicate CachedPc(h: HandlerPc, cached: bool) {
    cached ==> !h.InMeta? && (h.InBody? ==> h.body.Reading?)
  }

  ghost predicate MetaKeys(m: MetaStage, meta: map<nat, RecordMeta>) {
    && meta.Keys <= {REQUEST, RESPONSE}
    && (m.Ahead? || m.Ready? ==> REQUEST in meta)
    && (m.Ready? ==> RESPONSE in meta)
  }

  /** SendMeta found the stream neither cancelled then nor dead, so nothing of the response was lost. */
  ghost predicate MetaReady(m: MetaStage, t: TransportPc, live: bool, meta: map<nat, RecordMeta>,
                            resp: Recording, lostReq: bool, lostResp: bool)
  {
    m.Ready? ==>
      && RESPONSE in meta && meta[RESPONSE] == resp.Meta()
      && (lostResp ==> !live)
      && (m.drained ==> t.TEof? && (lostReq ==> !live))
  }

  /** Meta frames are faithful, and what they describe stays all that is transmitted for the record. */
  ghost predicate MetaFaithful(m: MetaStage, t: TransportPc, w: seq<WriterFrame>,
                               req: seq<Byte>, resp: seq<Byte>, drained: bool)
  {
    && Faithful(w, drained)
    && (HasMeta(w) ==>
          && (m.Awaiting? || m.Past?)
          && Sent(w, RESPONSE) == resp
          && (drained ==> t.TEof? && Sent(w, REQUEST) == req))
  }

  ghost predicate Inv(s: Session) {
    && Lock(StageOf(s.th.h), ReceiverStage(s.th.r), s.th.d, s.cw.gate.owner)
    && OneTerminal(StageOf(s.th.h), ReceiverStage(s.th.r), s.th.d, s.cw.gate, s.cw.stream, s.cw.ctxDone)
    && Acknowledged(MetaStageOf(s.th.h).Awaiting?, s.cw.stream, s.cw.acked)
    && RequestRecord(RequestProgress(s.th.h), s.th.t, s.cw.stream, s.cw.canceled, s.rc.req, s.rc.meta, s.hist.lostReq)
    && ResponseRecord(ResponseProgress(s.th.h), s.cw.stream, s.cw.canceled, s.rc.resp, s.rc.cached,
                      s.hist.prologLen, s.hist.lostResp)
    && CachedPc(s.th.h, s.rc.cached)
    && MetaKeys(MetaStageOf(s.th.h), s.rc.meta)
    && MetaReady(MetaStageOf(s.th.h), s.th.t, s.cw.stream.Live(), s.rc.meta, s.rc.resp, s.hist.lostReq, s.hist.lostResp)
    && MetaFaithful(MetaStageOf(s.th.h), s.th.t, s.cw.stream.wire, s.rc.req.hashed, s.rc.resp.hashed, s.hist.metaDrained)
  }

  // ---------- what a change of the stream leaves alone ----------

  lemma OfferKeepsTurn(h: Stage, r: Stage, d: DisconnectPc, g: Gate, st: Stream<WriterFrame>, ctxDone: bool,
                       awaiting: bool, acked: bool, f: WriterFrame, ok: bool)
    requires OneTerminal(h, r, d, g, st, ctxDone) && Acknowledged(awaiting, st, acked) && !IsTerminal(f)
    ensures OneTerminal(h, r, d, g, st.Send(f, ok), ctxDone) && Acknowledged(awaiting, st.Send(f, ok), acked)
  {
    hide Terminals, HasMeta;
    Appended(st.wire, f, false);
  }

  function NextStage(next: Option<CancelPc>): Stage {
    if next.Some? then CancelStage(next.value) else Idle
  }

  /** After a thread's step through a critical section, the turn is kept and the stream no more alive. */
  ghost predicate TurnAfter(h: Stage, r: Stage, d: DisconnectPc, w: Writer, w': Writer, awaiting: bool) {
    && Lock(h, r, d, w'.gate.owner) && OneTerminal(h, r, d, w'.gate, w'.stream, w'.ctxDone)
    && Acknowledged(awaiting, w'.stream, w'.acked)
    && (w.canceled ==> w'.canceled) && (w'.stream.Live() ==> w.stream.Live())
    && (w'.stream.wire == w.stream.wire || w'.stream.wire == w.stream.wire + [Cancel])
  }

  function StageAfter(me: Thread, whose: Thread, stage: Stage, next: Option<CancelPc>): Stage {
    if me == whose then NextStage(next) else stage
  }

  lemma CancelKeepsTurn(h: Stage, r: Stage, d: DisconnectPc, w: Writer, at: CancelPc, me: Thread, ok: bool, awaiting: bool)
    requires (me.Handler? && h == CancelStage(at) && !awaiting) || (me.Receiver? && r == CancelStage(at))
    requires Lock(h, r, d, w.gate.owner) && OneTerminal(h, r, d, w.gate, w.stream, w.ctxDone)
    requires Acknowledged(awaiting, w.stream, w.acked)
    ensures var (w', next) := CancelStep(w, at, me, ok);
            TurnAfter(StageAfter(me, Handler, h, next), StageAfter(me, Receiver, r, next), d, w, w', awaiting)
  {
    hide CancelStep, TurnAfter;
    if at.CSend? { CancelSendKeepsTurn(h, r, d, w, me, ok, awaiting); } else { CancelMovesTurn(h, r, d, w, at, me, ok, awaiting); }
  }

  lemma CancelSendKeepsTurn(h: Stage, r: Stage, d: DisconnectPc, w: Writer, me: Thread, ok: bool, awaiting: bool)
    requires (me.Handler? && h == Sends && !awaiting) || (me.Receiver? && r == Sends)
    requires Lock(h, r, d, w.gate.owner) && OneTerminal(h, r, d, w.gate, w.stream, w.ctxDone)
    requires Acknowledged(awaiting, w.stream, w.acked)
    ensures var (w', next) := CancelStep(w, CSend, me, ok);
            TurnAfter(StageAfter(me, Handler, h, next), StageAfter(me, Receiver, r, next), d, w, w', awaiting)
  {
    hide Terminals, HasMeta, Faithful, OnlyRequest, Frames.Sent;
    Appended(w.stream.wire, Cancel, false);
  }

  lemma CancelMovesTurn(h: Stage, r: Stage, d: DisconnectPc, w: Writer, at: CancelPc, me: Thread, ok: bool, awaiting: bool)
    requires !at.CSend? && ((me.Handler? && h == CancelStage(at) && !awaiting) || (me.Receiver? && r == CancelStage(at)))
    requires Lock(h, r, d, w.gate.owner) && OneTerminal(h, r, d, w.gate, w.stream, w.ctxDone)
    requires Acknowledged(awaiting, w.stream, w.acked)
    ensures var (w', next) := CancelStep(w, at, me, ok);
            TurnAfter(StageAfter(me, Handler, h, next), StageAfter(me, Receiver, r, next), d, w, w', awaiting)
  {
    hide Terminals, HasMeta;
  }

  lemma WatchKeepsTurn(h: Stage, r: Stage, d: DisconnectPc, w: Writer, ok: bool, awaiting: bool)
    requires Lock(h, r, d, w.gate.owner) && OneTerminal(h, r, d, w.gate, w.stream, w.ctxDone)
    requires Acknowledged(awaiting, w.stream, w.acked)
    ensures var (w', d') := WatchStep(w, d, ok); TurnAfter(h, r, d', w, w', awaiting) && w'.canceled == w.canceled
  {
    hide WatchStep, TurnAfter;
    if d.DSend? { WatchSendKeepsTurn(h, r, w, ok, awaiting); } else { WatchMovesTurn(h, r, d, w, ok, awaiting); }
  }

  lemma WatchSendKeepsTurn(h: Stage, r: Stage, w: Writer, ok: bool, awaiting: bool)
    requires Lock(h, r, DSend, w.gate.owner) && OneTerminal(h, r, DSend, w.gate, w.stream, w.ctxDone)
    requires Acknowledged(awaiting, w.stream, w.acked)
    ensures var (w', d') := WatchStep(w, DSend, ok); TurnAfter(h, r, d', w, w', awaiting) && w'.canceled == w.canceled
  {
    hide Terminals, HasMeta, Faithful, OnlyRequest, Frames.Sent;
    Appended(w.stream.wire, Cancel, false);
  }

  lemma WatchMovesTurn(h: Stage, r: Stage, d: DisconnectPc, w: Writer, ok: bool, awaiting: bool)
    requires !d.DSend? && Lock(h, r, d, w.gate.owner) && OneTerminal(h, r, d, w.gate, w.stream, w.ctxDone)
    requires Acknowledged(awaiting, w.stream, w.acked)
    ensures var (w', d') := WatchStep(w, d, ok); TurnAfter(h, r, d', w, w', awaiting) && w'.canceled == w.canceled
  {
    hide Terminals, HasMeta;
  }

  /** The stream may die and may carry frames of other records. */
  lemma RequestKept(p: Progress, t: TransportPc, st: Stream<WriterFrame>, st': Stream<WriterFrame>,
                    canceled: bool, canceled': bool, req: Recording, meta: map<nat, RecordMeta>, lost: bool)
    requires RequestRecord(p, t, st, canceled, req, meta, lost)
    requires Sent(st'.wire, REQUEST) == Sent(st.wire, REQUEST)
    requires canceled || !st.Live() ==> canceled' || !st'.Live()
    ensures RequestRecord(p, t, st', canceled', req, meta, lost)
  {
  }

  /** Reading a chunk of the request body, and having it transmitted or lost. */
  lemma RequestRead(st: Stream<WriterFrame>, canceled: bool, req: Recording, meta: map<nat, RecordMeta>, lost: bool, c: Chunk)
    requires RequestRecord(Offered, TReading, st, canceled, req, meta, lost)
    ensures RequestRecord(Offered, TForward(c), st, canceled, req.Absorb(c.data), meta, lost)
    ensures RequestRecord(Offered, TFill, st, canceled, req, meta, lost)
  {
    var sent := Sent(st.wire, REQUEST);
    assert sent + [] == sent;
  }

  lemma RequestTransmitted(st: Stream<WriterFrame>, canceled: bool, req: Recording, meta: map<nat, RecordMeta>,
                           lost: bool, c: Chunk, ok: bool, t: TransportPc)
    requires RequestRecord(Offered, TForwardSend(c), st, canceled, req, meta, lost)
    requires t.TReading? || t.TFill?
    ensures RequestRecord(Offered, t, st.Send(Payload(REQUEST, c.data), ok), canceled, req, meta,
                          lost || !(st.Live() && ok))
  {
    hide Frames.Sent;
    Appended(st.wire, Payload(REQUEST, c.data), false);
    var all := Sent(st.wire, REQUEST) + c.data;
    assert all + [] == all;
  }

  /** While nothing is recorded, leaving the registration changes nothing. */
  lemma NothingRecorded(t: TransportPc, st: Stream<WriterFrame>, canceled: bool, req: Recording, resp: Recording,
                        meta: map<nat, RecordMeta>, cached: bool, prologLen: nat, lostReq: bool, lostResp: bool)
    requires RequestRecord(NotBegun, t, st, canceled, req, meta, lostReq)
    requires ResponseRecord(NotBegun, st, canceled, resp, cached, prologLen, lostResp)
    ensures RequestRecord(Offered, t, st, canceled, req, meta, lostReq)
    ensures ResponseRecord(Offered, st, canceled, resp, cached, prologLen, lostResp)
    ensures !cached
  {
  }

  lemma ResponseTransmitted(st: Stream<WriterFrame>, canceled: bool, resp: Recording, prologLen: nat, lost: bool,
                            f: WriterFrame, ok: bool)
    requires (f.Header? || f.Payload?) && f.rec == RESPONSE
    requires ResponseRecord(Offering(f.data), st, canceled, resp, false, prologLen, lost)
    ensures ResponseRecord(Offered, st.Send(f, ok), canceled, resp, false, prologLen, lost || !(st.Live() && ok))
  {
    hide Frames.Sent;
    Appended(st.wire, f, false);
    var all := Sent(st.wire, RESPONSE) + f.data;
    assert all + [] == all;
  }

  lemma ResponseKept(p: Progress, st: Stream<WriterFrame>, st': Stream<WriterFrame>, canceled: bool, canceled': bool,
                     resp: Recording, cached: bool, prologLen: nat, lost: bool)
    requires ResponseRecord(p, st, canceled, resp, cached, prologLen, lost)
    requires Sent(st'.wire, RESPONSE) == Sent(st.wire, RESPONSE)
    requires OnlyRequest(st.wire) ==> OnlyRequest(st'.wire)
    requires canceled || !st.Live() ==> canceled' || !st'.Live()
    ensures ResponseRecord(p, st', canceled', resp, cached, prologLen, lost)
  {
  }

  /** A frame of the request, while its body is not at EOF, is none that a Meta frame speaks of. */
  lemma RequestFrameKeepsFaith(m: MetaStage, t: TransportPc, t': TransportPc, st: Stream<WriterFrame>, f: WriterFrame,
                               ok: bool, req: seq<Byte>, resp: seq<Byte>, drained: bool)
    requires MetaFaithful(m, t, st.wire, req, resp, drained) && !t.TEof?
    requires (f.Header? || f.Payload?) && f.rec == REQUEST
    ensures MetaFaithful(m, t', st.Send(f, ok).wire, req, resp, drained)
  {
    hide Frames.Sent, HasMeta, Faithful;
    Appended(st.wire, f, drained);
    assert Sent(st.wire, RESPONSE) + [] == Sent(st.wire, RESPONSE);
  }

  /** Before SendMeta has sent its frame there is none to be faithful. */
  lemma EarlyFrameKeepsFaith(m: MetaStage, m': MetaStage, t: TransportPc, t': TransportPc, st: Stream<WriterFrame>,
                             f: WriterFrame, ok: bool, req: seq<Byte>, resp: seq<Byte>, drained: bool)
    requires MetaFaithful(m, t, st.wire, req, resp, drained) && !m.Awaiting? && !m.Past?
    requires f.Header? || f.Payload?
    ensures MetaFaithful(m', t', st.Send(f, ok).wire, req, resp, drained)
  {
    hide Frames.Sent, HasMeta, Faithful;
    Appended(st.wire, f, drained);
  }

  /** The request's protocol header, transmitted or lost. */
  lemma HeaderTransmitted(st: Stream<WriterFrame>, canceled: bool, req: Recording, meta: map<nat, RecordMeta>, lost: bool,
                          f: WriterFrame, ok: bool, t: TransportPc)
    requires f.Header? && f.rec == REQUEST && (t.TReading? || t.TOff?)
    requires RequestRecord(Offering(f.data), TOff, st, canceled, req, meta, lost)
    ensures RequestRecord(Offered, t, st.Send(f, ok), canceled, req, meta, lost || !(st.Live() && ok))
  {
    hide Frames.Sent;
    Appended(st.wire, f, false);
    var all := Sent(st.wire, REQUEST) + f.data;
    assert all + [] == all;
  }

  ghost predicate Records(s: Session) {
    && RequestRecord(RequestProgress(s.th.h), s.th.t, s.cw.stream, s.cw.canceled, s.rc.req, s.rc.meta, s.hist.lostReq)
    && ResponseRecord(ResponseProgress(s.th.h), s.cw.stream, s.cw.canceled, s.rc.resp, s.rc.cached,
                      s.hist.prologLen, s.hist.lostResp)
    && MetaKeys(MetaStageOf(s.th.h), s.rc.meta)
    && MetaReady(MetaStageOf(s.th.h), s.th.t, s.cw.stream.Live(), s.rc.meta, s.rc.resp, s.hist.lostReq, s.hist.lostResp)
    && MetaFaithful(MetaStageOf(s.th.h), s.th.t, s.cw.stream.wire, s.rc.req.hashed, s.rc.resp.hashed, s.hist.metaDrained)
  }

  /** What cancelling does to the stream, to `canceled` and to `c.m` leaves the records as they are. */
  lemma CancelKeepsRecords(s: Session, w: Writer)
    requires Records(s)
    requires s.cw.canceled ==> w.canceled
    requires w.stream.Live() ==> s.cw.stream.Live()
    requires w.stream.wire == s.cw.stream.wire || w.stream.wire == s.cw.stream.wire + [Cancel]
    ensures Records(WithCw(s, w))
  {
    hide Frames.Sent, Terminals, HasMeta, OnlyRequest, Faithful, Describes, RequestRecord, ResponseRecord;
    Appended(s.cw.stream.wire, Cancel, s.hist.metaDrained);
    RequestKept(RequestProgress(s.th.h), s.th.t, s.cw.stream, w.stream, s.cw.canceled, w.canceled,
                s.rc.req, s.rc.meta, s.hist.lostReq);
    ResponseKept(ResponseProgress(s.th.h), s.cw.stream, w.stream, s.cw.canceled, w.canceled,
                 s.rc.resp, s.rc.cached, s.hist.prologLen, s.hist.lostResp);
  }

  /** Program points outside the recording of bodies and outside the stream's critical sections. */
  predicate Outside(h: HandlerPc) {
    h.InReport? || h.InFail? || (h.InClose? && (h.close.Cancelling? ==> h.close.at.CStart? || h.close.at.CLock?))
  }

  lemma OutsideMeans(h: HandlerPc)
    requires Outside(h)
    ensures StageOf(h) == Idle && RequestProgress(h) == Offered && ResponseProgress(h) == Offered
    ensures MetaStageOf(h) == Past && forall cached :: CachedPc(h, cached)
  {
  }

  lemma ForwardMeans(pc: BodyPc)
    requires pc.Forward? || pc.ForwardSend?
    ensures var h := InBody(pc);
            StageOf(h) == Idle && RequestProgress(h) == Offered && ResponseProgress(h) == Offering(pc.chunk.data)
            && MetaStageOf(h) == Ahead
  {
  }

  lemma AfterChunkMeans(u: Session, res: ReadResult)
    ensures var t := AfterChunk(u, res);
            && t.cw == u.cw && t.hist == u.hist && t.rc == u.rc.(log := t.rc.log)
            && t.th == u.th.(h := t.th.h)
            && StageOf(t.th.h) == Idle && RequestProgress(t.th.h) == Offered && ResponseProgress(t.th.h) == Offered
            && (MetaStageOf(t.th.h) == Ahead || MetaStageOf(t.th.h) == Past) && CachedPc(t.th.h, t.rc.cached)
  {
  }

  // ---------- every step keeps it ----------

  lemma ByRegister(s: Session, pc: RegisterPc, e: Env)
    requires Inv(s) && s.th.h == InRegister(pc)
    ensures Inv(RegisterStep(s, pc, e))
  {
    hide Lock, OneTerminal, Acknowledged, RequestRecord, ResponseRecord, MetaKeys, MetaReady, MetaFaithful;
    Registered(s);
  }

  lemma ByFiltering(s: Session, pc: RequestPc, e: Env)
    requires Inv(s) && s.th.h == InRequest(pc) && pc.Filtering?
    ensures Inv(RequestStep(s, pc, e))
  {
    hide Frames.Sent, Terminals, HasMeta, OnlyRequest, Faithful, Lock, OneTerminal;
  }

  lemma ByReqHeader(s: Session, pc: RequestPc, e: Env)
    requires Inv(s) && s.th.h == InRequest(pc) && pc.ReqHeader?
    ensures Inv(RequestStep(s, pc, e))
  {
    hide Frames.Sent, Terminals, HasMeta, OnlyRequest, Faithful, Lock, OneTerminal, Acknowledged;
  }

  lemma ReqHeaderMeans(s: Session, pc: RequestPc, e: Env)
    requires s.th.h == InRequest(pc) && pc.ReqHeaderSend?
    ensures var t := RequestStep(s, pc, e);
            var sent := s.cw.stream.Live() && e.ok;
            && t.th == s.th.(h := if sent then InResponse(RoundTrip) else InFail(RUNTIME_EXCEPTION, Fail),
                             t := if sent then TReading else s.th.t)
            && t.cw == s.cw.(stream := s.cw.stream.Send(Header(REQUEST, pc.prolog), e.ok)) && t.rc == s.rc && t.bc == s.bc
            && t.hist == s.hist.(lostReq := s.hist.lostReq || !sent)
    ensures StageOf(s.th.h) == Idle && RequestProgress(s.th.h) == Offering(pc.prolog)
    ensures ResponseProgress(s.th.h) == NotBegun && MetaStageOf(s.th.h) == Ahead
  {
  }

  lemma AfterReqHeaderMeans(h: HandlerPc)
    requires h == InResponse(RoundTrip) || h.InFail?
    ensures StageOf(h) == Idle && RequestProgress(h) == Offered && (ResponseProgress(h) == NotBegun || ResponseProgress(h) == Offered)
    ensures (MetaStageOf(h) == Ahead || MetaStageOf(h) == Past) && forall cached :: CachedPc(h, cached)
  {
  }

  lemma NoResponseYet(st: Stream<WriterFrame>, canceled: bool, resp: Recording, cached: bool, prologLen: nat, lost: bool)
    requires ResponseRecord(NotBegun, st, canceled, resp, cached, prologLen, lost)
    ensures ResponseRecord(Offered, st, canceled, resp, cached, prologLen, lost)
  {
  }

  lemma ByReqHeaderSend(s: Session, pc: RequestPc, e: Env)
    requires Inv(s) && s.th.h == InRequest(pc) && pc.ReqHeaderSend?
    ensures Inv(RequestStep(s, pc, e))
  {
    hide RequestStep, StageOf, RequestProgress, ResponseProgress, MetaStageOf, CachedPc, Frames.Sent, Terminals,
         HasMeta, OnlyRequest, Faithful, Lock, OneTerminal, Acknowledged, RequestRecord, ResponseRecord, MetaFaithful;
    var f := Header(REQUEST, pc.prolog);
    ReqHeaderMeans(s, pc, e);
    AfterReqHeaderMeans(RequestStep(s, pc, e).th.h);
    assert s.th.t.TOff? by { NotStarted(s); }
    Appended(s.cw.stream.wire, f, s.hist.metaDrained);
    OfferKeepsTurn(StageOf(s.th.h), ReceiverStage(s.th.r), s.th.d, s.cw.gate, s.cw.stream, s.cw.ctxDone,
                   MetaStageOf(s.th.h).Awaiting?, s.cw.acked, f, e.ok);
    HeaderTransmitted(s.cw.stream, s.cw.canceled, s.rc.req, s.rc.meta, s.hist.lostReq, f, e.ok, RequestStep(s, pc, e).th.t);
    ResponseKept(NotBegun, s.cw.stream, s.cw.stream.Send(f, e.ok), s.cw.canceled, s.cw.canceled,
                 s.rc.resp, s.rc.cached, s.hist.prologLen, s.hist.lostResp);
    NoResponseYet(s.cw.stream.Send(f, e.ok), s.cw.canceled, s.rc.resp, s.rc.cached, s.hist.prologLen, s.hist.lostResp);
    EarlyFrameKeepsFaith(Ahead, MetaStageOf(RequestStep(s, pc, e).th.h), s.th.t, RequestStep(s, pc, e).th.t, s.cw.stream, f, e.ok,
                         s.rc.req.hashed, s.rc.resp.hashed, s.hist.metaDrained);
  }

  lemma NotStarted(s: Session)
    requires Inv(s) && !RequestProgress(s.th.h).Offered?
    ensures s.th.t.TOff?
  {
    hide Frames.Sent;
  }

  lemma RoundTripMeans(s: Session, e: Env)
    requires s.th.h == InResponse(RoundTrip)
    ensures var t := ResponseStep(s, RoundTrip, e);
            && t.cw == s.cw && t.th == s.th.(h := t.th.h) && t.hist == s.hist.(prologLen := t.hist.prologLen)
            && if t.th.h.InFail? || t.th.h.InClose? then t.rc == s.rc && t.hist == s.hist && Outside(t.th.h)
               else
                 && t.rc == s.rc.(cached := e.flag, log := t.rc.log, meta := s.rc.meta[RESPONSE := RecordMeta(0, Unset)],
                                  resp := s.rc.resp.Absorb(e.data))
                 && t.hist.prologLen == |e.data|
                 && t.th.h == if e.flag then InBody(Reading) else InResponse(RespHeader(e.data))
  {
  }

  lemma ByResponse(s: Session, pc: ResponsePc, e: Env)
    requires Inv(s) && s.th.h == InResponse(pc) && pc.RoundTrip?
    ensures Inv(ResponseStep(s, pc, e))
  {
    hide ResponseStep, Frames.Sent, Terminals, HasMeta, OnlyRequest, Faithful, Lock, OneTerminal, Acknowledged;
    RoundTripMeans(s, e);
  }

  lemma ByRespHeader(s: Session, pc: ResponsePc, e: Env)
    requires Inv(s) && s.th.h == InResponse(pc) && pc.RespHeader?
    ensures Inv(ResponseStep(s, pc, e))
  {
    hide Frames.Sent, Terminals, HasMeta, OnlyRequest, Faithful, Lock, OneTerminal, RequestRecord;
  }

  lemma Uncached(s: Session)
    requires Inv(s) && ResponseProgress(s.th.h).Offering?
    ensures !s.rc.cached
  {
    hide Frames.Sent;
  }

  lemma RespHeaderMeans(s: Session, pc: ResponsePc, e: Env)
    requires s.th.h == InResponse(pc) && pc.RespHeaderSend?
    ensures var t := ResponseStep(s, pc, e);
            var sent := s.cw.stream.Live() && e.ok;
            && t.th == s.th.(h := if sent then InBody(Reading) else InFail(RUNTIME_EXCEPTION, Fail))
            && t.cw == s.cw.(stream := s.cw.stream.Send(Header(RESPONSE, pc.prolog), e.ok)) && t.rc == s.rc && t.bc == s.bc
            && t.hist == s.hist.(lostResp := s.hist.lostResp || !sent)
    ensures StageOf(s.th.h) == Idle && RequestProgress(s.th.h) == Offered
    ensures ResponseProgress(s.th.h) == Offering(pc.prolog) && MetaStageOf(s.th.h) == Ahead
  {
  }

  lemma AfterHeaderMeans(h: HandlerPc)
    requires h == InBody(Reading) || h.InFail?
    ensures StageOf(h) == Idle && RequestProgress(h) == Offered && ResponseProgress(h) == Offered
    ensures (MetaStageOf(h) == Ahead || MetaStageOf(h) == Past) && forall cached :: CachedPc(h, cached)
  {
  }

  lemma ByRespHeaderSend(s: Session, pc: ResponsePc, e: Env)
    requires Inv(s) && s.th.h == InResponse(pc) && pc.RespHeaderSend?
    ensures Inv(ResponseStep(s, pc, e))
  {
    hide ResponseStep, StageOf, RequestProgress, ResponseProgress, MetaStageOf, CachedPc, Frames.Sent, Terminals,
         HasMeta, OnlyRequest, Faithful, Describes, Lock, OneTerminal, Acknowledged, RequestRecord, ResponseRecord,
         MetaFaithful;
    var f := Header(RESPONSE, pc.prolog);
    RespHeaderMeans(s, pc, e);
    AfterHeaderMeans(ResponseStep(s, pc, e).th.h);
    Appended(s.cw.stream.wire, f, s.hist.metaDrained);
    OfferKeepsTurn(StageOf(s.th.h), ReceiverStage(s.th.r), s.th.d, s.cw.gate, s.cw.stream, s.cw.ctxDone,
                   MetaStageOf(s.th.h).Awaiting?, s.cw.acked, f, e.ok);
    RequestKept(RequestProgress(s.th.h), s.th.t, s.cw.stream, s.cw.stream.Send(f, e.ok), s.cw.canceled, s.cw.canceled,
                s.rc.req, s.rc.meta, s.hist.lostReq);
    Uncached(s);
    ResponseTransmitted(s.cw.stream, s.cw.canceled, s.rc.resp, s.hist.prologLen, s.hist.lostResp, f, e.ok);
    EarlyFrameKeepsFaith(Ahead, MetaStageOf(ResponseStep(s, pc, e).th.h), s.th.t, s.th.t, s.cw.stream, f, e.ok,
                         s.rc.req.hashed, s.rc.resp.hashed, s.hist.metaDrained);
  }

  lemma ByBody(s: Session, pc: BodyPc, e: Env)
    requires Inv(s) && s.th.h == InBody(pc) && pc.Reading?
    ensures Inv(BodyStep(s, pc, e))
  {
    hide AfterChunk, Frames.Sent, Terminals, HasMeta, OnlyRequest, Faithful, Lock, OneTerminal, RequestRecord;
    AfterChunkMeans(s, e.res);
  }

  lemma NotifyMeans(s: Session, pc: BodyPc, e: Env)
    requires s.th.h == InBody(pc) && (pc.Notify? || pc.NotifySend?)
    ensures var t := BodyStep(s, pc, e);
            && t.cw == s.cw && t.hist == s.hist && t.th == s.th.(h := t.th.h)
            && if t.th.h == InBody(Forward(pc.chunk)) then t.rc == s.rc.(resp := s.rc.resp.Absorb(pc.chunk.data))
               else t.rc == s.rc && (t.th.h == s.th.h || t.th.h == InBody(NotifySend(pc.chunk)))
  {
  }

  lemma ByNotify(s: Session, pc: BodyPc, e: Env)
    requires Inv(s) && s.th.h == InBody(pc) && (pc.Notify? || pc.NotifySend?)
    ensures Inv(BodyStep(s, pc, e))
  {
    hide BodyStep, Frames.Sent, Terminals, HasMeta, OnlyRequest, Faithful, Lock, OneTerminal, RequestRecord;
    NotifyMeans(s, pc, e);
  }

  lemma ByForward(s: Session, pc: BodyPc, e: Env)
    requires Inv(s) && s.th.h == InBody(pc) && pc.Forward?
    ensures Inv(BodyStep(s, pc, e))
  {
    hide AfterChunk, Frames.Sent, Terminals, HasMeta, OnlyRequest, Faithful, Lock, OneTerminal, RequestRecord;
    AfterChunkMeans(LoseResp(s), pc.chunk.res);
  }

  lemma ForwardSendMeans(s: Session, pc: BodyPc, e: Env)
    requires s.th.h == InBody(pc) && pc.ForwardSend?
    ensures var t := BodyStep(s, pc, e);
            var sent := s.cw.stream.Live() && e.ok;
            && t.th == s.th.(h := t.th.h) && t.rc == s.rc.(log := t.rc.log)
            && t.cw == s.cw.(stream := s.cw.stream.Send(Payload(RESPONSE, pc.chunk.data), e.ok))
            && t.hist == s.hist.(lostResp := s.hist.lostResp || !sent)
            && StageOf(t.th.h) == Idle && RequestProgress(t.th.h) == Offered && ResponseProgress(t.th.h) == Offered
            && (MetaStageOf(t.th.h) == Ahead || MetaStageOf(t.th.h) == Past) && CachedPc(t.th.h, t.rc.cached)
  {
    hide AfterChunk, StageOf, RequestProgress, ResponseProgress, MetaStageOf, CachedPc;
    var sent := SendW(s, Payload(RESPONSE, pc.chunk.data), e.ok);
    AfterChunkMeans(if s.cw.stream.Live() && e.ok then sent else LoseResp(sent), pc.chunk.res);
  }

  lemma ByForwardSend(s: Session, pc: BodyPc, e: Env)
    requires Inv(s) && s.th.h == InBody(pc) && pc.ForwardSend?
    ensures Inv(BodyStep(s, pc, e))
  {
    hide BodyStep, Frames.Sent, Terminals, HasMeta, OnlyRequest, Faithful, Lock, OneTerminal, Acknowledged,
         RequestRecord, ResponseRecord, MetaFaithful, StageOf, RequestProgress, ResponseProgress, MetaStageOf,
         CachedPc;
    var f := Payload(RESPONSE, pc.chunk.data);
    ForwardSendMeans(s, pc, e);
    ForwardMeans(pc);
    Appended(s.cw.stream.wire, f, s.hist.metaDrained);
    OfferKeepsTurn(StageOf(s.th.h), ReceiverStage(s.th.r), s.th.d, s.cw.gate, s.cw.stream, s.cw.ctxDone,
                   MetaStageOf(s.th.h).Awaiting?, s.cw.acked, f, e.ok);
    RequestKept(RequestProgress(s.th.h), s.th.t, s.cw.stream, s.cw.stream.Send(f, e.ok), s.cw.canceled, s.cw.canceled,
                s.rc.req, s.rc.meta, s.hist.lostReq);
    Uncached(s);
    ResponseTransmitted(s.cw.stream, s.cw.canceled, s.rc.resp, s.hist.prologLen, s.hist.lostResp, f, e.ok);
    EarlyFrameKeepsFaith(Ahead, MetaStageOf(BodyStep(s, pc, e).th.h), s.th.t, s.th.t, s.cw.stream, f, e.ok,
                         s.rc.req.hashed, s.rc.resp.hashed, s.hist.metaDrained);
  }

  lemma NotifyAllMeans(s: Session, pc: MetaPc, e: Env)
    requires s.th.h == InMeta(pc) && (pc.NotifyAll? || pc.NotifyAllSend?)
    ensures var t := MetaStep(s, pc, e);
            && t.cw == s.cw && t.rc == s.rc && t.hist == s.hist && t.th == s.th.(h := t.th.h)
            && t.th.h.InMeta? && (t.th.h.meta.NotifyAll? || t.th.h.meta.NotifyAllSend? || t.th.h.meta.MetaCheck?)
  {
  }

  lemma ByNotifyAll(s: Session, pc: MetaPc, e: Env)
    requires Inv(s) && s.th.h == InMeta(pc) && (pc.NotifyAll? || pc.NotifyAllSend?)
    ensures Inv(MetaStep(s, pc, e))
  {
    hide MetaStep, Lock, OneTerminal, Acknowledged, RequestRecord, ResponseRecord, MetaKeys, MetaReady, MetaFaithful;
    NotifyAllMeans(s, pc, e);
  }

  lemma ByMetaCheck(s: Session, pc: MetaPc, e: Env)
    requires Inv(s) && s.th.h == InMeta(pc) && pc.MetaCheck?
    ensures Inv(MetaStep(s, pc, e))
  {
    hide Frames.Sent, Terminals, HasMeta, OnlyRequest, Faithful, Lock, OneTerminal, Acknowledged;
  }

  lemma ByMetaLock(s: Session, pc: MetaPc, e: Env)
    requires Inv(s) && s.th.h == InMeta(pc) && pc.MetaLock?
    ensures Inv(MetaStep(s, pc, e))
  {
    hide Frames.Sent, Terminals, HasMeta, OnlyRequest, Faithful, RequestRecord, ResponseRecord;
    assert RequestProgress(MetaStep(s, pc, e).th.h) == Offered && ResponseProgress(MetaStep(s, pc, e).th.h) == Offered;
  }

  lemma MetaCloseMeans(s: Session, pc: MetaPc, e: Env)
    requires s.th.h == InMeta(pc) && pc.MetaClose?
    ensures var t := MetaStep(s, pc, e);
            && t.cw == CloseW(s.cw, e.ok) && t.rc == s.rc.(log := t.rc.log) && t.hist == s.hist
            && t.th == s.th.(h := t.th.h) && t.th.h.InReport?
  {
  }

  lemma ByMetaClose(s: Session, pc: MetaPc, e: Env)
    requires Inv(s) && s.th.h == InMeta(pc) && pc.MetaClose?
    ensures Inv(MetaStep(s, pc, e))
  {
    hide MetaStep, Frames.Sent, Terminals, HasMeta, OnlyRequest, Faithful, RequestRecord, ResponseRecord;
    MetaCloseMeans(s, pc, e);
    ClosedRecords(s, CloseW(s.cw, e.ok));
  }

  /** The records do not mind that the stream is closed. */
  lemma ClosedRecords(s: Session, w: Writer)
    requires Inv(s) && w.stream.wire == s.cw.stream.wire && !w.stream.Live() && w.canceled == s.cw.canceled
    ensures RequestRecord(RequestProgress(s.th.h), s.th.t, w.stream, w.canceled, s.rc.req, s.rc.meta, s.hist.lostReq)
    ensures ResponseRecord(ResponseProgress(s.th.h), w.stream, w.canceled, s.rc.resp, s.rc.cached, s.hist.prologLen,
                           s.hist.lostResp)
  {
    hide Lock, OneTerminal, Acknowledged, MetaKeys, MetaReady, MetaFaithful, Frames.Sent, OnlyRequest;
  }

  lemma MetaSendMeans(s: Session, pc: MetaPc, e: Env)
    requires s.th.h == InMeta(pc) && pc.MetaSend?
    ensures var t := MetaStep(s, pc, e);
            var w := Try(s.cw, Meta(s.rc.meta), e.ok);
            && t.rc == s.rc && t.th == s.th.(h := t.th.h)
            && if s.cw.stream.Live() && e.ok then
                 t.cw == w && t.hist == s.hist.(metaDrained := pc.drained) && t.th.h == InMeta(MetaClose)
               else t.cw == LeaveW(w) && t.hist == s.hist && t.th.h == InReport(ForResponseError(RUNTIME_EXCEPTION), Report)
  {
  }

  lemma ByMetaSend(s: Session, pc: MetaPc, e: Env)
    requires Inv(s) && s.th.h == InMeta(pc) && pc.MetaSend?
    ensures Inv(MetaStep(s, pc, e))
  {
    hide MetaStep, Frames.Sent, Terminals, HasMeta, OnlyRequest, Faithful;
    MetaSendMeans(s, pc, e);
    MetaIsTerminal(s.cw.stream.wire);
    NoMetaFaithful(s.cw.stream.wire, pc.drained);
    Appended(s.cw.stream.wire, Meta(s.rc.meta), pc.drained);
    assert forall rec :: Sent(s.cw.stream.wire, rec) + [] == Sent(s.cw.stream.wire, rec);
    assert RESPONSE in s.rc.meta && REQUEST in s.rc.meta ==> s.rc.meta.Keys == {REQUEST, RESPONSE};
  }

  lemma ByReport(s: Session, p: Purpose, pc: ReportPc, e: Env)
    requires Inv(s) && s.th.h == InReport(p, pc)
    ensures Inv(ReportStep(s, p, pc, e))
  {
    hide StageOf, RequestProgress, ResponseProgress, MetaStageOf, CachedPc, Lock, OneTerminal, Acknowledged,
         RequestRecord, ResponseRecord, MetaKeys, MetaReady, MetaFaithful;
    OutsideMeans(s.th.h);
    OutsideMeans(ReportStep(s, p, pc, e).th.h);
  }

  lemma FailMeans(s: Session, c: int, pc: FailPc, e: Env)
    ensures var t := FailStep(s, c, pc, e);
            && t.cw == s.cw && t.rc == s.rc && t.hist == s.hist.(header := t.hist.header)
            && t.th == s.th.(h := t.th.h) && (t.th.h == s.th.h || Outside(t.th.h))
  {
  }

  lemma ByFail(s: Session, c: int, pc: FailPc, e: Env)
    requires Inv(s) && s.th.h == InFail(c, pc)
    ensures Inv(FailStep(s, c, pc, e))
  {
    hide FailStep, StageOf, RequestProgress, ResponseProgress, MetaStageOf, CachedPc, Lock, OneTerminal, Acknowledged,
         RequestRecord, ResponseRecord, MetaKeys, MetaReady, MetaFaithful;
    FailMeans(s, c, pc, e);
    OutsideMeans(s.th.h);
    OutsideMeans(FailStep(s, c, pc, e).th.h);
  }

  lemma ByClose(s: Session, pc: ClosePc, e: Env)
    requires Inv(s) && s.th.h == InClose(pc) && !pc.Cancelling?
    ensures Inv(CloseStep(s, pc, e))
  {
    hide CancelStep, StageOf, RequestProgress, ResponseProgress, MetaStageOf, CachedPc, Lock, OneTerminal,
         Acknowledged, RequestRecord, ResponseRecord, MetaKeys, MetaReady, MetaFaithful;
    OutsideMeans(s.th.h);
    OutsideMeans(CloseStep(s, pc, e).th.h);
  }

  lemma ByCancel(s: Session, pc: ClosePc, e: Env)
    requires Inv(s) && s.th.h == InClose(pc) && pc.Cancelling?
    ensures Inv(CloseStep(s, pc, e))
  {
    hide CancelStep, Lock, OneTerminal, Acknowledged, RequestRecord, ResponseRecord, MetaKeys, MetaReady,
         MetaFaithful;
    CancelKeepsTurn(StageOf(s.th.h), ReceiverStage(s.th.r), s.th.d, s.cw, pc.at, Handler, e.ok, false);
    CancelKeepsRecords(s, CancelStep(s.cw, pc.at, Handler, e.ok).0);
  }

  lemma TReadingMeans(s: Session, e: Env)
    requires s.th.t.TReading?
    ensures var u := TransportStep(s, e);
            && u.cw == s.cw && u.hist == s.hist && u.th == s.th.(t := u.th.t) && u.rc == s.rc.(req := u.rc.req)
            && if e.data == [] then u.rc.req == s.rc.req && (u.th.t.TFill? || u.th.t.TReading?)
               else u.rc.req == s.rc.req.Absorb(e.data) && u.th.t == TForward(Chunk(e.data, e.res))
  {
  }

  lemma TForwardSendMeans(s: Session, e: Env)
    requires s.th.t.TForwardSend?
    ensures var u := TransportStep(s, e);
            var sent := s.cw.stream.Live() && e.ok;
            && u.cw == s.cw.(stream := s.cw.stream.Send(Payload(REQUEST, s.th.t.chunk.data), e.ok))
            && u.hist == s.hist.(lostReq := s.hist.lostReq || !sent)
            && u.th == s.th.(t := u.th.t) && (u.th.t.TReading? || u.th.t.TFill?) && u.rc == s.rc
  {
  }

  lemma TransportRuns(s: Session)
    requires Inv(s) && !s.th.t.TOff?
    ensures RequestProgress(s.th.h) == Offered
  {
  }

  lemma ByTransport(s: Session, e: Env)
    requires Inv(s) && !s.th.t.TForwardSend? && !s.th.t.TReading? && !s.th.t.TFill?
    ensures Inv(TransportStep(s, e))
  {
    hide MetaKeys, Frames.Sent, Terminals, HasMeta, OnlyRequest, Faithful, Lock, OneTerminal, ResponseRecord,
         Acknowledged, StageOf, RequestProgress, ResponseProgress, MetaStageOf, CachedPc;
    assert s.th.t.TForward? ==> RequestProgress(s.th.h).Offered?;
  }

  lemma ByTFill(s: Session, e: Env)
    requires Inv(s) && s.th.t.TFill?
    ensures Inv(TransportStep(s, e))
  {
    hide Frames.Sent, Terminals, HasMeta, OnlyRequest, Faithful, Lock, OneTerminal, ResponseRecord, Acknowledged,
         StageOf, RequestProgress, ResponseProgress, MetaStageOf, CachedPc;
    assert RequestProgress(s.th.h).Offered?;
  }

  lemma ByTReading(s: Session, e: Env)
    requires Inv(s) && s.th.t.TReading?
    ensures Inv(TransportStep(s, e))
  {
    hide TransportStep, MetaKeys, Lock, OneTerminal, ResponseRecord, Acknowledged, Frames.Sent, HasMeta, Faithful,
         RequestRecord, StageOf, RequestProgress, ResponseProgress, MetaStageOf, CachedPc;
    TReadingMeans(s, e);
    assert RequestProgress(s.th.h).Offered? by { TransportRuns(s); }
    RequestRead(s.cw.stream, s.cw.canceled, s.rc.req, s.rc.meta, s.hist.lostReq, Chunk(e.data, e.res));
  }

  /** A frame of the request leaves the response's record alone. */
  lemma RequestFrameKeepsResponse(p: Progress, st: Stream<WriterFrame>, canceled: bool, resp: Recording, cached: bool,
                                  prologLen: nat, lost: bool, f: WriterFrame, ok: bool)
    requires ResponseRecord(p, st, canceled, resp, cached, prologLen, lost)
    requires (f.Header? || f.Payload?) && f.rec == REQUEST
    ensures ResponseRecord(p, st.Send(f, ok), canceled, resp, cached, prologLen, lost)
  {
    hide Frames.Sent, OnlyRequest, ResponseRecord;
    Appended(st.wire, f, false);
    assert Sent(st.wire, RESPONSE) + [] == Sent(st.wire, RESPONSE);
    ResponseKept(p, st, st.Send(f, ok), canceled, canceled, resp, cached, prologLen, lost);
  }

  /** Nor is SendMeta, if it is under way with the body not at EOF, bound to the request. */
  lemma RequestFrameKeepsReady(m: MetaStage, t: TransportPc, t': TransportPc, live: bool, live': bool, meta: map<nat, RecordMeta>,
                               resp: Recording, lostReq: bool, lostReq': bool, lostResp: bool)
    requires MetaReady(m, t, live, meta, resp, lostReq, lostResp) && !t.TEof? && (live' ==> live)
    ensures MetaReady(m, t', live', meta, resp, lostReq', lostResp)
  {
  }

  /** The lock, the terminal frames and the acknowledgement. */
  ghost predicate Turn(s: Session) {
    && Lock(StageOf(s.th.h), ReceiverStage(s.th.r), s.th.d, s.cw.gate.owner)
    && OneTerminal(StageOf(s.th.h), ReceiverStage(s.th.r), s.th.d, s.cw.gate, s.cw.stream, s.cw.ctxDone)
    && Acknowledged(MetaStageOf(s.th.h).Awaiting?, s.cw.stream, s.cw.acked)
  }

  lemma TForwardSendTurn(s: Session, e: Env)
    requires Turn(s) && s.th.t.TForwardSend?
    ensures Turn(TransportStep(s, e))
  {
    hide TransportStep, Lock, OneTerminal, Acknowledged, StageOf, MetaStageOf;
    TForwardSendMeans(s, e);
    OfferKeepsTurn(StageOf(s.th.h), ReceiverStage(s.th.r), s.th.d, s.cw.gate, s.cw.stream, s.cw.ctxDone,
                   MetaStageOf(s.th.h).Awaiting?, s.cw.acked, Payload(REQUEST, s.th.t.chunk.data), e.ok);
  }

  lemma TForwardSendRecords(s: Session, e: Env)
    requires Records(s) && s.th.t.TForwardSend? && RequestProgress(s.th.h) == Offered
    ensures Records(TransportStep(s, e))
  {
    hide TransportStep, MetaKeys, ResponseRecord, RequestRecord, MetaFaithful, MetaReady, RequestProgress,
         ResponseProgress, MetaStageOf, Stream.Send;
    var f := Payload(REQUEST, s.th.t.chunk.data);
    var st, u := s.cw.stream.Send(f, e.ok), TransportStep(s, e);
    TForwardSendMeans(s, e);
    SendKills(s.cw.stream, f, e.ok);
    RequestTransmitted(s.cw.stream, s.cw.canceled, s.rc.req, s.rc.meta, s.hist.lostReq, s.th.t.chunk, e.ok, u.th.t);
    RequestFrameKeepsResponse(ResponseProgress(s.th.h), s.cw.stream, s.cw.canceled, s.rc.resp, s.rc.cached, s.hist.prologLen,
                              s.hist.lostResp, f, e.ok);
    RequestFrameKeepsReady(MetaStageOf(s.th.h), s.th.t, u.th.t, s.cw.stream.Live(), st.Live(), s.rc.meta, s.rc.resp,
                           s.hist.lostReq, u.hist.lostReq, s.hist.lostResp);
    RequestFrameKeepsFaith(MetaStageOf(s.th.h), s.th.t, u.th.t, s.cw.stream, f, e.ok,
                           s.rc.req.hashed, s.rc.resp.hashed, s.hist.metaDrained);
  }

  lemma ByTForwardSend(s: Session, e: Env)
    requires Inv(s) && s.th.t.TForwardSend?
    ensures Inv(TransportStep(s, e))
  {
    hide TransportStep, Lock, OneTerminal, Acknowledged, MetaKeys, ResponseRecord, RequestRecord, MetaFaithful,
         MetaReady, StageOf, RequestProgress, ResponseProgress, MetaStageOf, CachedPc, Stream.Send;
    TransportRuns(s);
    TForwardSendTurn(s, e);
    TForwardSendRecords(s, e);
    TForwardSendMeans(s, e);
  }

  lemma SendKills(st: Stream<WriterFrame>, f: WriterFrame, ok: bool)
    ensures st.Send(f, ok).Live() ==> st.Live()
  {
  }

  lemma BySelect(s: Session, pick: Pick)
    requires Inv(s)
    ensures Inv(SelectStep(s, pick))
  {
    hide SelectStep, StageOf, RequestProgress, ResponseProgress, MetaStageOf, CachedPc, Lock, OneTerminal,
         Acknowledged, RequestRecord, ResponseRecord, MetaKeys, MetaReady, MetaFaithful;
    E.SelectMeans(s, pick);
    if Outside(s.th.h) {
      OutsideMeans(s.th.h);
      OutsideMeans(SelectStep(s, pick).th.h);
    }
  }

  lemma ByLoop(s: Session, pick: Pick, e: Env)
    requires Inv(s) && !s.th.l.Select?
    ensures Inv(LoopStep(s, pick, e))
  {
    hide LoopStep, Lock, OneTerminal, Acknowledged, RequestRecord, ResponseRecord, MetaReady, MetaFaithful, StageOf,
         RequestProgress, ResponseProgress, MetaStageOf, CachedPc;
    E.FinishMeans(s, pick, e);
  }

  predicate Replies(r: ReceiverPc) {
    r.Deliver? || r.DeliverLast?
  }

  lemma ReceiverMeans(s: Session, e: Env)
    requires !s.th.r.RCancelling? && !(Replies(s.th.r) && s.th.h == InRegister(RegisterWait))
    ensures ReceiverStep(s, e).th.h == s.th.h
    ensures ReceiverStage(ReceiverStep(s, e).th.r) == ReceiverStage(s.th.r) == Idle
  {
  }

  lemma ByReceiver(s: Session, e: Env)
    requires Inv(s) && !s.th.r.RCancelling? && !(Replies(s.th.r) && s.th.h == InRegister(RegisterWait))
    ensures Inv(ReceiverStep(s, e))
  {
    hide ReceiverStep, ReceiverStage, StageOf, RequestProgress, ResponseProgress, MetaStageOf, CachedPc, Lock, OneTerminal,
         Acknowledged, RequestRecord, ResponseRecord, MetaKeys, MetaReady, MetaFaithful;
    E.ReceiverMeans(s, e);
    ReceiverMeans(s, e);
  }

  /** What holds before a registration that ends, whichever way, holds after it. */
  lemma Registered(s: Session)
    requires Inv(s) && s.th.h.InRegister?
    ensures RequestRecord(Offered, s.th.t, s.cw.stream, s.cw.canceled, s.rc.req, s.rc.meta, s.hist.lostReq)
    ensures ResponseRecord(Offered, s.cw.stream, s.cw.canceled, s.rc.resp, s.rc.cached, s.hist.prologLen, s.hist.lostResp)
    ensures MetaKeys(Past, s.rc.meta)
    ensures MetaReady(Past, s.th.t, s.cw.stream.Live(), s.rc.meta, s.rc.resp, s.hist.lostReq, s.hist.lostResp)
    ensures MetaFaithful(Past, s.th.t, s.cw.stream.wire, s.rc.req.hashed, s.rc.resp.hashed, s.hist.metaDrained)
    ensures !s.rc.cached
  {
    hide Frames.Sent, HasMeta, Faithful, RequestRecord, ResponseRecord, Terminals, OnlyRequest, OneTerminal, Lock;
    NothingRecorded(s.th.t, s.cw.stream, s.cw.canceled, s.rc.req, s.rc.resp, s.rc.meta, s.rc.cached, s.hist.prologLen,
                    s.hist.lostReq, s.hist.lostResp);
  }

  /** A reply that ends RegisterNewRequest finds nothing recorded yet. */
  lemma ByReply(s: Session, e: Env)
    requires Inv(s) && Replies(s.th.r) && s.th.h == InRegister(RegisterWait)
    ensures Inv(ReceiverStep(s, e))
  {
    hide CancelStep, Lock, OneTerminal, Acknowledged, RequestRecord, ResponseRecord, MetaKeys, MetaReady,
         MetaFaithful;
    Registered(s);
  }

  lemma ByReceiverCancel(s: Session, e: Env)
    requires Inv(s) && s.th.r.RCancelling?
    ensures Inv(ReceiverStep(s, e))
  {
    hide CancelStep, Lock, OneTerminal, Acknowledged, RequestRecord, ResponseRecord, MetaKeys, MetaReady,
         MetaFaithful, StageOf, RequestProgress, ResponseProgress, MetaStageOf, CachedPc;
    CancelKeepsTurn(StageOf(s.th.h), ReceiverStage(s.th.r), s.th.d, s.cw, s.th.r.at, Receiver, e.ok,
                    MetaStageOf(s.th.h).Awaiting?);
    CancelKeepsRecords(s, CancelStep(s.cw, s.th.r.at, Receiver, e.ok).0);
  }

  lemma ByDisconnect(s: Session, e: Env)
    requires Inv(s)
    ensures Inv(DisconnectStep(s, e))
  {
    hide WatchStep, Lock, OneTerminal, Acknowledged, RequestRecord, ResponseRecord, MetaKeys, MetaReady, MetaFaithful,
         StageOf, RequestProgress, ResponseProgress, MetaStageOf, CachedPc;
    WatchKeepsTurn(StageOf(s.th.h), ReceiverStage(s.th.r), s.th.d, s.cw, e.ok, MetaStageOf(s.th.h).Awaiting?);
    CancelKeepsRecords(s, WatchStep(s.cw, s.th.d, e.ok).0);
  }

  lemma KeptByHandler(s: Session, e: Env)
    requires Inv(s)
    ensures Inv(HandlerStep(s, e))
  {
    hide Inv, RegisterStep, RequestStep, ResponseStep, BodyStep, MetaStep, ReportStep, FailStep, CloseStep;
    match s.th.h
    case InRegister(pc) => ByRegister(s, pc, e);
    case InRequest(pc) =>
      if pc.ReqHeaderSend? { ByReqHeaderSend(s, pc, e); }
      else if pc.ReqHeader? { ByReqHeader(s, pc, e); }
      else { ByFiltering(s, pc, e); }
    case InResponse(pc) =>
      if pc.RoundTrip? { ByResponse(s, pc, e); }
      else if pc.RespHeader? { ByRespHeader(s, pc, e); }
      else { ByRespHeaderSend(s, pc, e); }
    case InBody(pc) =>
      if pc.ForwardSend? { ByForwardSend(s, pc, e); }
      else if pc.Forward? { ByForward(s, pc, e); }
      else if pc.Reading? { ByBody(s, pc, e); }
      else { ByNotify(s, pc, e); }
    case InMeta(pc) =>
      if pc.NotifyAll? || pc.NotifyAllSend? { ByNotifyAll(s, pc, e); }
      else if pc.MetaSend? { ByMetaSend(s, pc, e); }
      else if pc.MetaClose? { ByMetaClose(s, pc, e); }
      else if pc.MetaLock? { ByMetaLock(s, pc, e); }
      else { ByMetaCheck(s, pc, e); }
    case InReport(p, pc) => ByReport(s, p, pc, e);
    case InFail(c, pc) => ByFail(s, c, pc, e);
    case InClose(pc) => if pc.Cancelling? { ByCancel(s, pc, e); } else { ByClose(s, pc, e); }
  }

  lemma KeptByTransport(s: Session, e: Env)
    requires Inv(s)
    ensures Inv(TransportStep(s, e))
  {
    hide Inv, TransportStep;
    if s.th.t.TReading? { ByTReading(s, e); }
    else if s.th.t.TForwardSend? { ByTForwardSend(s, e); }
    else if s.th.t.TFill? { ByTFill(s, e); }
    else { ByTransport(s, e); }
  }

  lemma KeptByReceiver(s: Session, e: Env)
    requires Inv(s)
    ensures Inv(ReceiverStep(s, e))
  {
    hide Inv, ReceiverStep;
    if s.th.r.RCancelling? { ByReceiverCancel(s, e); }
    else if Replies(s.th.r) && s.th.h == InRegister(RegisterWait) { ByReply(s, e); }
    else { ByReceiver(s, e); }
  }

  lemma ByOthers(s: Session, a: Action)
    requires Inv(s) && (a.PeerReplies? || a.PeerEnds? || a.ClientLeaves?)
    ensures Inv(Step(s, a))
  {
    hide Lock, OneTerminal, Acknowledged, RequestRecord, ResponseRecord, MetaKeys, MetaReady, MetaFaithful, StageOf,
         RequestProgress, ResponseProgress, MetaStageOf, CachedPc;
  }

  lemma Kept(s: Session, a: Action)
    requires Inv(s)
    ensures Inv(Step(s, a))
  {
    hide Inv, HandlerStep, TransportStep, SelectStep, ReceiverStep, DisconnectStep;
    match a
    case ByHandler(e) => KeptByHandler(s, e);
    case ByTransport(e) => KeptByTransport(s, e);
    case ByLoop(pick, e) => if s.th.l.Select? { BySelect(s, pick); } else { ByLoop(s, pick, e); }
    case ByReceiver(e) => KeptByReceiver(s, e);
    case ByDisconnect(e) => ByDisconnect(s, e);
    case _ => ByOthers(s, a);
  }

  lemma Started()
    ensures Inv(Init())
  {
  }

  lemma {:induction false} Always(schedule: seq<Action>)
    ensures Inv(Run(schedule))
  {
    hide Step, Inv;
    if schedule == [] {
      Started();
    } else {
      Always(schedule[..|schedule| - 1]);
      Kept(Run(schedule[..|schedule| - 1]), schedule[|schedule| - 1]);
    }
  }
}
