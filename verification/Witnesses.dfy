/** Concrete runs: the guarantees are not empty, and where the code promises less than one might
    expect, a run that shows it. */
module Witnesses {
  import opened Frames
  import opened Session
  import opened Composition
  import opened Peer
  import opened SessionTheorems
  import C = ControllerProtocol
  import Finish
  import Interceptor
  import Progress
  import Refinement
  import ResponseBody

  ghost predicate Reachable(s: Session) {
    exists schedule :: Run(schedule) == s
  }

  lemma Reach(s: Session, a: Action) returns (t: Session)
    requires Reachable(s)
    ensures t == Step(s, a) && Reachable(t)
  {
    hide Step;
    var schedule :| Run(schedule) == s;
    assert (schedule + [a])[..|schedule|] == schedule;
    assert Run(schedule + [a]) == Step(s, a);
    t := Step(s, a);
  }

  lemma Start() returns (s: Session)
    ensures s == Init() && Reachable(s)
  {
    assert Run([]) == Init();
    s := Init();
  }

  const GO := Env(true, [], More, 0, false, true)
  const AT_EOF := Env(true, [], Eof, 0, false, true)
  const OK_200 := Env(true, [], More, 200, false, true)
  const REFUSED := Env(false, [], More, -4, false, true)

  /** The client leaves before the request is registered: Completed is the only frame on the wire. */
  lemma CompletedAlone() returns (s: Session)
    ensures Reachable(s) && |s.bc.stream.wire| == 1 && s.bc.stream.wire[0].Completed?
  {
    s := Start();
    s := Reach(s, ClientLeaves);
    s := Reach(s, ByLoop(OnClientGone, GO));
    s := Reach(s, ByLoop(OnDone, GO));
    s := Canceled(s);
    s := Reach(s, ByLoop(OnDone, GO));
  }

  /** finish has taken `b.m` and writes its error into the log of a session without an outcome. */
  lemma Canceled(s0: Session) returns (s: Session)
    requires Reachable(s0) && s0.th.l.Held? && s0.bc.complete.None?
    ensures Reachable(s) && s.th == s0.th.(l := SendCompleted) && s.bc == s0.bc && s.cw == s0.cw && s.hist == s0.hist
    ensures s.rc == LogError(LogStatus(s0.rc, CANCELED_BY_BROWSER), CANCELED_BY_BROWSER) && s.clientGone == s0.clientGone
  {
    hide HandlerStep, TransportStep, ReceiverStep, DisconnectStep, PeerStep, SelectStep;
    s := Reach(s0, ByLoop(OnDone, GO));
    s := Reach(s, ByLoop(OnDone, GO));
  }

  /** The controller has accepted the request. */
  lemma Registered() returns (s: Session)
    ensures Reachable(s)
    ensures s == Init().(th := Init().th.(h := InRequest(Filtering)),
                         bc := Init().bc.(stream := Stream([New], false, false)))
  {
    s := Start();
    s := Reach(s, ByHandler(GO));
    s := Reach(s, ByHandler(GO));
    s := Reach(s, PeerReplies(Accept));
    s := Reach(s, ByReceiver(GO));
    s := Reach(s, ByReceiver(GO));
  }

  const BLANK: map<nat, RecordMeta> := map[REQUEST := RecordMeta(0, Unset)]

  /** The request's protocol header is sent and the round trip has begun. */
  lemma Underway() returns (s: Session)
    ensures Reachable(s)
    ensures s.th == Threads(InResponse(RoundTrip), TReading, Select, Recv, DWait)
    ensures s.bc == Init().bc.(stream := Stream([New], false, false)) && s.hist == Init().hist && !s.clientGone
    ensures s.cw == Init().cw.(open := true, stream := Stream([Header(REQUEST, [])], false, false))
    ensures s.rc == Init().rc.(log := CrawlLog(-1, 0, 0, Unset), meta := BLANK)
  {
    s := Registered();
    s := Reach(s, ByHandler(GO));
    s := Reach(s, ByHandler(GO));
    s := Reach(s, ByHandler(GO));
  }

  const HEADERS: seq<WriterFrame> := [Header(REQUEST, []), Header(RESPONSE, [])]

  /** The response of status 200 has arrived and its body is being read. */
  lemma Responding() returns (s: Session)
    ensures Reachable(s)
    ensures s.th == Threads(InBody(Reading), TReading, Select, Recv, DWait)
    ensures s.bc == Init().bc.(stream := Stream([New], false, false)) && s.hist == Init().hist && !s.clientGone
    ensures s.cw == Init().cw.(open := true, stream := Stream(HEADERS, false, false))
    ensures s.rc == Init().rc.(log := CrawlLog(200, 0, 0, Unset), meta := BLANK[RESPONSE := RecordMeta(0, Unset)])
  {
    s := Underway();
    s := Reach(s, ByHandler(OK_200));
    s := Reach(s, ByHandler(GO));
    s := Reach(s, ByHandler(GO));
  }

  /** From the end of the response body to the Meta frame. */
  lemma MetaFrom(s0: Session, w: seq<WriterFrame>, drained: bool) returns (s: Session)
    requires Reachable(s0) && s0.th.h == InBody(Reading) && drained == s0.th.t.TEof? && !s0.rc.cached
    requires s0.bc == Init().bc.(stream := Stream([New], false, false))
    requires s0.cw == Init().cw.(open := true, stream := Stream(w, false, false))
    ensures Reachable(s) && s.th == s0.th.(h := InMeta(MetaClose)) && s.clientGone == s0.clientGone
    ensures s.rc == s0.rc.(meta := s0.rc.meta[RESPONSE := s0.rc.resp.Meta()])
    ensures s.hist == s0.hist.(metaDrained := drained)
    ensures s.bc == s0.bc.(stream := Stream([New, AllData], false, false))
    ensures s.cw == s0.cw.(gate := Gate(Some(Handler), true, 1), stream := Stream(w + [Meta(s.rc.meta)], false, false))
  {
    s := NotifiedFrom(s0);
    s := Reach(s, ByHandler(GO));
    s := Reach(s, ByHandler(GO));
    s := Reach(s, ByHandler(GO));
  }

  lemma NotifiedFrom(s0: Session) returns (s: Session)
    requires Reachable(s0) && s0.th.h == InBody(Reading) && !s0.rc.cached
    requires s0.bc == Init().bc.(stream := Stream([New], false, false))
    ensures Reachable(s)
    ensures s == s0.(th := s0.th.(h := InMeta(MetaCheck)), bc := s0.bc.(stream := Stream([New, AllData], false, false)))
  {
    s := Reach(s0, ByHandler(AT_EOF));
    s := Reach(s, ByHandler(GO));
    s := Reach(s, ByHandler(GO));
  }

  /** Record 0 is described only once the request body has been read to its end: here a byte of it is
      transmitted but the Meta frame still gives the request a size of 0. */
  lemma RequestNotDescribed() returns (s: Session)
    ensures Reachable(s) && !s.hist.metaDrained
    ensures var w := s.cw.stream.wire;
            |w| == 4 && w[3].Meta? && REQUEST in w[3].records && w[3].records[REQUEST].size == 0
            && |Sent(w[..3], REQUEST)| == |Sent(w, REQUEST)| == 1 && !HasMeta(w[..3])
  {
    hide Step;
    s := Undrained();
    s := MetaFrom(s, HEADERS + [Payload(REQUEST, [7])], false);
    OneByte(s.cw.stream.wire);
  }

  lemma Undrained() returns (s: Session)
    ensures Reachable(s) && s.th == Threads(InBody(Reading), TReading, Select, Recv, DWait) && s.hist == Init().hist
    ensures s.bc == Init().bc.(stream := Stream([New], false, false))
    ensures s.cw == Init().cw.(open := true, stream := Stream(HEADERS + [Payload(REQUEST, [7])], false, false))
    ensures s.rc.meta == BLANK[RESPONSE := RecordMeta(0, Unset)] && !s.rc.cached
  {
    s := Responding();
    s := Reach(s, ByTransport(Env(true, [7], More, 0, false, true)));
    s := Reach(s, ByTransport(GO));
    s := Reach(s, ByTransport(GO));
  }

  lemma OneByte(w: seq<WriterFrame>)
    requires |w| == 4 && w[..3] == HEADERS + [Payload(REQUEST, [7])] && w[3].Meta?
    ensures |Sent(w[..3], REQUEST)| == |Sent(w, REQUEST)| == 1 && !HasMeta(w[..3])
  {
    hide Sent, Terminals;
    NothingSent([], REQUEST);
    assert w == w[..3] + [w[3]] && w[..3] == w[..2] + [w[2]] && w[..2] == w[..1] + [w[1]] && w[..1] == [] + [w[0]];
    SentAppended(w[..3], w[3], REQUEST);
    SentAppended(w[..2], w[2], REQUEST);
    SentAppended(w[..1], w[1], REQUEST);
    SentAppended([], w[0], REQUEST);
  }

  /** The checking peer rejects the stream of such a session, on account of the request's size. */
  lemma RequestRejected() returns (schedule: seq<Action>)
    ensures forall v, eof :: Right(v, Run(schedule).cw.stream.wire, eof, false) ==> v.SizeMismatch?
  {
    hide Run, Step, Tally, Replies;
    var s := RequestNotDescribed();
    schedule :| Run(schedule) == s;
    var w := s.cw.stream.wire;
    OrderlyRun(schedule);
    OrderlyPrefix(w, 3, false);
    TallyIsSent(w[..3], false, REQUEST);
    assert SizeFault(Tally(w[..3]), w[3], REQUEST);
    assert !AllSound(w, 4, false) by { assert !Sound(w, 3, false); }
    forall i | 0 <= i < |w|
      ensures !Unstarted(Tally(w[..i]), w[i]) && forall rec :: !DigestFault(Tally(w[..i]), w[i], rec)
    {
      PeerAgrees(schedule, i);
      assert i < 3 ==> w[i] in w[..3];
    }
  }

  /** Both bodies have been read and Meta has been sent. */
  lemma Archiving() returns (s: Session)
    ensures Reachable(s) && s.th == Threads(InMeta(MetaClose), TEof, Select, Recv, DWait)
    ensures s.bc == Init().bc.(stream := Stream([New, AllData], false, false))
    ensures s.rc.log.status == 200 && s.rc.log.error == 0 && s.rc.resp == Recording(0, []) && !s.rc.cached
  {
    s := Responding();
    s := Reach(s, ByTransport(AT_EOF));
    s := Reach(s, ByTransport(GO));
    s := MetaFrom(s, HEADERS, true);
  }

  /** The archive has acknowledged the response and the handler has handed the outcome to the loop. */
  lemma Succeeded() returns (s: Session)
    ensures Reachable(s) && s.th.h == InClose(BodyDone) && s.th.l.Select? && s.cw.acked
    ensures s.bc.owner.None? && s.bc.complete == Some(Outcome(CrawlLog(200, 0, 0, Sha1([])), None))
    ensures s.bc.stream == Stream([New, AllData], false, false) && !s.rc.cached
  {
    s := Saving();
    s := Reach(s, ByLoop(OnHandler, GO));
  }

  lemma Saving() returns (s: Session)
    ensures Reachable(s) && s.th.h == InReport(ForSave, Post(Outcome(CrawlLog(200, 0, 0, Sha1([])), None)))
    ensures s.th.l.Select? && s.cw.acked && s.bc.complete.None?
    ensures s.bc.stream == Stream([New, AllData], false, false) && !s.rc.cached
  {
    s := Archived();
    s := Reach(s, ByHandler(GO));
    s := Reach(s, ByHandler(GO));
    s := Reach(s, ByHandler(GO));
  }

  lemma Archived() returns (s: Session)
    ensures Reachable(s) && s.th.h == InReport(ForSave, Report) && s.th.l.Select? && s.cw.acked
    ensures s.bc.complete.None? && s.bc.owner.None? && s.bc.stream == Stream([New, AllData], false, false)
    ensures s.rc.log == CrawlLog(200, 0, 0, Sha1([])) && !s.rc.cached
  {
    s := Archiving();
    s := Reach(s, ByHandler(GO));
  }

  /** A request that is accepted, answered and archived is reported as a success. */
  lemma SuccessReported() returns (s: Session)
    ensures Reachable(s) && s.cw.acked
    ensures s.bc.stream.wire == [New, AllData, Completed(CrawlLog(200, 0, 0, Sha1([])), false)]
  {
    s := Succeeded();
    s := Reach(s, ByHandler(GO));
    s := Reach(s, ByHandler(GO));
    s := Reach(s, ByLoop(OnDone, GO));
    s := Reach(s, ByLoop(OnDone, GO));
    s := Reach(s, ByLoop(OnDone, GO));
    s := Reach(s, ByLoop(OnDone, GO));
  }

  /** The controller's cancel reaches the loop before the error that the client is told. */
  lemma ToldAnotherError() returns (s: Session)
    ensures Reachable(s) && s.hist.header == Posted(-4)
    ensures s.bc.complete.Some? && s.bc.complete.value.err == Some(CANCELED_BY_BROWSER)
  {
    s := Overtaken();
    s := Reach(s, ByLoop(OnReceiver, GO));
    s := Reach(s, ByLoop(OnHandler, GO));
  }

  /** Handler and receiver both have a message for the loop. */
  lemma Overtaken() returns (s: Session)
    ensures Reachable(s) && s.th.h.InReport? && s.th.h.p == ForRequestError(-4) && s.th.h.rep.Post?
    ensures s.th.r.RPost? && s.th.r.msg.err == Some(CANCELED_BY_BROWSER) && s.th.l.Select? && s.bc.complete.None?
  {
    s := Failing();
    s := Aborted(s);
  }

  /** The controller cancels a session whose content writer is not open; the receiver's message is ready. */
  lemma Aborted(s0: Session) returns (s: Session)
    requires Reachable(s0) && s0.th.r.Recv? && s0.bc.peer == Peer([], None, false) && !s0.cw.open
    ensures Reachable(s) && s.th == s0.th.(r := s.th.r) && s.bc == s0.bc && s.cw == s0.cw
    ensures s.th.r.RPost? && s.th.r.msg.err == Some(CANCELED_BY_BROWSER) && s.clientGone == s0.clientGone
    ensures s.rc == LogError(LogStatus(s0.rc, CANCELED_BY_BROWSER), CANCELED_BY_BROWSER)
  {
    s := Cancelling(s0);
    s := Reach(s, ByReceiver(GO));
    s := Reach(s, ByReceiver(GO));
    s := Reach(s, ByReceiver(GO));
  }

  lemma Cancelling(s0: Session) returns (s: Session)
    requires Reachable(s0) && s0.th.r.Recv? && s0.bc.peer == Peer([], None, false) && !s0.cw.open
    ensures Reachable(s) && s.th == s0.th.(r := REdit) && s.bc == s0.bc && s.cw == s0.cw && s.rc == s0.rc
    ensures s.clientGone == s0.clientGone
  {
    s := Reach(s0, PeerReplies(Abort));
    s := Reach(s, ByReceiver(GO));
    s := Reach(s, ByReceiver(GO));
  }

  /** The receiver writes the controller's cancel between the two writes of SendRequestError: the copy that is
      handed over, and then reported, has the one's status code and the other's error. */
  lemma ReportsMix() returns (s: Session)
    ensures Reachable(s) && s.bc.complete.Some?
    ensures s.bc.complete.value == Outcome(CrawlLog(CANCELED_BY_BROWSER, -4, 0, Unset), Some(-4))
  {
    s := Refused();
    s := Reach(s, ByHandler(GO));
    s := Cancelling(s);
    s := Reach(s, ByHandler(GO));
    s := Mixed(s);
    s := Reach(s, ByLoop(OnHandler, GO));
  }

  lemma Mixed(s0: Session) returns (s: Session)
    requires Reachable(s0) && s0.th.r.REdit? && s0.th.h == InReport(ForRequestError(-4), EditError)
    ensures Reachable(s) && s.th == s0.th.(r := REditError, h := s.th.h) && s.bc == s0.bc
    ensures s.th.h == InReport(ForRequestError(-4), Post(Outcome(s0.rc.log.(status := CANCELED_BY_BROWSER, error := -4), Some(-4))))
  {
    s := Reach(s0, ByReceiver(GO));
    s := Reach(s, ByHandler(GO));
    s := Reach(s, ByHandler(GO));
  }

  /** A filter has refused the request; the handler holds `b.m` and its error waits for the loop. */
  lemma Failing() returns (s: Session)
    ensures Reachable(s) && s.th == Init().th.(h := InReport(ForRequestError(-4), Post(Outcome(s.rc.log, Some(-4)))))
    ensures s.bc == Init().bc.(owner := Some(Handler), stream := Stream([New, AllData], false, false))
    ensures s.cw == Init().cw && s.hist == Init().hist && !s.clientGone
  {
    s := Refused();
    s := Reach(s, ByHandler(GO));
    s := Reach(s, ByHandler(GO));
    s := Reach(s, ByHandler(GO));
    s := Reach(s, ByHandler(GO));
  }

  lemma Refused() returns (s: Session)
    ensures Reachable(s) && s.th == Init().th.(h := InReport(ForRequestError(-4), Report)) && s.rc == Init().rc
    ensures s.bc == Init().bc.(stream := Stream([New, AllData], false, false))
    ensures s.cw == Init().cw && s.hist == Init().hist && !s.clientGone
  {
    s := Registered();
    s := Reach(s, ByHandler(REFUSED));
    s := Reach(s, ByHandler(GO));
    s := Reach(s, ByHandler(GO));
    s := Reach(s, ByHandler(GO));
  }

  /** The controller refuses the request for robots.txt: the client and the controller are told just that, and the content
      writer has not been opened. */
  lemma RobotsReported() returns (s: Session)
    ensures Reachable(s) && s.hist.header == Posted(PRECLUDED_BY_ROBOTS) && s.cw == Init().cw && !s.hist.aborted
    ensures exists log: CrawlLog ::
              && s.bc.stream.wire == [New, AllData, Completed(log, false)]
              && log.status == PRECLUDED_BY_ROBOTS && log.error == PRECLUDED_BY_ROBOTS
  {
    s := Precluded();
    s := HandedOver(s, PRECLUDED_BY_ROBOTS);
    s := Taken(s, PRECLUDED_BY_ROBOTS);
  }

  /** It ends its stream instead, in order: they are told that it has closed the connection. */
  lemma CloseReported() returns (s: Session)
    ensures Reachable(s) && s.hist.header == Posted(CANCELED_BY_BROWSER) && s.cw == Init().cw && !s.hist.aborted
    ensures exists log: CrawlLog ::
              && s.bc.stream.wire == [New, AllData, Completed(log, false)]
              && log.status == CANCELED_BY_BROWSER && log.error == CANCELED_BY_BROWSER
  {
    s := Closed();
    s := HandedOver(s, CANCELED_BY_BROWSER);
    s := Taken(s, CANCELED_BY_BROWSER);
  }

  /** The registration has failed, and nothing else has happened. */
  ghost predicate FailedWith(s: Session, code: int) {
    && s.th.h == InFail(code, Fail) && s.th.l.Select? && s.bc.owner.None? && s.bc.complete.None?
    && s.bc.stream == Stream([New], false, false) && s.cw == Init().cw && s.hist == Init().hist && !s.rc.cached
  }

  lemma Waiting() returns (s: Session)
    ensures Reachable(s) && s.th == Init().th.(h := InRegister(RegisterWait)) && s.cw == Init().cw && s.rc == Init().rc
    ensures s.bc == Init().bc.(owner := Some(Handler), stream := Stream([New], false, false)) && s.hist == Init().hist
  {
    s := Start();
    s := Reach(s, ByHandler(GO));
    s := Reach(s, ByHandler(GO));
  }

  lemma Precluded() returns (s: Session)
    ensures Reachable(s) && FailedWith(s, PRECLUDED_BY_ROBOTS)
  {
    s := Waiting();
    s := Reach(s, PeerReplies(Robots));
    s := Reach(s, ByReceiver(GO));
    s := Reach(s, ByReceiver(GO));
  }

  lemma Closed() returns (s: Session)
    ensures Reachable(s) && FailedWith(s, CANCELED_BY_BROWSER)
  {
    s := Waiting();
    s := Reach(s, PeerEnds(Orderly));
    s := Reach(s, ByReceiver(GO));
    s := Reach(s, ByReceiver(GO));
  }

  lemma HandedOver(s0: Session, code: int) returns (s: Session)
    requires Reachable(s0) && FailedWith(s0, code)
    ensures Reachable(s) && s.th.h == InReport(ForRequestError(code), EditError) && s.th.l.Select? && s.bc.complete.None?
    ensures s.bc.stream == Stream([New, AllData], false, false) && s.bc.owner == Some(Handler) && s.rc.log.status == code
    ensures s.cw == Init().cw && s.hist == Init().hist && !s.rc.cached
  {
    s := Reach(s0, ByHandler(GO));
    s := Reach(s, ByHandler(GO));
    s := Reach(s, ByHandler(GO));
    s := Reach(s, ByHandler(GO));
    s := Reach(s, ByHandler(GO));
  }

  lemma Delivered(s0: Session, code: int) returns (s: Session)
    requires Reachable(s0) && s0.th.h == InReport(ForRequestError(code), EditError) && s0.th.l.Select? && s0.bc.complete.None?
    requires s0.bc.stream == Stream([New, AllData], false, false) && s0.bc.owner == Some(Handler) && s0.rc.log.status == code
    requires s0.cw == Init().cw && s0.hist == Init().hist && !s0.rc.cached
    ensures Reachable(s) && s.hist == Init().hist.(header := Posted(code)) && s.cw == Init().cw && s.th.l.Select?
    ensures s.bc.complete.Some? && s.bc.complete.value.log.status == code && s.bc.complete.value.log.error == code
    ensures s.bc.stream == Stream([New, AllData], false, false) && s.bc.owner.None? && !s.rc.cached
  {
    s := Reach(s0, ByHandler(GO));
    s := Reach(s, ByHandler(GO));
    s := Reach(s, ByLoop(OnHandler, GO));
  }

  lemma Taken(s0: Session, code: int) returns (s: Session)
    requires Reachable(s0) && s0.th.h == InReport(ForRequestError(code), EditError) && s0.th.l.Select? && s0.bc.complete.None?
    requires s0.bc.stream == Stream([New, AllData], false, false) && s0.bc.owner == Some(Handler) && s0.rc.log.status == code
    requires s0.cw == Init().cw && s0.hist == Init().hist && !s0.rc.cached
    ensures Reachable(s) && s.hist.header == Posted(code) && s.cw == Init().cw && !s.hist.aborted
    ensures exists log: CrawlLog ::
              s.bc.stream.wire == [New, AllData, Completed(log, false)] && log.status == code && log.error == code
  {
    s := Delivered(s0, code);
    var log := s.bc.complete.value.log;
    s := Reach(s, ClientLeaves);
    s := Reach(s, ByLoop(OnClientGone, GO));
    s := Reach(s, ByLoop(OnDone, GO));
    s := Reach(s, ByLoop(OnDone, GO));
    s := Reach(s, ByLoop(OnDone, GO));
    assert s.bc.stream.wire == [New, AllData, Completed(log, false)];
  }

  /** A response from the cache, read to its end and reported as such. */
  lemma CachedReported() returns (s: Session)
    ensures Reachable(s) && s.rc.cached && s.bc.complete.Some? && s.bc.complete.value.err.None?
    ensures s.bc.stream.wire == [New, Completed(CrawlLog(200, 0, 3, Unset), true)]
  {
    s := CachedSaved();
    s := Reach(s, ClientLeaves);
    s := Reach(s, ByLoop(OnClientGone, GO));
    s := Reach(s, ByLoop(OnDone, GO));
    s := Reach(s, ByLoop(OnDone, GO));
    s := Reach(s, ByLoop(OnDone, GO));
  }

  lemma CachedSaved() returns (s: Session)
    ensures Reachable(s) && s.rc.cached && s.th.l.Select? && s.bc.owner.None?
    ensures s.bc.complete == Some(Outcome(CrawlLog(200, 0, 3, Unset), None)) && s.bc.stream == Stream([New], false, false)
  {
    s := CachedRead();
    s := Reach(s, ByHandler(GO));
    s := Reach(s, ByHandler(GO));
    s := Reach(s, ByHandler(GO));
    s := Reach(s, ByLoop(OnHandler, GO));
  }

  lemma CachedRead() returns (s: Session)
    ensures Reachable(s) && s.rc.cached && s.th.l.Select? && s.th.h == InReport(ForSave, Report) && s.bc.owner.None?
    ensures s.bc.complete.None? && s.bc.stream == Stream([New], false, false) && s.rc.log == CrawlLog(200, 0, 3, Unset)
  {
    s := Underway();
    s := Reach(s, ByHandler(Env(true, [1, 2, 3], More, 200, true, true)));
    s := Reach(s, ByHandler(AT_EOF));
  }

  /** The client leaves while the request is under way: Completed says that the response was not from the cache, which
      then it is. */
  lemma CachedTooLate() returns (s: Session)
    ensures Reachable(s) && s.rc.cached && exists log: CrawlLog :: s.bc.stream.wire == [New, Completed(log, false)]
  {
    s := Underway();
    s := Reach(s, ClientLeaves);
    s := Reach(s, ByLoop(OnClientGone, GO));
    s := Reach(s, ByLoop(OnDone, GO));
    s := Canceled(s);
    s := SentThenCached(s);
  }

  lemma SentThenCached(s0: Session) returns (s: Session)
    requires Reachable(s0) && s0.th.l.SendCompleted? && s0.bc.stream == Stream([New], false, false) && s0.bc.complete.None?
    requires s0.th.h == InResponse(RoundTrip) && !s0.rc.cached && !s0.rc.rcError
    ensures Reachable(s) && s.rc.cached && exists log: CrawlLog :: s.bc.stream.wire == [New, Completed(log, false)]
  {
    var log := s0.rc.log;
    s := Reach(s0, ByLoop(OnDone, GO));
    s := Reach(s, ByHandler(Env(true, [], More, 200, true, true)));
    assert s.bc.stream.wire == [New, Completed(log, false)];
  }

  /** The controller cancels a request before it fails: SendRequestError finds the cancel, and that is what the client is
      told. */
  lemma ToldEarly() returns (s: Session)
    ensures Reachable(s) && s.hist.header == Early(CANCELED_BY_BROWSER)
  {
    s := AbortedEarly();
    s := Reach(s, ByHandler(REFUSED));
    s := Reach(s, ByHandler(GO));
  }

  /** A request that fails after its header was sent has left a frame with the content writer. */
  lemma ErrorAfterHeader() returns (s: Session)
    ensures Reachable(s) && !s.hist.header.NoHeader? && s.cw.stream.wire == [Header(REQUEST, [])]
  {
    s := Underway();
    s := Reach(s, ByHandler(REFUSED));
    s := Reach(s, ByHandler(GO));
    s := Reach(s, ByHandler(GO));
    s := Reach(s, ByHandler(REFUSED));
  }

  /** The controller cancels an accepted request before the content writer is opened. */
  lemma AbortedEarly() returns (s: Session)
    ensures Reachable(s) && s.th == Init().th.(h := InRequest(Filtering)) && s.cw == Init().cw && !s.rc.cached
    ensures s.bc.owner.None? && s.bc.complete.Some? && s.bc.complete.value.err == Some(CANCELED_BY_BROWSER)
    ensures !s.rc.rcError
  {
    s := Registered();
    s := Aborted(s);
    s := Reach(s, ByLoop(OnReceiver, GO));
  }

  lemma AbortedReading() returns (s: Session)
    ensures Reachable(s) && s.th == Threads(InBody(Reading), TReading, Select, Recv, DWait) && !s.rc.cached
    ensures s.cw == Init().cw.(open := true, stream := Stream(HEADERS, false, false))
    ensures s.bc.owner.None? && s.bc.complete.Some? && s.bc.complete.value.err == Some(CANCELED_BY_BROWSER)
  {
    s := AbortedEarly();
    s := Reach(s, ByHandler(GO));
    s := Reach(s, ByHandler(GO));
    s := Reach(s, ByHandler(GO));
    s := Reach(s, ByHandler(OK_200));
    s := Reach(s, ByHandler(GO));
    s := Reach(s, ByHandler(GO));
  }

  /** Such a cancel does not cancel the content writer: the response is archived and acknowledged although
      the outcome is the controller's cancel. */
  lemma AbortedYetArchived() returns (s: Session)
    ensures Reachable(s) && s.cw.acked
    ensures s.bc.complete.Some? && s.bc.complete.value.err == Some(CANCELED_BY_BROWSER)
  {
    s := AbortedAtEof();
    s := Reach(s, ByHandler(GO));
    s := Reach(s, ByHandler(GO));
    s := Reach(s, ByHandler(GO));
  }

  lemma AbortedAtEof() returns (s: Session)
    ensures Reachable(s) && s.th.h.InMeta? && s.th.h.meta.MetaLock?
    ensures s.cw == Init().cw.(open := true, stream := Stream(HEADERS, false, false))
    ensures s.bc.complete.Some? && s.bc.complete.value.err == Some(CANCELED_BY_BROWSER)
  {
    s := AbortedReading();
    s := Reach(s, ByHandler(AT_EOF));
    s := Reach(s, ByHandler(GO));
    s := Reach(s, ByHandler(GO));
  }

  /** The client leaves, finish reports -5011 and ends; then the request fails, and the client's header,
      which no loop can take any more, says -5. No controller cancel is involved. */
  lemma ToldAfterCompleted() returns (s: Session)
    ensures Reachable(s) && s.hist.header == Unsent(RUNTIME_EXCEPTION) && s.bc.complete.None? && !s.hist.aborted
    ensures s.bc.stream.wire == [New, Completed(CrawlLog(CANCELED_BY_BROWSER, CANCELED_BY_BROWSER, 0, Unset), false)]
  {
    s := Finished();
    s := Reach(s, ByHandler(REFUSED));
    s := Reach(s, ByHandler(GO));
    s := Reach(s, ByHandler(GO));
    s := Reach(s, ByHandler(GO));
  }

  lemma Finished() returns (s: Session)
    ensures Reachable(s) && s.th.h == InRequest(Filtering) && s.bc.complete.None? && s.bc.owner.None?
    ensures !s.hist.aborted
    ensures s.bc.stream.closed
    ensures s.bc.stream.wire == [New, Completed(CrawlLog(CANCELED_BY_BROWSER, CANCELED_BY_BROWSER, 0, Unset), false)]
  {
    s := Holding();
    s := Canceled(s);
    s := Reach(s, ByLoop(OnDone, GO));
    s := Reach(s, ByLoop(OnDone, GO));
    s := Drained(s);
  }

  /** finish has taken `b.m` from a session that waits for its request filters. */
  lemma Holding() returns (s: Session)
    ensures Reachable(s) && s.th.h == InRequest(Filtering) && s.th.l == Held && s.th.r == Recv && s.hist == Init().hist
    ensures s.bc.stream == Stream([New], false, false) && s.bc.complete.None? && s.bc.peer == Peer([], Some(Orderly), false)
    ensures s.rc == Init().rc
  {
    s := Registered();
    s := Reach(s, ClientLeaves);
    s := Reach(s, PeerEnds(Orderly));
    s := Reach(s, ByLoop(OnClientGone, GO));
    s := Reach(s, ByLoop(OnDone, GO));
  }

  lemma Drained(s0: Session) returns (s: Session)
    requires Reachable(s0) && s0.th.l.Drain? && s0.th.r.Recv? && s0.bc.peer == Peer([], Some(Orderly), false)
    requires s0.th.h == InRequest(Filtering)
    ensures Reachable(s) && s.th.h == s0.th.h && s.bc.complete == s0.bc.complete && s.bc.owner.None?
    ensures s.bc.stream == s0.bc.stream && s.hist == s0.hist
  {
    s := ChannelClosed(s0);
    s := Counted(s);
    s := Reach(s, ByLoop(OnDone, GO));
    s := Reach(s, ByLoop(OnDone, GO));
  }

  lemma Counted(s0: Session) returns (s: Session)
    requires Reachable(s0) && s0.th.l.Drain? && s0.bc.peer.chanClosed
    ensures Reachable(s) && s == s0.(th := s0.th.(l := Count))
  {
    hide HandlerStep, TransportStep, ReceiverStep, DisconnectStep, PeerStep, SelectStep;
    s := Reach(s0, ByLoop(OnDone, GO));
    s := Reach(s, ByLoop(OnDone, GO));
  }

  lemma ChannelClosed(s0: Session) returns (s: Session)
    requires Reachable(s0) && s0.th.l.Drain? && s0.th.r.Recv? && s0.bc.peer == Peer([], Some(Orderly), false)
    requires s0.th.h == InRequest(Filtering)
    ensures Reachable(s) && s.th == s0.th.(r := REnded) && s.bc.peer.chanClosed && s.hist == s0.hist
    ensures s.bc.complete == s0.bc.complete && s.bc.stream == s0.bc.stream
  {
    s := Reach(s0, ByReceiver(GO));
    s := Reach(s, ByReceiver(GO));
    s := Reach(s, ByReceiver(GO));
  }

  /** A data frame may follow a Cancel frame: data sends do not take `c.m`. */
  lemma PayloadAfterCancel() returns (s: Session)
    ensures Reachable(s) && s.cw.stream.wire == [Header(REQUEST, []), Cancel, Payload(REQUEST, [7])]
  {
    s := Underway();
    s := Reach(s, ByTransport(Env(true, [7], More, 0, false, true)));
    s := Reach(s, ByTransport(GO));
    s := Reach(s, PeerReplies(Abort));
    s := Reach(s, ByReceiver(GO));
    s := Reach(s, ByReceiver(GO));
    s := Reach(s, ByReceiver(GO));
    s := Reach(s, ByReceiver(GO));
    s := Reach(s, ByTransport(GO));
  }

  /** The status code and the error of a Completed frame may disagree: the response arrives while
      finish reports a cancelled session. */
  lemma StatusAndErrorDisagree() returns (s: Session)
    ensures Reachable(s)
    ensures s.bc.stream.wire == [New, Completed(CrawlLog(200, CANCELED_BY_BROWSER, 0, Unset), false)]
  {
    s := Underway();
    s := Reach(s, ClientLeaves);
    s := Reach(s, ByLoop(OnClientGone, GO));
    s := Reach(s, ByLoop(OnDone, GO));
    s := Canceled(s);
    s := Reach(s, ByHandler(OK_200));
    s := Reach(s, ByLoop(OnDone, GO));
  }

  /** The controller cancels and the client leaves: finish takes `b.m` and never lets go. */
  lemma ReceiverDeadlock() returns (schedule: seq<Action>)
    ensures Run(schedule).th.l.Holds() && Run(schedule).bc.peer.ended.Some?
    ensures forall more :: !Run(schedule + more).bc.ctxDone
  {
    hide Run, Step;
    var s := Uncollected();
    schedule :| Run(schedule) == s;
    forall more ensures !Run(schedule + more).bc.ctxDone {
      Progress.DoomedNeverFinishes(schedule, more);
    }
  }

  lemma Uncollected() returns (s: Session)
    ensures Reachable(s) && s.bc.peer.ended.Some? && s.th.l.Holds() && Progress.Doomed(s)
  {
    s := Start();
    s := Reach(s, PeerReplies(Abort));
    s := Reach(s, PeerEnds(Orderly));
    s := Reach(s, ClientLeaves);
    s := Reach(s, ByLoop(OnClientGone, GO));
    s := Reach(s, ByLoop(OnDone, GO));
    assert s.bc.peer.inbox == [] + [Abort];
  }

  /** The client leaves while the handler waits, under `b.m`, to hand over its error: finish never
      gets `b.m`, and neither thread moves again. */
  lemma HandlerDeadlock() returns (schedule: seq<Action>)
    ensures Run(schedule).th.h.InReport? && Run(schedule).th.l.Want?
    ensures forall more :: Run(schedule + more).th.h == Run(schedule).th.h
    ensures forall more :: Run(schedule + more).th.l.Want? && !Run(schedule + more).bc.ctxDone
  {
    hide Run, Step;
    var s := Failing();
    s := LoopLeaves(s);
    schedule :| Run(schedule) == s;
    forall more ensures var t := Run(schedule + more); t.th.l.Want? && t.th.h == s.th.h && !t.bc.ctxDone {
      Progress.ReportingHandlerBlocksFinish(schedule, more);
      Progress.LateSenderWaitsForever(schedule, more);
    }
  }

  /** The controller cancels while its reply to New is awaited, and the client leaves: registration holds
      `b.m`, finish waits for it, and the receiver waits for the loop. */
  lemma RegistrationDeadlock() returns (schedule: seq<Action>)
    ensures Run(schedule).bc.peer.ended.Some?
    ensures forall more :: var t := Run(schedule + more);
              t.th.h == InRegister(RegisterWait) && t.th.l.Want? && !t.bc.ctxDone
  {
    hide Run, Step;
    var s := Unanswered();
    schedule :| Run(schedule) == s;
    forall more ensures var t := Run(schedule + more); t.th.h == InRegister(RegisterWait) && t.th.l.Want? && !t.bc.ctxDone {
      Finish.RegistrationBlocksFinish(schedule, more);
    }
  }

  lemma Unanswered() returns (s: Session)
    ensures Reachable(s) && s.th.h == InRegister(RegisterWait) && s.th.l.Want? && s.th.r.Aborting()
    ensures s.bc.peer.ended.Some?
  {
    s := Start();
    s := Reach(s, ByHandler(GO));
    s := Reach(s, ByHandler(GO));
    s := Reach(s, PeerReplies(Abort));
    s := Reach(s, PeerEnds(Orderly));
    s := Reach(s, ByReceiver(GO));
    s := Reach(s, ClientLeaves);
    s := Reach(s, ByLoop(OnClientGone, GO));
  }

  /** finish waits for the registration, the registration for a reply, and a controller that answers nothing before
      finish has closed its stream says nothing. */
  lemma SilentDeadlock() returns (schedule: seq<Action>)
    ensures Run(schedule).th.h == InRegister(RegisterWait) && Run(schedule).th.l.Want?
    ensures forall more :: Finish.PeerSilent(more) ==>
              var t := Run(schedule + more); t.th.h.InRegister? && t.th.l.Want? && !t.bc.stream.closed
  {
    hide Run, Step;
    var s := Abandoned();
    schedule :| Run(schedule) == s;
    forall more | Finish.PeerSilent(more)
      ensures var t := Run(schedule + more); t.th.h.InRegister? && t.th.l.Want? && !t.bc.stream.closed
    {
      Finish.SilenceBlocksFinish(schedule, more);
    }
  }

  lemma Abandoned() returns (s: Session)
    ensures Reachable(s) && s.th.h == InRegister(RegisterWait) && s.th.l.Want? && s.th.r.Recv?
    ensures s.bc.peer == Init().bc.peer
  {
    s := Start();
    s := Reach(s, ByHandler(GO));
    s := Reach(s, ByHandler(GO));
    s := Reach(s, ClientLeaves);
    s := Reach(s, ByLoop(OnClientGone, GO));
  }

  /** The client leaves after a success, just before the interceptor says that the response is completed:
      the session is archived, but its interceptor never returns. */
  lemma InterceptorHangs() returns (schedule: seq<Action>)
    ensures Run(schedule).cw.acked && Run(schedule).th.h == InClose(DoneSend(false))
    ensures forall more :: Run(schedule + more).th.h != InClose(Ended)
  {
    hide Run, Step;
    var s := Deserted();
    schedule :| Run(schedule) == s;
    forall more ensures Run(schedule + more).th.h != InClose(Ended) {
      Progress.LateSenderWaitsForever(schedule, more);
    }
  }

  lemma Deserted() returns (s: Session)
    ensures Reachable(s) && s.cw.acked && s.th.h == InClose(DoneSend(false)) && s.th.l.Want?
  {
    s := Succeeded();
    s := Reach(s, ByHandler(GO));
    s := Reach(s, ByHandler(GO));
    s := Reach(s, ClientLeaves);
    s := Reach(s, ByLoop(OnClientGone, GO));
  }

  /** The controller's stream breaks before the response arrives. The loop hears that the response is completed, but the
      content writer is never told: the interceptor waits for it until the client leaves. */
  lemma InterceptorWaitsForWriter() returns (schedule: seq<Action>)
    ensures Run(schedule).th.h == InClose(WaitWriter) && Run(schedule).bc.peer.ended == Some(Unknown)
    ensures forall more :: Interceptor.Stays(more) ==> Run(schedule + more).th.h == InClose(WaitWriter)
  {
    hide Run, Step, Finish.Courteous;
    var s := Unrecorded();
    schedule :| Run(schedule) == s;
    forall more | Interceptor.Stays(more) ensures Run(schedule + more).th.h == InClose(WaitWriter) {
      Finish.EndedIsCourteous(s, more);
      Interceptor.UnreadWaitsForever(schedule, more);
    }
  }

  lemma Unrecorded() returns (s: Session)
    ensures Reachable(s) && s.th.h == InClose(WaitWriter) && s.th.r == DeliverLast(true)
    ensures s.cw.open && !s.cw.gate.done && !s.clientGone && s.bc.peer.ended == Some(Unknown)
  {
    s := Broken();
    s := Reach(s, ByHandler(GO));
    s := Reach(s, ByHandler(GO));
    s := Reach(s, ByHandler(GO));
    s := Reach(s, ByLoop(OnDone, GO));
  }

  lemma Broken() returns (s: Session)
    ensures Reachable(s) && s.th.h == InResponse(RoundTrip) && s.th.l.Select? && s.th.r == DeliverLast(true) && s.rc.rcError
    ensures s.cw.open && !s.cw.gate.done && !s.clientGone && s.bc.peer.ended == Some(Unknown)
  {
    s := Underway();
    s := Reach(s, PeerEnds(Unknown));
    s := Reach(s, ByReceiver(GO));
  }

  /** No error is needed for that: it is enough that nobody reads the response to its end. */
  lemma UnreadResponseHangs() returns (schedule: seq<Action>)
    ensures Run(schedule).th.h == InClose(WaitWriter) && !Run(schedule).rc.rcError && Run(schedule).bc.peer == Init().bc.peer
    ensures forall more :: Finish.Courteous(Run(schedule), more) && Interceptor.Stays(more) ==>
              Run(schedule + more).th.h == InClose(WaitWriter)
  {
    hide Run, Step, Finish.Courteous;
    var s := Unread();
    schedule :| Run(schedule) == s;
    forall more | Finish.Courteous(s, more) && Interceptor.Stays(more)
      ensures Run(schedule + more).th.h == InClose(WaitWriter)
    {
      Interceptor.UnreadWaitsForever(schedule, more);
    }
  }

  lemma Unread() returns (s: Session)
    ensures Reachable(s) && s.th.h == InClose(WaitWriter) && s.th.r.Recv? && s.bc.peer == Init().bc.peer
    ensures s.cw.open && !s.cw.gate.done && !s.clientGone && !s.rc.rcError
  {
    s := Responding();
    s := Reach(s, ByHandler(Env(false, [], More, 0, true, true)));
    s := Reach(s, ByHandler(GO));
    s := Reach(s, ByLoop(OnDone, GO));
  }

  lemma LoopLeaves(s0: Session) returns (s: Session)
    requires Reachable(s0) && s0.th.l.Select? && s0.th.h.InReport? && s0.th.h.rep.Post?
    ensures Reachable(s) && s.th.l.Want? && s.th.h == s0.th.h
  {
    s := Reach(s0, ClientLeaves);
    s := Reach(s, ByLoop(OnClientGone, GO));
  }

  // ---------- the wire language is exact ----------

  datatype Kind = KNew | KData | KAllData | KCompleted

  function KindOf(f: ControllerFrame): Kind {
    match f
    case New => KNew
    case Data => KData
    case AllData => KAllData
    case Completed(_, _) => KCompleted
  }

  /** The frames, up to the contents of Completed. */
  predicate Alike(a: seq<ControllerFrame>, b: seq<ControllerFrame>) {
    |a| == |b| && forall i :: 0 <= i < |a| ==> KindOf(a[i]) == KindOf(b[i])
  }

  /** Nothing stands in the way of finish. */
  ghost predicate Closable(s: Session) {
    Reachable(s) && s.th.l.Select? && s.bc.owner.None? && s.bc.stream.Live()
  }

  /** The handler is about to read the body of a response that is recorded. */
  ghost predicate Readable(s: Session) {
    Closable(s) && s.th.h == InBody(Reading) && !s.rc.cached && s.bc.complete.None?
  }

  /** What one thread reaches alone is reachable. */
  lemma ReachAlone(who: Refinement.Actor, s: Session, t: Session)
    requires Reachable(s) && Refinement.Reaches(who, s, t)
    ensures Reachable(t)
  {
    hide Step, Run;
    var schedule :| Run(schedule) == s;
    var actions :| Refinement.ActsOnly(who, actions) && Progress.Exec(s, actions) == t;
    Progress.RunThenExec(schedule, actions);
  }

  lemma MoreData(s: Session) returns (t: Session)
    requires Readable(s)
    ensures Readable(t) && t.bc.stream.wire == s.bc.stream.wire + [Data]
  {
    hide Reachable, Refinement.Reaches;
    t := Refinement.ReadIsSteps(s, Chunk([0], More), ResponseBody.Link(false, true, true, true, true));
    ReachAlone(Refinement.TheHandler, s, t);
  }

  lemma AllRead(s: Session) returns (t: Session)
    requires Readable(s)
    ensures Closable(t) && t.bc.stream.wire == s.bc.stream.wire + [AllData]
  {
    hide Reachable;
    t := Reach(s, ByHandler(AT_EOF));
    t := Reach(t, ByHandler(GO));
    t := Reach(t, ByHandler(GO));
  }

  lemma Close(s: Session) returns (t: Session)
    requires Closable(s)
    ensures Reachable(t) && |t.bc.stream.wire| == |s.bc.stream.wire| + 1 && t.bc.stream.wire[..|s.bc.stream.wire|] == s.bc.stream.wire
    ensures t.bc.stream.wire[|s.bc.stream.wire|].Completed?
  {
    hide Reachable;
    t := Reach(s, ClientLeaves);
    t := Reach(t, ByLoop(OnClientGone, GO));
    t := Reach(t, ByLoop(OnDone, GO));
    if t.bc.complete.None? { t := Canceled(t); } else { t := Reach(t, ByLoop(OnDone, GO)); }
    t := Reach(t, ByLoop(OnDone, GO));
  }

  /** Every legal sequence of frames occurs: the wire language allows no less than it forbids. */
  lemma {:induction false} EveryLegalWireOccurs(w: seq<ControllerFrame>) returns (s: Session)
    requires Legal(w)
    ensures Reachable(s) && Alike(s.bc.stream.wire, w)
    ensures C.Scan(w).Running? ==> Readable(s)
    ensures !C.Scan(w).Finished? ==> Closable(s)
  {
    hide Legal, C.Scan, Reachable;
    ScanIsLegal(w);
    if w == [] {
      s := Start();
    } else {
      var init, f := w[..|w| - 1], w[|w| - 1];
      assert w == init + [f];
      LegalAppended(init, f);
      ScanIsLegal(init);
      var u := EveryLegalWireOccurs(init);
      match f
      case New => s := Responding();
      case Data => s := MoreData(u);
      case AllData => s := AllRead(u);
      case Completed(_, _) => s := Close(u);
    }
  }
}
