/** What every run of a session guarantees, whatever the schedule, the peers and the client do. */
module SessionTheorems {
  import opened Frames
  import opened Session
  import C = ControllerProtocol
  import W = WriterProtocol
  import R = Reporting
  import Growth

  // ---------- the wire of the browser controller ----------

  /** New comes first, notices follow New or Data without a gap, and Completed comes last. */
  ghost predicate Legal(w: seq<ControllerFrame>) {
    forall i :: 0 <= i < |w| ==> LegalAt(w, i)
  }

  ghost predicate LegalAt(w: seq<ControllerFrame>, i: nat)
    requires i < |w|
  {
    match w[i]
    case New => i == 0
    case Completed(_, _) => i == |w| - 1
    case _ => i > 0 && (w[i - 1].New? || w[i - 1].Data?)
  }

  predicate MayEnd(w: seq<ControllerFrame>, f: ControllerFrame) {
    && (w != [] ==> !w[|w| - 1].Completed?)
    && match f
       case New => w == []
       case Completed(_, _) => true
       case _ => w != [] && (w[|w| - 1].New? || w[|w| - 1].Data?)
  }

  lemma LegalAppended(w: seq<ControllerFrame>, f: ControllerFrame)
    ensures Legal(w + [f]) <==> Legal(w) && MayEnd(w, f)
  {
    var v := w + [f];
    assert v[|w|] == f && forall i :: 0 <= i < |w| ==> v[i] == w[i];
    if Legal(v) {
      assert LegalAt(v, |w|);
      forall i | 0 <= i < |w|
        ensures LegalAt(w, i) && !w[i].Completed?
      {
        assert LegalAt(v, i);
      }
    }
    if Legal(w) && MayEnd(w, f) {
      forall i | 0 <= i < |v|
        ensures LegalAt(v, i)
      {
        if i < |w| { assert LegalAt(w, i); }
      }
    }
  }

  /** The automaton of the invariant accepts exactly the legal wires. */
  lemma {:induction false} ScanIsLegal(w: seq<ControllerFrame>)
    ensures !C.Scan(w).Bad? <==> Legal(w)
    ensures !C.Scan(w).Bad? && w != [] ==>
              C.Scan(w) == match w[|w| - 1]
                           case New => C.Running
                           case Data => C.Running
                           case AllData => C.AllSeen
                           case Completed(_, _) => C.Finished
    ensures w == [] ==> C.Scan(w).Start?
  {
    hide Legal;
    if w == [] {
      LegalEmpty(w);
    } else {
      var init, f := w[..|w| - 1], w[|w| - 1];
      ScanIsLegal(init);
      C.ScanAppend(init, f);
      LegalAppended(init, f);
      assert w == init + [f];
    }
  }

  lemma LegalEmpty(w: seq<ControllerFrame>)
    ensures w == [] ==> Legal(w)
  {
  }

  /** In every run the frames to the browser controller are a prefix of New Data* AllData? Completed,
      or Completed alone. */
  lemma WireLanguage(schedule: seq<Action>)
    ensures Legal(Run(schedule).bc.stream.wire)
  {
    C.Always(schedule);
    ScanIsLegal(Run(schedule).bc.stream.wire);
  }

  /** Completed is sent at most once and nothing ever follows it, however the run goes on. */
  lemma NothingAfterCompleted(schedule: seq<Action>, more: seq<Action>)
    requires exists f :: f in Run(schedule).bc.stream.wire && f.Completed?
    ensures Run(schedule + more).bc.stream.wire == Run(schedule).bc.stream.wire
  {
    var w, v := Run(schedule).bc.stream.wire, Run(schedule + more).bc.stream.wire;
    WireLanguage(schedule + more);
    Growth.Always(schedule, more);
    var i :| 0 <= i < |w| && w[i].Completed?;
    assert v[i] == w[i] && LegalAt(v, i);
  }

  // ---------- the outcome ----------

  /** The first completion message the loop received is the outcome for the rest of the run, and it is
      what Completed reports; a Completed without one carries the canceled-by-browser error. */
  lemma FirstOutcomeWins(schedule: seq<Action>, more: seq<Action>)
    ensures var s, t := Run(schedule), Run(schedule + more);
            && (s.bc.received != [] ==> t.bc.complete == Some(s.bc.received[0]))
            && (s.bc.received == [] <==> s.bc.complete.None?)
            && forall cl, c :: Completed(cl, c) in t.bc.stream.wire ==>
                 if t.bc.received != [] then cl == t.bc.received[0].log else cl.error == CANCELED_BY_BROWSER
  {
    C.Always(schedule);
    C.Always(schedule + more);
    Growth.Always(schedule, more);
    var w := Run(schedule + more).bc.stream.wire;
    WireLanguage(schedule + more);
    ScanIsLegal(w);
    forall cl, c | Completed(cl, c) in w
      ensures w[|w| - 1] == Completed(cl, c)
    {
      var i :| 0 <= i < |w| && w[i] == Completed(cl, c);
      assert LegalAt(w, i);
    }
  }

  // ---------- the archive ----------

  /** At most one Meta or Cancel is ever attempted, and the stream is closed only after that attempt. */
  lemma OneTerminal(schedule: seq<Action>)
    ensures var w := Run(schedule).cw;
            && Terminals(w.stream.wire) <= w.gate.tries <= 1
            && !(HasMeta(w.stream.wire) && HasCancel(w.stream.wire))
            && (w.stream.closed ==> w.gate.tries == 1)
  {
    W.Always(schedule);
    MetaIsTerminal(Run(schedule).cw.stream.wire);
  }

  /** A Meta frame gives the exact length and digest of all that is transmitted for the response,
      before it and in the whole run, and of the request if its body was at EOF when SendMeta began. */
  lemma MetaIsFaithful(schedule: seq<Action>, i: nat)
    requires i < |Run(schedule).cw.stream.wire| && Run(schedule).cw.stream.wire[i].Meta?
    ensures var s := Run(schedule);
            var w := s.cw.stream.wire;
            && Describes(w[i].records, w[..i], s.hist.metaDrained)
            && Describes(w[i].records, w, s.hist.metaDrained)
  {
    hide Describes;
    W.Always(schedule);
  }

  /** The content writer's acknowledgement follows a Meta frame, on a stream that was never cancelled. */
  lemma Acknowledged(schedule: seq<Action>)
    requires Run(schedule).cw.acked
    ensures var w := Run(schedule).cw.stream;
            w.closed && HasMeta(w.wire) && !HasCancel(w.wire) && Terminals(w.wire) == 1
  {
    W.Always(schedule);
    OneTerminal(schedule);
    MetaIsTerminal(Run(schedule).cw.stream.wire);
  }

  /** Archive before report: as soon as the outcome of a session that was not answered from the cache is
      a success, and hence whenever Completed reports it, the archive has acknowledged a Meta frame, no
      Cancel was sent, and the log's size and digest are those of every response byte transmitted. */
  lemma ArchiveBeforeReport(schedule: seq<Action>)
    requires var s := Run(schedule); !s.rc.cached && s.bc.complete.Some? && s.bc.complete.value.err.None?
    ensures var s := Run(schedule);
            var w, log := s.cw.stream.wire, s.bc.complete.value.log;
            && s.cw.acked && s.cw.stream.closed && !HasCancel(w) && Terminals(w) == 1
            && log.size == |Sent(w, RESPONSE)| && log.digest == Sha1(Sent(w, RESPONSE))
            && (exists i :: 0 <= i < |w| && w[i].Meta?)
            && (forall i :: 0 <= i < |w| && w[i].Meta? ==>
                  RESPONSE in w[i].records && w[i].records[RESPONSE] == RecordMeta(log.size, log.digest))
  {
    hide Faithful, Sent;
    var s := Run(schedule);
    var w, log := s.cw.stream.wire, s.bc.complete.value.log;
    SuccessIsSaved(schedule);
    Acknowledged(schedule);
    RecordedIsSent(schedule);
    var f :| f in w && f.Meta?;
    var j :| 0 <= j < |w| && w[j] == f;
    forall i | 0 <= i < |w| && w[i].Meta?
      ensures RESPONSE in w[i].records && w[i].records[RESPONSE] == RecordMeta(log.size, log.digest)
    {
      MetaIsFaithful(schedule, i);
    }
  }

  lemma SuccessIsSaved(schedule: seq<Action>)
    requires var s := Run(schedule); s.bc.complete.Some? && s.bc.complete.value.err.None?
    ensures var s := Run(schedule);
            R.Saved(s.bc.complete.value.log, s.rc.resp, s.rc.cached, s.hist.prologLen, s.cw.acked)
  {
    C.Always(schedule);
    R.Always(schedule);
    var s := Run(schedule);
    assert s.bc.complete.value in s.bc.received;
  }

  /** Once Meta is on the wire, the response's running size and hash are those of what was transmitted. */
  lemma RecordedIsSent(schedule: seq<Action>)
    requires HasMeta(Run(schedule).cw.stream.wire)
    ensures var s := Run(schedule);
            s.rc.resp.hashed == Sent(s.cw.stream.wire, RESPONSE) && s.rc.resp.size == |Sent(s.cw.stream.wire, RESPONSE)|
  {
    hide Faithful, Sent;
    W.Always(schedule);
  }

  /** The frame on the wire: a Completed that reports a success reports what was archived. */
  lemma CompletedReportsArchive(schedule: seq<Action>, cl: CrawlLog, c: bool)
    requires var s := Run(schedule); !s.rc.cached && s.bc.complete.Some? && s.bc.complete.value.err.None?
    requires Completed(cl, c) in Run(schedule).bc.stream.wire
    ensures var s := Run(schedule); s.cw.acked && cl.size == |Sent(s.cw.stream.wire, RESPONSE)|
  {
    ArchiveBeforeReport(schedule);
    FirstOutcomeWins(schedule, []);
    assert schedule + [] == schedule;
  }

  /** A session answered from the cache puts nothing about the response on either wire, and its log's
      size is the length of the response prolog. */
  lemma CachedSession(schedule: seq<Action>)
    requires Run(schedule).rc.cached
    ensures var s := Run(schedule);
            && OnlyRequest(s.cw.stream.wire)
            && Data !in s.bc.stream.wire && AllData !in s.bc.stream.wire
            && (s.bc.complete.Some? && s.bc.complete.value.err.None? ==>
                  s.bc.complete.value.log.size == s.hist.prologLen)
  {
    hide Faithful, Sent;
    W.Always(schedule);
    C.Always(schedule);
    if Run(schedule).bc.complete.Some? && Run(schedule).bc.complete.value.err.None? {
      SuccessIsSaved(schedule);
    }
  }

  /** Error codes in the client's header. A code taken from an earlier outcome is that outcome's code. A
      code that SendRequestError handed over itself is the outcome's, and the error and the status code
      that Completed carries, in every run in which the controller has not cancelled. */
  lemma ClientIsTold(schedule: seq<Action>)
    ensures var s := Run(schedule);
            && (s.hist.header.Early? ==> s.bc.complete.Some? && s.bc.complete.value.err == Some(s.hist.header.code))
            && (s.hist.header.Posted? && !s.hist.aborted ==>
                  && s.bc.complete.Some? && s.bc.complete.value.err == Some(s.hist.header.code)
                  && forall cl, c :: Completed(cl, c) in s.bc.stream.wire ==>
                       cl.status == s.hist.header.code && cl.error == s.hist.header.code)
  {
    C.Always(schedule);
    FirstOutcomeWins(schedule, []);
    assert schedule + [] == schedule;
  }
}
