/** All sessions of the proxy: many connections, each carrying one request after another, the record
    context slot of each connection, and the two global counters of sessions. */
module Proxy {
  import opened Frames
  import opened Session
  import E = Effects
  import Growth
  import Progress

  /** A session and the connection it belongs to. */
  datatype Entry = Entry(conn: nat, s: Session)

  /** Sessions in the order of their creation. A connection in `slots` holds that session's record context. */
  datatype Proxy = Proxy(sessions: seq<Entry>, slots: map<nat, nat>, sess: nat, closedSess: nat)

  datatype Event =
    | Open(conn: nat)
    | Act(id: nat, a: Action)

  function Empty(): Proxy {
    Proxy([], map[], 0, 0)
  }

  /** A session's step sees the slot of its own connection. */
  function Seeing(e: Env, slot: bool): Env {
    e.(slot := slot)
  }

  function Observed(a: Action, slot: bool): Action {
    match a
    case ByHandler(e) => ByHandler(Seeing(e, slot))
    case ByTransport(e) => ByTransport(Seeing(e, slot))
    case ByLoop(pick, e) => ByLoop(pick, Seeing(e, slot))
    case ByReceiver(e) => ByReceiver(Seeing(e, slot))
    case ByDisconnect(e) => ByDisconnect(Seeing(e, slot))
    case _ => a
  }

  /** The interceptor has returned; only then does the connection read its next request. */
  predicate Returned(s: Session) {
    s.th.h == InClose(Ended)
  }

  predicate Idle(p: Proxy, conn: nat) {
    forall id :: 0 <= id < |p.sessions| && p.sessions[id].conn == conn ==> Returned(p.sessions[id].s)
  }

  /** ContextInitFilter.Apply: NewRecordContext and SetRecordContext. */
  function OpenStep(p: Proxy, conn: nat): Proxy {
    if !Idle(p, conn) then p
    else Proxy(p.sessions + [Entry(conn, Init())], p.slots[conn := |p.sessions|], p.sess + 1, p.closedSess)
  }

  /** One step of session `id`; finish clears the connection's slot and then counts the session as closed. */
  function ActStep(p: Proxy, id: nat, a: Action): Proxy
    requires id < |p.sessions|
  {
    var conn, s := p.sessions[id].conn, p.sessions[id].s;
    var t := Step(s, Observed(a, conn in p.slots));
    Proxy(p.sessions[id := Entry(conn, t)],
          if s.th.l.Clear? && t.th.l.Count? then p.slots - {conn} else p.slots,
          p.sess,
          if s.th.l.Count? && t.th.l.CancelCtx? then p.closedSess + 1 else p.closedSess)
  }

  function PStep(p: Proxy, ev: Event): Proxy {
    match ev
    case Open(conn) => OpenStep(p, conn)
    case Act(id, a) => if id < |p.sessions| then ActStep(p, id, a) else p
  }

  function PRun(events: seq<Event>): Proxy {
    if events == [] then Empty() else PStep(PRun(events[..|events| - 1]), events[|events| - 1])
  }

  // ---------- the life of one session, as the connection sees it ----------

  /** finish has not yet cleared the slot. */
  predicate Owns(s: Session) {
    !s.th.l.Count? && !s.th.l.CancelCtx? && !s.th.l.LEnded?
  }

  /** The session has been counted as closed. */
  predicate Counted(s: Session) {
    s.th.l.CancelCtx? || s.th.l.LEnded?
  }

  /** How a step moves on: an owner that sees its slot set stays owner until it clears the slot, it is
      counted once, and the interceptor returns only when the slot is clear or the session is over. */
  ghost predicate Moves(s: Session, t: Session, slot: bool) {
    && (Owns(s) && slot ==> Owns(t) || (s.th.l.Clear? && t.th.l.Count?))
    && (!Owns(s) ==> !Owns(t))
    && (s.th.l.Count? && !t.th.l.Count? ==> t.th.l.CancelCtx?)
    && (t.th.l.CancelCtx? ==> s.th.l.Count? || s.th.l.CancelCtx?)
    && (Counted(s) ==> Counted(t))
    && (Returned(s) ==> Returned(t))
    && (Returned(t) && !Returned(s) ==> t.th.l == s.th.l && (!slot || s.th.l.LEnded?))
  }

  lemma HandlerMoves(s: Session, e: Env)
    requires Progress.Tidy(s)
    ensures Moves(s, HandlerStep(s, e), e.slot)
  {
    hide RegisterStep, RequestStep, ResponseStep, BodyStep, MetaStep, ReportStep, FailStep, CancelStep, HandlerStep;
    Growth.ByHandler(s, e);
    Returning(s, e);
  }

  lemma Returning(s: Session, e: Env)
    ensures var t := HandlerStep(s, e);
            && (Returned(s) ==> Returned(t))
            && (Returned(t) && !Returned(s) ==> !e.slot || s.bc.ctxDone)
  {
    hide RegisterStep, RequestStep, ResponseStep, BodyStep, MetaStep, ReportStep, FailStep, CancelStep;
    match s.th.h
    case InClose(pc) =>
    case _ => NotReturning(s, e);
  }

  lemma NotReturning(s: Session, e: Env)
    requires !s.th.h.InClose?
    ensures !Returned(HandlerStep(s, e))
  {
    hide SendB, SendW, Try, CloseW;
  }

  lemma LoopMoves(s: Session, pick: Pick, e: Env)
    ensures Moves(s, LoopStep(s, pick, e), e.slot)
  {
  }

  lemma StepMoves(s: Session, a: Action, slot: bool)
    requires Progress.Tidy(s)
    ensures Moves(s, Step(s, Observed(a, slot)), slot)
  {
    hide HandlerStep, TransportStep, LoopStep, CancelStep;
    match Observed(a, slot)
    case ByHandler(e) => HandlerMoves(s, e);
    case ByTransport(e) => E.TransportMeans(s, e);
    case ByLoop(pick, e) => LoopMoves(s, pick, e);
    case _ =>
  }

  // ---------- the invariant of the whole proxy ----------

  function CountedIds(sessions: seq<Entry>): set<nat> {
    set id: nat | id < |sessions| && Counted(sessions[id].s)
  }

  /** An owner's connection holds it, and its handler has not returned. */
  ghost predicate Placed(e: Entry, id: nat, slots: map<nat, nat>) {
    Progress.Tidy(e.s) && (Owns(e.s) ==> e.conn in slots && slots[e.conn] == id && !Returned(e.s))
  }

  ghost predicate AllPlaced(p: Proxy) {
    forall id :: 0 <= id < |p.sessions| ==> Placed(p.sessions[id], id, p.slots)
  }

  ghost predicate SlotsHeld(p: Proxy) {
    forall c :: c in p.slots ==>
      p.slots[c] < |p.sessions| && p.sessions[p.slots[c]].conn == c && Owns(p.sessions[p.slots[c]].s)
  }

  /** Of the sessions of a connection, all but the newest have returned. */
  ghost predicate OneAtATime(sessions: seq<Entry>) {
    forall i, j :: 0 <= i < j < |sessions| && sessions[i].conn == sessions[j].conn ==> Returned(sessions[i].s)
  }

  ghost predicate Inv(p: Proxy) {
    && AllPlaced(p) && SlotsHeld(p) && OneAtATime(p.sessions)
    && p.sess == |p.sessions| && p.closedSess == |CountedIds(p.sessions)|
  }

  lemma OpenKept(p: Proxy, conn: nat)
    requires Inv(p)
    ensures Inv(OpenStep(p, conn)) && CountedIds(p.sessions) == CountedIds(OpenStep(p, conn).sessions)
    ensures Idle(p, conn) ==> conn !in p.slots
  {
    hide Owns, Counted, Progress.Tidy;
    var q := OpenStep(p, conn);
    if Idle(p, conn) {
      NewSession();
      assert CountedIds(q.sessions) == CountedIds(p.sessions);
    }
  }

  lemma NewSession()
    ensures Progress.Tidy(Init()) && Owns(Init()) && !Counted(Init()) && !Returned(Init())
  {
  }

  lemma CountKept(p: Proxy, id: nat, a: Action)
    requires Inv(p) && id < |p.sessions|
    ensures var q := ActStep(p, id, a);
            && q.closedSess == |CountedIds(q.sessions)|
            && CountedIds(p.sessions) <= CountedIds(q.sessions)
  {
    hide Step, Progress.Tidy, Observed;
    var e, q := p.sessions[id], ActStep(p, id, a);
    assert Placed(e, id, p.slots);
    StepMoves(e.s, a, e.conn in p.slots);
    if Counted(q.sessions[id].s) && !Counted(e.s) {
      assert CountedIds(q.sessions) == CountedIds(p.sessions) + {id};
    } else {
      assert CountedIds(q.sessions) == CountedIds(p.sessions);
    }
  }

  lemma ActKept(p: Proxy, id: nat, a: Action)
    requires Inv(p) && id < |p.sessions|
    ensures Inv(ActStep(p, id, a))
  {
    hide Step, Progress.Tidy, Observed, CountedIds, Counted;
    var e := p.sessions[id];
    var slot := e.conn in p.slots;
    assert Placed(e, id, p.slots);
    StepMoves(e.s, a, slot);
    Progress.TidyStep(e.s, Observed(a, slot));
    CountKept(p, id, a);
  }

  lemma {:induction false} Always(events: seq<Event>)
    ensures Inv(PRun(events))
  {
    hide OpenStep, ActStep, Inv;
    if events == [] {
      NothingOpen();
    } else {
      var init, ev := events[..|events| - 1], events[|events| - 1];
      Always(init);
      match ev
      case Open(conn) => OpenKept(PRun(init), conn);
      case Act(id, a) => if id < |PRun(init).sessions| { ActKept(PRun(init), id, a); }
    }
  }

  lemma NothingOpen()
    ensures Inv(Empty())
  {
    assert CountedIds([]) == {};
  }

  // ---------- what every run of the proxy guarantees ----------

  /** Sessions that have been created and not yet counted as closed. */
  function OpenIds(p: Proxy): set<nat> {
    set id: nat | id < |p.sessions| && !Counted(p.sessions[id].s)
  }

  function Below(n: nat): (ids: set<nat>)
    ensures |ids| == n && forall id: nat :: id in ids <==> id < n
  {
    if n == 0 then {} else Below(n - 1) + {n - 1}
  }

  /** closedSess never exceeds sess, and their difference is exactly the number of open sessions. */
  lemma Accounting(events: seq<Event>)
    ensures var p := PRun(events); p.closedSess <= p.sess && p.sess - p.closedSess == |OpenIds(p)|
  {
    hide PRun;
    Always(events);
    var p := PRun(events);
    var all, open := Below(|p.sessions|), OpenIds(p);
    assert all == CountedIds(p.sessions) + open && CountedIds(p.sessions) !! open;
  }

  lemma GrowthOf(p: Proxy, ev: Event)
    requires Inv(p)
    ensures var q := PStep(p, ev);
            && p.sess <= q.sess && p.closedSess <= q.closedSess && CountedIds(p.sessions) <= CountedIds(q.sessions)
  {
    hide Inv, CountedIds, OpenIds, Step;
    match ev
    case Open(conn) => OpenKept(p, conn);
    case Act(id, a) => if id < |p.sessions| { CountKept(p, id, a); }
  }

  /** A session that has been counted stays counted: no session is counted twice. */
  lemma {:induction false} CountedOnce(events: seq<Event>, more: seq<Event>)
    ensures var p, q := PRun(events), PRun(events + more);
            && p.sess <= q.sess && p.closedSess <= q.closedSess
            && CountedIds(p.sessions) <= CountedIds(q.sessions)
            && q.closedSess - p.closedSess == |CountedIds(q.sessions) - CountedIds(p.sessions)|
  {
    hide PStep, Inv, CountedIds;
    if more == [] {
      assert events + more == events;
    } else {
      var init := more[..|more| - 1];
      CountedOnce(events, init);
      Always(events + init);
      GrowthOf(PRun(events + init), more[|more| - 1]);
      assert (events + more)[..|events + more| - 1] == events + init;
    }
    Always(events);
    Always(events + more);
    CountsAgree(PRun(events), PRun(events + more));
  }

  lemma CountsAgree(p: Proxy, q: Proxy)
    requires Inv(p) && Inv(q) && CountedIds(p.sessions) <= CountedIds(q.sessions)
    ensures q.closedSess - p.closedSess == |CountedIds(q.sessions) - CountedIds(p.sessions)|
  {
    var a, b := CountedIds(p.sessions), CountedIds(q.sessions);
    assert b == a + (b - a);
  }

  /** The slot of the session's connection holds the session. */
  predicate HasSlot(p: Proxy, id: nat)
    requires id < |p.sessions|
  {
    p.sessions[id].conn in p.slots && p.slots[p.sessions[id].conn] == id
  }

  /** Sessions on one connection never overlap: when a request arrives the slot is free, and from then until
      its own finish clears it, the slot holds that session and the interceptor has not returned. */
  lemma NoOverlap(events: seq<Event>)
    ensures var p := PRun(events);
            && (forall conn :: Idle(p, conn) ==> conn !in p.slots)
            && (forall i, j :: 0 <= i < j < |p.sessions| && p.sessions[i].conn == p.sessions[j].conn ==>
                  Returned(p.sessions[i].s))
            && (forall id :: 0 <= id < |p.sessions| && Owns(p.sessions[id].s) ==>
                  HasSlot(p, id) && !Returned(p.sessions[id].s))
  {
    Always(events);
    var p := PRun(events);
    forall conn | Idle(p, conn) ensures conn !in p.slots {
      OpenKept(p, conn);
    }
    forall id | 0 <= id < |p.sessions| && Owns(p.sessions[id].s)
      ensures HasSlot(p, id) && !Returned(p.sessions[id].s)
    {
      assert Placed(p.sessions[id], id, p.slots);
    }
  }

  /** The interceptor is about to say that the response is completed. It returns at once, without waiting for anything,
      exactly if finish has cleared the connection's slot; otherwise it goes on to its send on done. */
  lemma ReturnsAtOnceIff(events: seq<Event>, id: nat, e: Env)
    requires id < |PRun(events).sessions| && PRun(events).sessions[id].s.th.h.InClose?
    requires PRun(events).sessions[id].s.th.h.close.Closing?
    ensures var s, q := PRun(events).sessions[id].s, PRun(events + [Act(id, ByHandler(e))]);
            && |q.sessions| == |PRun(events).sessions|
            && (Returned(q.sessions[id].s) <==> !Owns(s))
            && (Owns(s) ==> q.sessions[id].s.th.h == InClose(DoneSend(s.th.h.close.writeErr)))
  {
    hide Inv, Step, Owns;
    var p, a := PRun(events), Action.ByHandler(e);
    assert (events + [Act(id, a)])[..|events|] == events;
    Always(events);
    SlotIsOwn(p, id);
    ClosingStep(p.sessions[id].s, Observed(a, p.sessions[id].conn in p.slots));
  }

  /** A session whose interceptor has not returned owns the connection's slot, if that is set. */
  lemma SlotIsOwn(p: Proxy, id: nat)
    requires Inv(p) && id < |p.sessions| && !Returned(p.sessions[id].s)
    ensures p.sessions[id].conn in p.slots <==> Owns(p.sessions[id].s)
  {
    hide Owns, Progress.Tidy;
    var conn := p.sessions[id].conn;
    assert Placed(p.sessions[id], id, p.slots);
    assert conn in p.slots ==> Placed(p.sessions[p.slots[conn]], p.slots[conn], p.slots);
  }

  lemma ClosingStep(s: Session, a: Action)
    requires s.th.h.InClose? && s.th.h.close.Closing? && a.ByHandler?
    ensures Step(s, a).th.h == InClose(if a.e.slot then DoneSend(s.th.h.close.writeErr) else Ended)
  {
  }

  /** The event installs a new session in a free slot, or clears the slot of the session that acts. */
  predicate OwnChange(p: Proxy, ev: Event, slots: map<nat, nat>) {
    match ev
    case Open(conn) => conn !in p.slots && slots == p.slots[conn := |p.sessions|]
    case Act(id, _) => id < |p.sessions| && HasSlot(p, id) && slots == p.slots - {p.sessions[id].conn}
  }

  /** finish only ever clears its own session: no event changes the slots in any other way than its own. */
  lemma ClearsOwnSlot(events: seq<Event>, ev: Event)
    requires PRun(events + [ev]).slots != PRun(events).slots
    ensures OwnChange(PRun(events), ev, PRun(events + [ev]).slots)
  {
    hide Step, Observed;
    assert (events + [ev])[..|events|] == events;
    Always(events);
    var p := PRun(events);
    match ev
    case Open(conn) => OpenKept(p, conn);
    case Act(id, a) => assert Placed(p.sessions[id], id, p.slots);
  }

  /** Every session of the proxy is a run of a single session, so all theorems about runs apply to it. */
  lemma {:induction false} EverySessionIsARun(events: seq<Event>, id: nat)
    requires id < |PRun(events).sessions|
    ensures exists schedule :: PRun(events).sessions[id].s == Run(schedule)
  {
    hide Step, Observed, Idle;
    var init, ev := events[..|events| - 1], events[|events| - 1];
    var p, q := PRun(init), PRun(events);
    if id < |p.sessions| {
      EverySessionIsARun(init, id);
      var schedule :| p.sessions[id].s == Run(schedule);
      if ev.Act? && ev.id == id {
        var next := schedule + [Observed(ev.a, p.sessions[id].conn in p.slots)];
        assert next[..|next| - 1] == schedule;
        assert q.sessions[id].s == Run(next);
      } else {
        assert q.sessions[id] == p.sessions[id];
      }
    } else {
      assert q.sessions[id].s == Run([]);
    }
  }

  /** RecorderProxy.Close compares two counters that it reads one after the other. Had it read closedSess
      first, a difference of zero would mean that no session was open at either reading. */
  lemma ClosedReadFirst(events: seq<Event>, more: seq<Event>)
    requires PRun(events + more).sess - PRun(events).closedSess <= 0
    ensures OpenIds(PRun(events)) == OpenIds(PRun(events + more)) == {}
  {
    hide PRun, OpenIds;
    CountedOnce(events, more);
    Accounting(events);
    Accounting(events + more);
  }

  // ---------- the order in which Close reads the counters ----------

  /** The expression in OpenSessions names sess first. What it yields is the number of sessions that are open
      at the second reading, less those created between the two readings. */
  lemma ReadInOrder(events: seq<Event>, more: seq<Event>)
    ensures var p, q := PRun(events), PRun(events + more);
            && p.sess <= q.sess
            && p.sess - q.closedSess == |OpenIds(q)| - (q.sess - p.sess)
  {
    hide PRun, OpenIds;
    CountedOnce(events, more);
    Accounting(events + more);
  }

  /** Of the sessions that existed at the first reading, those that are open at the second. */
  function StillOpen(p: Proxy, q: Proxy): set<nat> {
    Below(|p.sessions|) * OpenIds(q)
  }

  /** Of the sessions created between the readings, those that are already counted as closed at the second. */
  function NewlyClosed(p: Proxy, q: Proxy): set<nat> {
    CountedIds(q.sessions) - Below(|p.sessions|)
  }

  /** A new session that has already closed hides an old one that has not: the difference is what is left when the ones
      are set off against the others. */
  lemma Hidden(events: seq<Event>, more: seq<Event>)
    ensures var p, q := PRun(events), PRun(events + more);
            p.sess - q.closedSess == |StillOpen(p, q)| - |NewlyClosed(p, q)|
  {
    hide PRun, Inv;
    Always(events);
    Always(events + more);
    CountedOnce(events, more);
    var p, q := PRun(events), PRun(events + more);
    InvCounts(p);
    InvCounts(q);
    Uncounted(p, q);
    SetOff(Below(|p.sessions|), CountedIds(q.sessions));
  }

  lemma InvCounts(p: Proxy)
    requires Inv(p)
    ensures p.sess == |p.sessions| && p.closedSess == |CountedIds(p.sessions)|
  {
  }

  lemma Uncounted(p: Proxy, q: Proxy)
    requires |p.sessions| <= |q.sessions|
    ensures StillOpen(p, q) == Below(|p.sessions|) - CountedIds(q.sessions)
  {
    hide Counted;
  }

  lemma SetOff(a: set<nat>, b: set<nat>)
    ensures |a| - |b| == |a - b| - |b - a|
  {
    assert a == (a - b) + (a * b) && b == (b - a) + (a * b);
  }

  /** When Close stops waiting, at a difference that is not positive, no session that it found at the first reading is
      still open exactly if the difference is, up to its sign, the number of later sessions that have closed already;
      and none is open at all exactly if moreover these are all the later ones. At a difference of zero this means
      that none was created in between. */
  lemma CloseIsRightIff(events: seq<Event>, more: seq<Event>)
    requires PRun(events).sess - PRun(events + more).closedSess <= 0
    ensures var p, q := PRun(events), PRun(events + more);
            var missed := q.closedSess - p.sess;
            && (StillOpen(p, q) == {} <==> |NewlyClosed(p, q)| == missed)
            && (OpenIds(q) == {} <==> |NewlyClosed(p, q)| == missed == q.sess - p.sess)
            && (missed == 0 ==> (OpenIds(q) == {} <==> q.sess == p.sess))
            && (q.sess == p.sess ==> OpenIds(q) == {})
  {
    hide PRun, OpenIds, StillOpen, NewlyClosed;
    var p, q := PRun(events), PRun(events + more);
    ReadInOrder(events, more);
    Hidden(events, more);
    if OpenIds(q) == {} { NoneStill(p, q); }
  }

  lemma NoneStill(p: Proxy, q: Proxy)
    requires OpenIds(q) == {}
    ensures StillOpen(p, q) == {}
  {
    hide OpenIds;
  }

  const GO := Env(true, [], More, 0, false, true)

  /** Session 1, alone on connection 1, takes a step beside session 0. */
  lemma Drive(events: seq<Event>, a: Action) returns (next: seq<Event>)
    requires |PRun(events).sessions| == 2 && PRun(events).sessions[1].conn == 1
    ensures var p, q := PRun(events), PRun(next);
            var s, t := p.sessions[1].s, Step(p.sessions[1].s, Observed(a, 1 in p.slots));
            && next == events + [Act(1, a)]
            && q.sessions == [p.sessions[0], Entry(1, t)] && q.sess == p.sess
            && (1 in q.slots <==> 1 in p.slots && !(s.th.l.Clear? && t.th.l.Count?))
            && q.closedSess == p.closedSess + if s.th.l.Count? && t.th.l.CancelCtx? then 1 else 0
  {
    hide Step, Observed;
    next := events + [Act(1, a)];
    assert next[..|events|] == events;
    assert PRun(next).sessions == [PRun(events).sessions[0], PRun(next).sessions[1]];
  }

  lemma TwoOpen() returns (events: seq<Event>)
    ensures |events| == 2 && events[..1] == [Open(0)] && PRun(events[..1]).sess == 1
    ensures PRun(events) == Proxy([Entry(0, Init()), Entry(1, Init())], map[0 := 0, 1 := 1], 2, 0)
  {
    hide Init;
    events := [Open(0), Open(1)];
    assert events[..1] == [Open(0)] && events[..1][..0] == [];
    assert PRun(events[..1]) == Proxy([Entry(0, Init())], map[0 := 0], 1, 0);
    assert PRun(events).sessions == [Entry(0, Init()), Entry(1, Init())];
  }

  /** Session 1's peer ends the stream and its client leaves; finish has taken `b.m`. */
  lemma Cancelled() returns (events: seq<Event>)
    ensures |events| >= 2 && events[..1] == [Open(0)] && PRun(events[..1]).sess == 1
    ensures var p := PRun(events);
            && |p.sessions| == 2 && p.sessions[0] == Entry(0, Init()) && p.sessions[1].conn == 1
            && 1 in p.slots && p.closedSess == 0
            && p.sessions[1].s.th == Init().th.(l := Held) && p.sessions[1].s.bc.complete.None?
            && p.sessions[1].s.bc.peer == Peer([], Some(Orderly), false)
  {
    events := TwoOpen();
    events := Drive(events, PeerEnds(Orderly));
    events := Drive(events, ClientLeaves);
    events := Drive(events, ByLoop(OnClientGone, GO));
    events := Drive(events, ByLoop(OnDone, GO));
  }

  /** finish has sent Completed and waits for the receiver. */
  lemma Leaving() returns (events: seq<Event>)
    ensures |events| >= 2 && events[..1] == [Open(0)] && PRun(events[..1]).sess == 1
    ensures var p := PRun(events);
            && |p.sessions| == 2 && p.sessions[0] == Entry(0, Init()) && p.sessions[1].conn == 1
            && 1 in p.slots && p.closedSess == 0
            && p.sessions[1].s.th == Init().th.(l := Drain, r := RClose)
  {
    events := Draining();
    events := Drive(events, ByReceiver(GO));
    events := Drive(events, ByReceiver(GO));
  }

  lemma Draining() returns (events: seq<Event>)
    ensures |events| >= 2 && events[..1] == [Open(0)] && PRun(events[..1]).sess == 1
    ensures var p := PRun(events);
            && |p.sessions| == 2 && p.sessions[0] == Entry(0, Init()) && p.sessions[1].conn == 1
            && 1 in p.slots && p.closedSess == 0
            && p.sessions[1].s.th == Init().th.(l := Drain)
            && p.sessions[1].s.bc.peer == Peer([], Some(Orderly), false)
  {
    events := Cancelled();
    events := Drive(events, ByLoop(OnDone, GO));
    events := Drive(events, ByLoop(OnDone, GO));
    events := Drive(events, ByLoop(OnDone, GO));
    events := Drive(events, ByLoop(OnDone, GO));
  }

  /** finish has cleared the slot of session 1 and is about to count it. */
  lemma Counting() returns (events: seq<Event>)
    ensures |events| >= 2 && events[..1] == [Open(0)] && PRun(events[..1]).sess == 1
    ensures var p := PRun(events);
            && |p.sessions| == 2 && p.sessions[0] == Entry(0, Init()) && p.sessions[1].conn == 1
            && p.closedSess == 0 && p.sessions[1].s.th == Init().th.(l := Count, r := REnded)
  {
    events := Leaving();
    events := Drive(events, ByReceiver(GO));
    events := Drive(events, ByLoop(OnDone, GO));
    events := Drive(events, ByLoop(OnDone, GO));
  }

  /** In the order in which the expression in OpenSessions names them, sess first, the difference can be
      zero while a session is open throughout. */
  lemma SessReadFirst() returns (events: seq<Event>, more: seq<Event>)
    ensures PRun(events).sess - PRun(events + more).closedSess <= 0
    ensures 0 in OpenIds(PRun(events)) && 0 in OpenIds(PRun(events + more))
  {
    var all := Counting();
    all := Drive(all, ByLoop(OnDone, GO));
    events, more := all[..1], all[1..];
    assert all == events + more;
    assert PRun([Open(0)]).sessions == [Entry(0, Init())] by {
      assert [Open(0)][..0] == [];
    }
  }
}
