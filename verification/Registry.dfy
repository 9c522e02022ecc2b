/** What every run of the router keeps about its registry: who is in it, who is
    evicted, who is announced. */
module RegistryInv {
  import opened Wrappers
  import opened Bytes
  import opened Utf8
  import opened Frames
  import opened Bodies
  import opened Ids
  import opened DoorRules
  import opened Forwarding
  import opened Router

  /** Not registered yet, or never to be. */
  predicate Early(p: Phase) {
    p.Greeted? || p.Ticketed? || p.Turned?
  }

  /** Between the insertion and the end of the relay loop. */
  predicate Live(p: Phase) {
    p.Inserted? || p.Signalled? || p.Welcomed? || p.Relaying? || p.Listed? || p.Owing? || p.Left?
  }

  /** Past its PEER_CONNECTED fan-out. */
  predicate Announced(p: Phase) {
    !Early(p) && !p.Inserted? && !p.Signalled? && !p.Welcomed?
  }

  /** A task, the registry and the tokens: what each says of the other. */
  ghost predicate SeatOk(s: State, c: Conn, t: Task) {
    && IsId(t.id, s.host) && (t.door ==> Kind(t.id) == BROWSER)
    && (t.fate.Unregistered? <==> Early(t.phase))
    && (!t.phase.Greeted? ==> 1 <= t.ticket <= s.taken)
    && (t.fate.Current? ==> Live(t.phase) && t.id in s.peers && s.peers[t.id] == Peer(c, Token(t.ticket), t.desc))
    && (!t.fate.Unregistered? ==> c in Tenure(s.tenures, t.id))
  }

  /** One PEER_CONNECTED per registration, one PEER_DISCONNECTED per removal. */
  predicate PresenceOk(t: Task) {
    && t.ups == (if Announced(t.phase) then 1 else 0)
    && t.downs == (if t.fate.Removed? && !t.phase.Withdrawn? then 1 else 0)
    && (t.phase.Withdrawn? ==> (t.phase.current <==> t.fate.Removed?))
    && (t.fate.Removed? ==> !Early(t.phase) && !Live(t.phase))
  }

  ghost predicate LocalOk(s: State, c: Conn) {
    c in s.tasks ==> SeatOk(s, c, s.tasks[c]) && PresenceOk(s.tasks[c])
  }

  /** A replaced connection has one eviction: still owed by its heir, or sent. */
  ghost predicate EvictionOk(s: State, c: Conn, t: Task) {
    match t.fate
    case Replaced(d) =>
      && d in s.tasks && d != c && s.tasks[d].id == t.id && !s.tasks[d].door && !Early(s.tasks[d].phase)
      && t.evictions == (if s.tasks[d].phase == Inserted(Some(c)) then 0 else 1)
    case _ => t.evictions == 0
  }

  /** Whoever still owes an eviction owes it to the connection it replaced. */
  ghost predicate DebtOk(s: State, c: Conn, t: Task) {
    t.phase.Inserted? && t.phase.ousted.Some? ==>
      t.phase.ousted.value in s.tasks && s.tasks[t.phase.ousted.value].fate == Replaced(c)
  }

  ghost predicate LinkOk(s: State, c: Conn) {
    c in s.tasks ==> EvictionOk(s, c, s.tasks[c]) && DebtOk(s, c, s.tasks[c])
  }

  ghost predicate LocalsOk(s: State) {
    forall c {:trigger LocalOk(s, c)} :: LocalOk(s, c)
  }

  ghost predicate LinksOk(s: State) {
    forall c {:trigger LinkOk(s, c)} :: LinkOk(s, c)
  }

  /** Every entry belongs to a live connection that registered under that id, with
      that token and descriptor, and last. */
  predicate EntryOk(s: State, x: Str) {
    x in s.peers &&
    var c := s.peers[x].conn;
    && c in s.tasks && s.tasks[c].id == x && s.tasks[c].fate.Current?
    && Tenure(s.tenures, x) != [] && Tenure(s.tenures, x)[|Tenure(s.tenures, x)| - 1] == c
  }

  ghost predicate PeersOk(s: State) {
    forall x | x in s.peers :: EntryOk(s, x)
  }

  ghost predicate TicketsOk(s: State) {
    forall c, d | c in s.tasks && d in s.tasks && c != d && !s.tasks[c].phase.Greeted? && !s.tasks[d].phase.Greeted? ::
      s.tasks[c].ticket != s.tasks[d].ticket
  }

  /** Tenures hold registered connections of their id, each once. */
  ghost predicate TenureOk(s: State, x: Str) {
    var ts := Tenure(s.tenures, x);
    && (forall i | 0 <= i < |ts| :: ts[i] in s.tasks && s.tasks[ts[i]].id == x && !s.tasks[ts[i]].fate.Unregistered?)
    && (forall i, j | 0 <= i < j < |ts| :: ts[i] != ts[j])
  }

  ghost predicate TenuresOk(s: State) {
    forall x {:trigger TenureOk(s, x)} :: TenureOk(s, x)
  }

  ghost predicate Inv(s: State) {
    LocalsOk(s) && LinksOk(s) && PeersOk(s) && TicketsOk(s) && TenuresOk(s)
  }

  // ── steps that leave the registry alone ────────────────────────────────────

  /** Equal but for what is queued. */
  predicate Same(t: Task, t': Task) {
    t'.(queue := t.queue) == t
  }

  /** Only tasks change: task `c` becomes `t`, and queues may grow. */
  ghost predicate Moves(s: State, s': State, c: Conn, t: Task) {
    && s'.(tasks := s.tasks) == s && s'.tasks.Keys == s.tasks.Keys && c in s.tasks
    && Same(t, s'.tasks[c])
    && forall d | d in s.tasks && d != c :: Same(s.tasks[d], s'.tasks[d])
  }

  predicate IsCalm(st: Step) {
    !st.Greet? && !st.Ticket? && !st.Insert? && !st.Signal? && !st.Withdraw?
  }

  /** What such a step does to its own task, queues apart. */
  ghost function Moved(s: State, st: Step): Task
    requires Enabled(s, st) && IsCalm(st)
  {
    var t := s.tasks[st.c];
    match st
    case Welcome(_) => t.(phase := Welcomed)
    case AnnounceUp(_) => t.(phase := Relaying, ups := t.ups + 1)
    case Forward(_, f) => t.(sent := t.sent + [Sent(f, Routes(s, f.to))], phase := if Routes(s, f.to) then Relaying
      else Owing(f.to))
    case TellNoRoute(_) => t.(errors := t.errors + [t.phase.dest], phase := Relaying)
    case List(_, _, es) => t.(phase := Listed(es))
    case Reply(_) => t.(phase := Relaying)
    case Control(_, _) => t
    case Leave(_) => t.(phase := Left)
    case AnnounceDown(_) => t.(phase := Closing, downs := t.downs + if t.phase.current then 1 else 0)
    case Abort(_) => t.(phase := Ended, open := false)
    case WriterFails(_) => t.(open := false)
    case _ => assert false; t
  }

  lemma BroadcastTouches(s: State, except: Str, typ: Byte)
    ensures var s' := Broadcast(s, except, typ);
            && s'.(tasks := s.tasks) == s && s'.tasks.Keys == s.tasks.Keys
            && forall c | c in s.tasks :: Same(s.tasks[c], s'.tasks[c])
  {
    hide RouterFrame, EncodePeer;
  }

  lemma SendTouches(s: State, id: Str, item: Item)
    ensures var s' := SendTo(s, id, item);
            && s'.(tasks := s.tasks) == s && s'.tasks.Keys == s.tasks.Keys
            && forall c | c in s.tasks :: Same(s.tasks[c], s'.tasks[c])
  {
  }

  /** Putting a task and then touching queues moves that task alone. */
  lemma PutThenTouch(s: State, m: State, s': State, c: Conn, t: Task)
    requires c in s.tasks && m == Put(s, c, t)
    requires s'.(tasks := m.tasks) == m && s'.tasks.Keys == m.tasks.Keys
    requires forall d | d in m.tasks :: Same(m.tasks[d], s'.tasks[d])
    ensures Moves(s, s', c, t)
  {
    forall d | d in s.tasks && d != c ensures Same(s.tasks[d], s'.tasks[d]) {
      assert m.tasks[d] == s.tasks[d];
      assert Same(m.tasks[d], s'.tasks[d]);
    }
    assert s'.(tasks := s.tasks) == m.(tasks := s.tasks);
    assert m.tasks[c] == t && Same(m.tasks[c], s'.tasks[c]);
  }

  lemma CalmMoves(s: State, st: Step)
    requires Enabled(s, st) && IsCalm(st)
    ensures Moves(s, Next(s, st), st.c, Moved(s, st)) && st.c in s.tasks
  {
    hide RouterFrame, EncodePeer, EncodeProviders, Originates, IsBrowserHello, IsListing, Broadcast, SendTo, Restamp,
      Moves, Same, Ascii, Routes;
    var c, s' := st.c, Next(s, st);
    var t := s.tasks[c];
    var m := Put(s, c, Moved(s, st));
    SelfTouch(m);
    if st.AnnounceUp? || (st.AnnounceDown? && t.phase.current) {
      BroadcastTouches(m, t.id, if st.AnnounceUp? then PEER_CONNECTED else PEER_DISCONNECTED);
    }
    match st {
      case Forward(_, f) => SendTouches(m, f.to, Item(Restamp(f, t.id), FromConn(c)));
      case TellNoRoute(_) => SendTouches(m, t.id,
        Item(RouterFrame(ERROR, t.id, NoRoute(t.phase.dest)), FromRouter));
      case Reply(_) => SendTouches(m, t.id,
        Item(RouterFrame(PROVIDERS, t.id, EncodeProviders(t.phase.entries)), FromRouter));
      case Control(_, f) =>
        assert m == s by { assert s.tasks[c := t] == s.tasks; }
        SendTouches(m, t.id, Item(Unknown(t.id), FromRouter));
      case Welcome(_) => WelcomeTouches(m, s, c);
      case _ =>
    }
    PutThenTouch(s, m, s', c, Moved(s, st));
  }

  lemma SelfTouch(m: State)
    ensures forall d | d in m.tasks :: Same(m.tasks[d], m.tasks[d])
  {
  }

  lemma WelcomeTouches(m: State, s: State, c: Conn)
    requires c in s.tasks && m == Move(s, c, Welcomed)
    ensures var s' := DoWelcome(s, c);
            && s'.(tasks := m.tasks) == m && s'.tasks.Keys == m.tasks.Keys
            && forall d | d in m.tasks :: Same(m.tasks[d], s'.tasks[d])
  {
    hide RouterFrame;
  }

  /** What a task must keep to itself when it moves calmly. */
  predicate CalmTask(t: Task, t': Task) {
    && t'.id == t.id && t'.door == t.door && t'.desc == t.desc && t'.ticket == t.ticket && t'.fate == t.fate
       && t'.evictions == t.evictions
    && (Early(t.phase) <==> Early(t'.phase)) && (t.phase.Greeted? <==> t'.phase.Greeted?)
    && (t.phase.Inserted? || t'.phase.Inserted? ==> t'.phase == t.phase)
    && (t.fate.Current? ==> Live(t'.phase))
    && PresenceOk(t')
  }

  ghost predicate AllCalm(s: State, s': State) {
    && s'.(tasks := s.tasks) == s && s'.tasks.Keys == s.tasks.Keys
    && forall d | d in s.tasks :: CalmTask(s.tasks[d], s'.tasks[d])
  }

  lemma MovesCalmly(s: State, s': State, c: Conn, t: Task)
    requires LocalsOk(s) && Moves(s, s', c, t) && CalmTask(s.tasks[c], t)
    ensures AllCalm(s, s')
  {
    hide IsId, Kind, Tenure;
    forall d | d in s.tasks ensures CalmTask(s.tasks[d], s'.tasks[d]) {
      assert LocalOk(s, d);
    }
  }

  lemma CalmLocals(s: State, s': State)
    requires LocalsOk(s) && AllCalm(s, s')
    ensures LocalsOk(s')
  {
    hide IsId, Kind, Tenure;
    forall d ensures LocalOk(s', d) {
      assert LocalOk(s, d);
    }
  }

  lemma CalmLinks(s: State, s': State)
    requires LinksOk(s) && AllCalm(s, s')
    ensures LinksOk(s')
  {
    hide PresenceOk, Live;
    forall d ensures LinkOk(s', d) {
      assert LinkOk(s, d);
    }
  }

  lemma CalmPeers(s: State, s': State)
    requires PeersOk(s) && TicketsOk(s) && AllCalm(s, s')
    ensures PeersOk(s') && TicketsOk(s')
  {
    hide PresenceOk, Early, Live, Tenure;
  }

  lemma CalmTenures(s: State, s': State)
    requires TenuresOk(s) && AllCalm(s, s')
    ensures TenuresOk(s')
  {
    hide PresenceOk, Early, Live, Tenure;
    forall x ensures TenureOk(s', x) {
      assert TenureOk(s, x);
    }
  }

  lemma CalmMove(s: State, st: Step)
    requires Enabled(s, st) && IsCalm(st) && st.c in s.tasks
    requires var t := s.tasks[st.c];
             (t.fate.Unregistered? <==> Early(t.phase)) && (t.fate.Current? ==> Live(t.phase)) && PresenceOk(t)
    ensures CalmTask(s.tasks[st.c], Moved(s, st))
  {
    hide Originates, IsListing, IsBrowserHello, Routes, DecodeBrandFilter, OnWire, Restamp;
  }

  lemma TaskFacts(s: State, c: Conn)
    requires LocalOk(s, c) && c in s.tasks
    ensures var t := s.tasks[c];
            (t.fate.Unregistered? <==> Early(t.phase)) && (t.fate.Current? ==> Live(t.phase)) && PresenceOk(t)
  {
    hide IsId, Kind, Tenure, PresenceOk;
  }

  lemma CalmStep(s: State, st: Step)
    requires Inv(s) && Enabled(s, st) && IsCalm(st)
    ensures Inv(Next(s, st))
  {
    hide LocalOk, Enabled, Next, Moved, LinksOk, PeersOk, TicketsOk, TenuresOk, Moves, AllCalm, CalmTask;
    CalmMoves(s, st);
    assert LocalOk(s, st.c);
    TaskFacts(s, st.c);
    hide PresenceOk, Early, Live;
    CalmMove(s, st);
    hide LocalsOk;
    MovesCalmly(s, Next(s, st), st.c, Moved(s, st));
    CalmLocals(s, Next(s, st));
    CalmLinks(s, Next(s, st));
    CalmPeers(s, Next(s, st));
    CalmTenures(s, Next(s, st));
  }

  // ── steps that change the registry ─────────────────────────────────────────

  /** A task not registered yet, or never: nothing refers to it. */
  lemma EarlyIsUnknown(s: State, c: Conn)
    requires Inv(s) && c in s.tasks && s.tasks[c].fate.Unregistered?
    ensures forall x | x in s.peers :: s.peers[x].conn != c
    ensures forall x :: c !in Tenure(s.tenures, x)
    ensures forall d | d in s.tasks && s.tasks[d].fate.Replaced? :: s.tasks[d].fate.heir != c
    ensures forall d | d in s.tasks && s.tasks[d].phase.Inserted? && s.tasks[d].phase.ousted.Some? ::
            s.tasks[d].phase.ousted.value != c
  {
    hide IsId, Kind, Tenure, PresenceOk;
    assert LocalOk(s, c);
    forall x ensures c !in Tenure(s.tenures, x) {
      assert TenureOk(s, x);
    }
    forall d | d in s.tasks
      ensures s.tasks[d].fate.Replaced? ==> s.tasks[d].fate.heir != c
      ensures s.tasks[d].phase.Inserted? && s.tasks[d].phase.ousted.Some? ==> s.tasks[d].phase.ousted.value != c
    {
      assert LinkOk(s, d);
    }
  }

  /** One task replaced by another version of itself, the registry untouched. */
  ghost predicate Swaps(s: State, s': State, c: Conn, t: Task) {
    && s'.host == s.host && s.taken <= s'.taken && s'.peers == s.peers && s'.tenures == s.tenures
    && s'.tasks == s.tasks[c := t]
  }

  /** Enough for a swap of an unregistered task to keep everything. */
  lemma SwapKeeps(s: State, s': State, c: Conn, t: Task)
    requires Inv(s) && Swaps(s, s', c, t)
    requires c in s.tasks ==> s.tasks[c].fate.Unregistered?
    requires t.fate.Unregistered? && t.evictions == 0 && SeatOk(s', c, t) && PresenceOk(t)
    requires TicketsOk(s')
    ensures Inv(s')
  {
    hide IsId, Kind, Tenure, TicketsOk, Live;
    forall d ensures LocalOk(s', d) {
      assert LocalOk(s, d);
    }
    if c in s.tasks { EarlyIsUnknown(s, c); }
    hide SeatOk, PresenceOk, LocalsOk;
    forall d ensures LinkOk(s', d) {
      assert LinkOk(s, d);
    }
    forall x ensures TenureOk(s', x) {
      assert TenureOk(s, x);
    }
  }

  /** A greeting that fails, or an answer sent, touches nothing the invariant sees. */
  lemma AnswerKeeps(s: State, c: Conn, answer: seq<Frame>)
    requires Inv(s)
    ensures Inv(s.(turnedAway := s.turnedAway[c := answer]))
  {
    hide IsId, Kind, Tenure;
    var s' := s.(turnedAway := s.turnedAway[c := answer]);
    forall d ensures LocalOk(s', d) && LinkOk(s', d) {
      assert LocalOk(s, d) && LinkOk(s, d);
    }
    forall x ensures TenureOk(s', x) {
      assert TenureOk(s, x);
    }
  }

  lemma GreetStep(s: State, c: Conn, door: bool, f: Frame)
    requires Inv(s) && Enabled(s, Greet(c, door, f))
    ensures Inv(Next(s, Greet(c, door, f)))
  {
    hide Stamp, DecodeHello, IsId, Kind, Inv, Ascii, RouterFrame;
    match Greeting(s.host, f) {
      case Ok((id, desc)) =>
        Stamped(f.from, s.host);
        GreetedKeeps(s, c, door, id, desc);
      case Err(answer) =>
        AnswerKeeps(s, c, answer);
    }
  }

  lemma GreetedKeeps(s: State, c: Conn, door: bool, id: Str, desc: Descriptor)
    requires Inv(s) && c !in s.tasks && IsId(id, s.host) && (door ==> Kind(id) == BROWSER)
    ensures Inv(Put(s, c, Task(door, id, desc, 0, Greeted, Unregistered, 0, [], true, [], [], 0, 0)))
  {
    hide IsId, Kind, LocalsOk, LinksOk, PeersOk, TenuresOk;
    var t := Task(door, id, desc, 0, Greeted, Unregistered, 0, [], true, [], [], 0, 0);
    SwapKeeps(s, Put(s, c, t), c, t);
  }

  lemma TicketsStay(s: State, c: Conn)
    requires LocalsOk(s) && TicketsOk(s) && At(s, c, Greeted)
    ensures TicketsOk(DoTicket(s, c))
  {
    hide IsId, Kind, Tenure, PresenceOk;
    forall d | d in s.tasks && d != c && !s.tasks[d].phase.Greeted? ensures s.tasks[d].ticket != s.taken + 1 {
      assert LocalOk(s, d);
    }
  }

  lemma TicketSeat(s: State, c: Conn)
    requires LocalOk(s, c) && LinkOk(s, c) && At(s, c, Greeted)
    ensures s.tasks[c].fate.Unregistered? && c in DoTicket(s, c).tasks
            && Swaps(s, DoTicket(s, c), c, DoTicket(s, c).tasks[c])
    ensures var t := DoTicket(s, c).tasks[c];
            t.fate.Unregistered? && t.evictions == 0 && SeatOk(DoTicket(s, c), c, t) && PresenceOk(t)
  {
    hide IsId, Kind, Tenure;
  }

  lemma TicketStep(s: State, c: Conn)
    requires Inv(s) && At(s, c, Greeted)
    ensures Inv(DoTicket(s, c))
  {
    hide LocalOk, LinkOk, PeersOk, TenuresOk, TicketsOk;
    assert LocalOk(s, c) && LinkOk(s, c);
    TicketsStay(s, c);
    TicketSeat(s, c);
    hide Inv, SeatOk, PresenceOk, DoTicket, Swaps;
    SwapKeeps(s, DoTicket(s, c), c, DoTicket(s, c).tasks[c]);
  }

  lemma TurnSeat(s: State, c: Conn)
    requires LocalOk(s, c) && LinkOk(s, c) && TicketsOk(s) && At(s, c, Ticketed) && s.tasks[c].door
             && s.tasks[c].id in s.peers
    ensures s.tasks[c].fate.Unregistered? && c in DoInsert(s, c).tasks
            && Swaps(s, DoInsert(s, c), c, DoInsert(s, c).tasks[c])
    ensures var s' := DoInsert(s, c);
            s'.tasks[c].fate.Unregistered? && s'.tasks[c].evictions == 0 && SeatOk(s', c, s'.tasks[c])
              && PresenceOk(s'.tasks[c]) && TicketsOk(s')
  {
    hide IsId, Kind, Tenure, RouterFrame, Ascii;
  }

  lemma TurnStep(s: State, c: Conn)
    requires Inv(s) && At(s, c, Ticketed) && s.tasks[c].door && s.tasks[c].id in s.peers
    ensures Inv(DoInsert(s, c))
  {
    hide LocalOk, LinkOk, PeersOk, TenuresOk, TicketsOk, RouterFrame, Ascii, DoInsert;
    assert LocalOk(s, c) && LinkOk(s, c);
    TurnSeat(s, c);
    hide Inv, SeatOk, PresenceOk, Swaps;
    SwapKeeps(s, DoInsert(s, c), c, DoInsert(s, c).tasks[c]);
  }

  /** `s'` is `s` after task `c` fires the eviction of `o`. */
  ghost predicate Signals(s: State, s': State, c: Conn, o: Option<Conn>) {
    && At(s, c, Inserted(o)) && s'.(tasks := s.tasks) == s && s'.tasks.Keys == s.tasks.Keys
    && s'.tasks[c] == s.tasks[c].(phase := Signalled)
    && (o.Some? ==> o.value in s.tasks && o.value != c && s.tasks[o.value].fate == Replaced(c)
                    && s'.tasks[o.value] == s.tasks[o.value].(evictions := s.tasks[o.value].evictions + 1))
    && (forall d | d in s.tasks && d != c && Some(d) != o :: s'.tasks[d] == s.tasks[d])
  }

  lemma SignalShape(s: State, c: Conn)
    requires c in s.tasks && s.tasks[c].phase.Inserted? && LinkOk(s, c) && LocalOk(s, c)
    ensures Signals(s, DoSignal(s, c), c, s.tasks[c].phase.ousted)
  {
    hide IsId, Kind, Tenure;
    var o := s.tasks[c].phase.ousted;
    assert o.Some? ==> o.value in s.tasks && s.tasks[o.value].fate == Replaced(c);
    assert s.tasks[c].fate != Replaced(c);
  }

  lemma SignalLink(s: State, s': State, c: Conn, o: Option<Conn>, d: Conn)
    requires Signals(s, s', c, o) && LinkOk(s, c) && LinkOk(s, d)
    ensures LinkOk(s', d)
  {
    if d in s.tasks && Some(d) != o && d != c {
      assert s'.tasks[d] == s.tasks[d];
    }
  }

  lemma SignalLocal(s: State, s': State, c: Conn, o: Option<Conn>, d: Conn)
    requires Signals(s, s', c, o) && LocalOk(s, c) && LocalOk(s, d)
    ensures LocalOk(s', d)
  {
    hide IsId, Kind, Tenure;
  }

  /** Nothing but phases, fates and evictions: what tenures and tokens rest on stays. */
  ghost predicate SameSeats(s: State, s': State) {
    && s'.tasks.Keys == s.tasks.Keys
    && forall d {:trigger s'.tasks[d]} | d in s.tasks :: SameSeat(s.tasks[d], s'.tasks[d])
  }

  predicate SameSeat(t: Task, t': Task) {
    t'.id == t.id && t'.ticket == t.ticket && (t'.phase.Greeted? <==> t.phase.Greeted?)
      && (t'.fate.Unregistered? ==> t.fate.Unregistered?)
  }

  lemma SameSeatsKeep(s: State, s': State)
    requires SameSeats(s, s') && TicketsOk(s)
    ensures TicketsOk(s')
    ensures s'.tenures == s.tenures && TenuresOk(s) ==> TenuresOk(s')
  {
    if s'.tenures == s.tenures && TenuresOk(s) {
      hide Tenure;
      forall x ensures TenureOk(s', x) {
        assert TenureOk(s, x);
      }
    }
  }

  lemma SignalPeers(s: State, s': State, c: Conn, o: Option<Conn>)
    requires Signals(s, s', c, o) && PeersOk(s) && TicketsOk(s) && TenuresOk(s)
    ensures PeersOk(s') && TicketsOk(s') && TenuresOk(s')
  {
    hide Tenure;
    assert PeersOk(s') by {
      hide TicketsOk, TenuresOk;
    }
    assert SameSeats(s, s') by {
      hide PeersOk, TicketsOk, TenuresOk;
    }
    hide SameSeats, PeersOk, TicketsOk, TenuresOk, Signals;
    SameSeatsKeep(s, s');
  }

  lemma SignalAll(s: State, s': State, c: Conn, o: Option<Conn>)
    requires Inv(s) && Signals(s, s', c, o)
    ensures Inv(s')
  {
    hide LocalOk, LinkOk, Signals, PeersOk, TicketsOk, TenuresOk;
    assert LinkOk(s, c) && LocalOk(s, c);
    forall d ensures LinkOk(s', d) && LocalOk(s', d) {
      assert LinkOk(s, d) && LocalOk(s, d);
      SignalLink(s, s', c, o, d);
      SignalLocal(s, s', c, o, d);
    }
    SignalPeers(s, s', c, o);
  }

  lemma SignalStep(s: State, c: Conn)
    requires Inv(s) && c in s.tasks && s.tasks[c].phase.Inserted?
    ensures Inv(DoSignal(s, c))
  {
    hide LocalOk, LinkOk, Signals, PeersOk, TicketsOk, TenuresOk, DoSignal;
    assert LinkOk(s, c) && LocalOk(s, c);
    SignalShape(s, c);
    hide Inv, LocalsOk, LinksOk;
    SignalAll(s, DoSignal(s, c), c, s.tasks[c].phase.ousted);
  }

  /** The entry under a leaving task's id is another's, with the same token all the same. */
  predicate Collides(s: State, c: Conn) {
    && c in s.tasks && s.tasks[c].id in s.peers
    && s.peers[s.tasks[c].id].conn != c && s.peers[s.tasks[c].id].token == Token(s.tasks[c].ticket)
  }

  /** The cleanup's comparison means "still the registered one", unless tokens collide. */
  lemma CleanupKnowsItself(s: State, c: Conn)
    requires Inv(s) && At(s, c, Left)
    ensures s.tasks[c].id in s.peers && s.peers[s.tasks[c].id].token == Token(s.tasks[c].ticket) <==>
            s.tasks[c].fate.Current? || Collides(s, c)
    ensures s.tasks[c].fate.Current? <==> Registered(s, c)
  {
    hide Kind, IsId, Tenure, LinksOk, PresenceOk, TenuresOk, Token;
    assert LocalOk(s, c);
    var x := s.tasks[c].id;
    if x in s.peers {
      assert EntryOk(s, x);
      assert LocalOk(s, s.peers[x].conn);
    }
  }

  /** Tokens collide only between draws a multiple of 2^64 apart. */
  lemma CollisionsAreFar(s: State, c: Conn)
    requires Inv(s) && At(s, c, Left) && Collides(s, c)
    ensures var d := s.peers[s.tasks[c].id].conn;
            && d in s.tasks && (s.tasks[d].ticket - s.tasks[c].ticket) % TWO64 == 0
            && (s.tasks[d].ticket >= s.tasks[c].ticket + TWO64 || s.tasks[c].ticket >= s.tasks[d].ticket + TWO64)
    ensures s.taken > TWO64
  {
    hide Kind, IsId, Tenure, LinksOk, PresenceOk, TenuresOk;
    var x := s.tasks[c].id;
    var d := s.peers[x].conn;
    assert EntryOk(s, x) && LocalOk(s, c) && LocalOk(s, d);
    hide Inv, LocalOk, EntryOk;
    SameTokens(s.tasks[c].ticket, s.tasks[d].ticket);
  }

  lemma SameTokens(m: nat, n: nat)
    ensures Token(m) == Token(n) <==> (n - m) % TWO64 == 0
    ensures Token(m) == Token(n) && m != n ==> n >= m + TWO64 || m >= n + TWO64
  {
  }

  /** `s'` is `s` after task `c` left the registry, or found itself replaced. */
  ghost predicate Withdraws(s: State, s': State, c: Conn)
    requires c in s.tasks
  {
    var was := s.tasks[c].fate.Current?;
    && s'.host == s.host && s'.taken == s.taken && s'.tenures == s.tenures && s'.tasks.Keys == s.tasks.Keys
    && s'.peers == (if was then s.peers - {s.tasks[c].id} else s.peers)
    && s'.tasks[c] == s.tasks[c].(phase := Withdrawn(was), fate := if was then Removed else s.tasks[c].fate)
    && (forall d | d in s.tasks && d != c :: s'.tasks[d] == s.tasks[d])
  }

  lemma WithdrawShape(s: State, c: Conn)
    requires At(s, c, Left)
    requires s.tasks[c].id in s.peers && s.peers[s.tasks[c].id].token == Token(s.tasks[c].ticket) <==>
             s.tasks[c].fate.Current?
    ensures Withdraws(s, DoWithdraw(s, c), c)
  {
  }

  lemma WithdrawLocal(s: State, s': State, c: Conn, d: Conn)
    requires At(s, c, Left) && Withdraws(s, s', c) && LocalOk(s, c) && LocalOk(s, d)
    ensures LocalOk(s', d)
  {
    hide IsId, Kind, Tenure;
    if d in s.tasks && d != c {
      assert s'.tasks[d] == s.tasks[d];
      hide PresenceOk;
      assert SeatOk(s', d, s.tasks[d]);
    }
  }

  lemma WithdrawLink(s: State, s': State, c: Conn, d: Conn)
    requires At(s, c, Left) && Withdraws(s, s', c) && LinkOk(s, c) && LinkOk(s, d)
    ensures LinkOk(s', d)
  {
  }

  lemma WithdrawPeers(s: State, s': State, c: Conn)
    requires At(s, c, Left) && Withdraws(s, s', c) && PeersOk(s) && TicketsOk(s) && TenuresOk(s)
    requires s.tasks[c].fate.Current? <==> Registered(s, c)
    ensures PeersOk(s') && TicketsOk(s') && TenuresOk(s')
  {
    hide Tenure;
    assert PeersOk(s') by {
      hide TicketsOk, TenuresOk;
    }
    assert SameSeats(s, s') by {
      hide PeersOk, TicketsOk, TenuresOk;
    }
    hide SameSeats, PeersOk, TicketsOk, TenuresOk;
    SameSeatsKeep(s, s');
  }

  lemma WithdrawAll(s: State, s': State, c: Conn)
    requires LocalsOk(s) && LinksOk(s) && At(s, c, Left) && Withdraws(s, s', c)
    ensures LocalsOk(s') && LinksOk(s')
  {
    hide LocalOk, LinkOk, Withdraws, At;
    assert LinkOk(s, c) && LocalOk(s, c);
    forall d ensures LinkOk(s', d) && LocalOk(s', d) {
      assert LinkOk(s, d) && LocalOk(s, d);
      WithdrawLink(s, s', c, d);
      WithdrawLocal(s, s', c, d);
    }
  }

  lemma WithdrawStep(s: State, c: Conn)
    requires Inv(s) && At(s, c, Left) && !Collides(s, c)
    ensures Inv(DoWithdraw(s, c))
  {
    var s' := DoWithdraw(s, c);
    hide LocalsOk, LinksOk, Withdraws, PeersOk, TicketsOk, TenuresOk, DoWithdraw, Registered, At;
    CleanupKnowsItself(s, c);
    WithdrawShape(s, c);
    WithdrawAll(s, s', c);
    WithdrawPeers(s, s', c);
  }

  /** A registration that goes through. */
  ghost predicate Registers(s: State, c: Conn) {
    At(s, c, Ticketed) && !(s.tasks[c].door && s.tasks[c].id in s.peers)
  }

  function Ousted(s: State, c: Conn): Option<Conn>
    requires c in s.tasks
  {
    var x := s.tasks[c].id;
    if x in s.peers then Some(s.peers[x].conn) else None
  }

  /** `s'` is `s` after task `c` registers, ousting `o`. */
  ghost predicate Inserts(s: State, s': State, c: Conn, o: Option<Conn>) {
    && At(s, c, Ticketed) && s.tasks[c].fate.Unregistered?
    && (o.Some? ==>
          && o.value in s.tasks && o.value != c && s.tasks[o.value].id == s.tasks[c].id
          && s.tasks[o.value].fate.Current? && !s.tasks[c].door)
    && s'.host == s.host && s'.taken == s.taken
    && s'.peers == s.peers[s.tasks[c].id := Peer(c, Token(s.tasks[c].ticket), s.tasks[c].desc)]
    && s'.tenures == s.tenures[s.tasks[c].id := Tenure(s.tenures, s.tasks[c].id) + [c]]
    && s'.tasks.Keys == s.tasks.Keys
    && s'.tasks[c] == s.tasks[c].(phase := Inserted(o), fate := Current)
    && (o.Some? ==> s'.tasks[o.value] == s.tasks[o.value].(fate := Replaced(c)))
    && (forall d | d in s.tasks && d != c && Some(d) != o :: s'.tasks[d] == s.tasks[d])
  }

  lemma InsertShape(s: State, c: Conn)
    requires Inv(s) && Registers(s, c)
    ensures Inserts(s, DoInsert(s, c), c, Ousted(s, c))
    ensures forall d | d in s.tasks && s.tasks[d].fate.Current? && s.tasks[d].id == s.tasks[c].id ::
            Some(d) == Ousted(s, c)
  {
    hide Kind, IsId, PresenceOk, LinksOk, TicketsOk, TenuresOk, Tenure;
    assert LocalOk(s, c);
    forall d | d in s.tasks && s.tasks[d].fate.Current? && s.tasks[d].id == s.tasks[c].id
      ensures Some(d) == Ousted(s, c)
    {
      assert LocalOk(s, d);
    }
  }

  lemma InsertLocal(s: State, s': State, c: Conn, o: Option<Conn>, d: Conn)
    requires Inserts(s, s', c, o) && LocalOk(s, c) && LocalOk(s, d)
    requires d in s.tasks && s.tasks[d].fate.Current? && s.tasks[d].id == s.tasks[c].id ==> Some(d) == o
    ensures LocalOk(s', d)
  {
    if d in s.tasks {
      InsertMember(s, s', c, o, d);
      InsertSeat(s, s', c, o, d);
    }
  }

  lemma InsertSeat(s: State, s': State, c: Conn, o: Option<Conn>, d: Conn)
    requires Inserts(s, s', c, o) && d in s.tasks && LocalOk(s, c) && SeatOk(s, d, s.tasks[d]) && PresenceOk(s.tasks[d])
    requires s.tasks[d].fate.Current? && s.tasks[d].id == s.tasks[c].id ==> Some(d) == o
    requires d in Tenure(s.tenures, s.tasks[d].id) || d == c ==> d in Tenure(s'.tenures, s'.tasks[d].id)
    ensures SeatOk(s', d, s'.tasks[d]) && PresenceOk(s'.tasks[d])
  {
    hide IsId, Kind, Tenure;
    if d != c && Some(d) != o {
      assert s'.tasks[d] == s.tasks[d];
      hide PresenceOk, LocalOk;
    } else {
      assert s'.taken == s.taken && s'.host == s.host;
    }
  }

  lemma InsertMember(s: State, s': State, c: Conn, o: Option<Conn>, d: Conn)
    requires Inserts(s, s', c, o) && d in s.tasks
    ensures d in Tenure(s.tenures, s.tasks[d].id) || d == c ==> d in Tenure(s'.tenures, s'.tasks[d].id)
  {
    var ts := Tenure(s.tenures, s.tasks[c].id);
    assert d in ts ==> d in ts + [c];
    assert c in ts + [c];
    assert s'.tasks[d].id == s.tasks[d].id;
  }

  lemma InsertLink(s: State, s': State, c: Conn, o: Option<Conn>, d: Conn)
    requires Inserts(s, s', c, o) && LocalOk(s, c) && LinkOk(s, c) && LinkOk(s, d)
    requires d in s.tasks && s.tasks[d].fate.Replaced? ==> s.tasks[d].fate.heir != c
    requires d in s.tasks && s.tasks[d].phase.Inserted? && s.tasks[d].phase.ousted.Some? ==>
             s.tasks[d].phase.ousted.value != c
    ensures LinkOk(s', d)
  {
    hide SeatOk, PresenceOk, Tenure;
  }

  lemma InsertSeats(s: State, s': State, c: Conn, o: Option<Conn>)
    requires Inserts(s, s', c, o)
    ensures SameSeats(s, s')
  {
    hide Tenure;
  }

  lemma InsertEntry(s: State, s': State, c: Conn, o: Option<Conn>, x: Str)
    requires PeersOk(s) && Inserts(s, s', c, o) && x in s'.peers
    requires x in s.peers && x != s.tasks[c].id ==> s.peers[x].conn != c && Some(s.peers[x].conn) != o
    ensures EntryOk(s', x)
  {
    if x == s.tasks[c].id {
      var ts := Tenure(s.tenures, x);
      assert (ts + [c])[|ts + [c]| - 1] == c;
    } else {
      assert EntryOk(s, x);
    }
  }

  lemma InsertPeers(s: State, s': State, c: Conn, o: Option<Conn>)
    requires PeersOk(s) && TicketsOk(s) && Inserts(s, s', c, o)
    requires forall x | x in s.peers && x != s.tasks[c].id :: s.peers[x].conn != c && Some(s.peers[x].conn) != o
    ensures PeersOk(s') && TicketsOk(s')
  {
    InsertSeats(s, s', c, o);
    forall x | x in s'.peers ensures EntryOk(s', x) {
      hide EntryOk;
      InsertEntry(s, s', c, o, x);
    }
    hide TicketsOk, SameSeats, Inserts;
    SameSeatsKeep(s, s');
  }

  lemma InsertTenure(s: State, s': State, c: Conn, o: Option<Conn>, x: Str)
    requires Inserts(s, s', c, o) && TenureOk(s, x) && c !in Tenure(s.tenures, x)
    ensures TenureOk(s', x)
  {
    var ts, ts' := Tenure(s.tenures, x), Tenure(s'.tenures, x);
    assert ts' == if x == s.tasks[c].id then ts + [c] else ts;
    hide Tenure;
    forall i | 0 <= i < |ts'|
      ensures ts'[i] in s'.tasks && s'.tasks[ts'[i]].id == x && !s'.tasks[ts'[i]].fate.Unregistered?
    {
      if i < |ts| { assert ts[i] == ts'[i]; }
    }
  }

  lemma RegisterStep(s: State, c: Conn)
    requires Inv(s) && Registers(s, c)
    ensures Inv(DoInsert(s, c))
  {
    InsertShape(s, c);
    UnregisteredYet(s, c);
    hide Inv, DoInsert, Ousted, Inserts;
    EarlyIsUnknown(s, c);
    OtherPeers(s, c);
    InsertAll(s, DoInsert(s, c), c, Ousted(s, c));
  }

  lemma UnregisteredYet(s: State, c: Conn)
    requires Inv(s) && Registers(s, c)
    ensures s.tasks[c].fate.Unregistered?
  {
    hide IsId, Kind, Tenure;
    assert LocalOk(s, c);
  }

  /** Task `c` is in nobody's books yet, and only `o` is registered under its id. */
  ghost predicate Newcomer(s: State, c: Conn, o: Option<Conn>)
    requires c in s.tasks
  {
    && (forall d | d in s.tasks && s.tasks[d].fate.Current? && s.tasks[d].id == s.tasks[c].id :: Some(d) == o)
    && (forall x | x in s.peers :: s.peers[x].conn != c && (x != s.tasks[c].id ==> Some(s.peers[x].conn) != o))
    && (forall x :: c !in Tenure(s.tenures, x))
    && (forall d | d in s.tasks && s.tasks[d].fate.Replaced? :: s.tasks[d].fate.heir != c)
    && (forall d | d in s.tasks && s.tasks[d].phase.Inserted? && s.tasks[d].phase.ousted.Some? ::
        s.tasks[d].phase.ousted.value != c)
  }

  lemma InsertTasks(s: State, s': State, c: Conn, o: Option<Conn>)
    requires LocalsOk(s) && LinksOk(s) && c in s.tasks && Inserts(s, s', c, o) && Newcomer(s, c, o)
    ensures LocalsOk(s') && LinksOk(s')
  {
    hide LocalOk, LinkOk, Tenure, Inserts;
    assert LocalOk(s, c) && LinkOk(s, c);
    forall d ensures LocalOk(s', d) && LinkOk(s', d) {
      assert LocalOk(s, d) && LinkOk(s, d);
      InsertLocal(s, s', c, o, d);
      InsertLink(s, s', c, o, d);
    }
  }

  lemma InsertTenures(s: State, s': State, c: Conn, o: Option<Conn>)
    requires TenuresOk(s) && c in s.tasks && Inserts(s, s', c, o) && Newcomer(s, c, o)
    ensures TenuresOk(s')
  {
    hide TenureOk, Tenure, Inserts;
    forall x ensures TenureOk(s', x) {
      assert TenureOk(s, x);
      InsertTenure(s, s', c, o, x);
    }
  }

  lemma InsertAll(s: State, s': State, c: Conn, o: Option<Conn>)
    requires Inv(s) && c in s.tasks && Inserts(s, s', c, o) && Newcomer(s, c, o)
    ensures Inv(s')
  {
    hide LocalsOk, LinksOk, TenuresOk, TicketsOk, PeersOk, Inserts;
    InsertTasks(s, s', c, o);
    InsertTenures(s, s', c, o);
    InsertPeers(s, s', c, o);
  }

  lemma OtherPeers(s: State, c: Conn)
    requires Inv(s) && Registers(s, c)
    ensures forall x | x in s.peers && x != s.tasks[c].id :: Some(s.peers[x].conn) != Ousted(s, c)
  {
    hide LocalsOk, LinksOk, TicketsOk, TenuresOk, Tenure;
  }

  lemma InsertStep(s: State, c: Conn)
    requires Inv(s) && At(s, c, Ticketed)
    ensures Inv(DoInsert(s, c))
  {
    hide Inv, DoInsert;
    if Registers(s, c) {
      RegisterStep(s, c);
    } else {
      TurnStep(s, c);
    }
  }

  /** Every step of every task keeps the invariant, unless it is a cleanup whose token
      collides with its successor's. */
  lemma KeepsInv(s: State, st: Step)
    requires Inv(s) && Enabled(s, st) && (st.Withdraw? ==> !Collides(s, st.c))
    ensures Inv(Next(s, st))
  {
    hide Inv, Collides;
    match st {
      case Greet(c, door, f) => GreetStep(s, c, door, f);
      case Ticket(c) => TicketStep(s, c);
      case Insert(c) => InsertStep(s, c);
      case Signal(c) => SignalStep(s, c);
      case Withdraw(c) => WithdrawStep(s, c);
      case _ => CalmStep(s, st);
    }
  }

  /** And exactly then: a cleanup whose token collides removes its successor's entry while
      that connection is live. */
  lemma CleanupIsSafeExactly(s: State, c: Conn)
    requires Inv(s) && At(s, c, Left)
    ensures Inv(DoWithdraw(s, c)) <==> !Collides(s, c)
    ensures Collides(s, c) ==>
              var x := s.tasks[c].id;
              x in s.peers && s.peers[x].conn in s.tasks && Live(s.tasks[s.peers[x].conn].phase)
                && x !in DoWithdraw(s, c).peers
  {
    if Collides(s, c) {
      var x := s.tasks[c].id;
      var d := s.peers[x].conn;
      var s' := DoWithdraw(s, c);
      hide Kind, IsId, Tenure, LinksOk, TenuresOk, TicketsOk, PresenceOk, Token;
      assert EntryOk(s, x) && LocalOk(s, d);
      assert s'.tasks[d] == s.tasks[d] && x !in s'.peers;
      assert !LocalOk(s', d);
    } else {
      hide Inv, DoWithdraw;
      WithdrawStep(s, c);
    }
  }

  lemma TakenGrows(s: State, st: Step)
    requires Enabled(s, st)
    ensures s.taken <= Next(s, st).taken && s.host == Next(s, st).host
  {
    hide RouterFrame, Ascii, EncodePeer, EncodeProviders, Restamp, Stamp, DecodeHello, Originates, IsListing,
      IsBrowserHello, Routes, Tenure, Token, OnWire;
  }

  /** None of the first `n` steps is a cleanup whose token collides with its successor's. */
  ghost predicate Distinct(steps: seq<Router.Step>, trace: seq<State>, n: nat) {
    n <= |steps| < |trace| && forall i {:trigger steps[i]} | 0 <= i < n ::
      steps[i].Withdraw? ==> !Collides(trace[i], steps[i].c)
  }

  /** In every interleaving of any number of connections, every state of the run keeps
      the invariant up to the first collision, if there ever is one. */
  lemma {:induction false} RunKeepsInv(host: Host, steps: seq<Router.Step>, trace: seq<State>, i: nat)
    requires Run(host, steps, trace) && i <= |steps| && Distinct(steps, trace, i)
    ensures Inv(trace[i]) && trace[i].host == host
  {
    hide Next, Enabled, Inv, Collides;
    if i == 0 {
      InitInv(host);
    } else {
      assert Steps(trace[i - 1], steps[i - 1], trace[i - 1 + 1]);
      TakenGrows(trace[i - 1], steps[i - 1]);
      RunKeepsInv(host, steps, trace, i - 1);
      KeepsInv(trace[i - 1], steps[i - 1]);
    }
  }

  /** There is none while no more than 2^64 connections have come. */
  lemma {:induction false} ShortRunsAreDistinct(host: Host, steps: seq<Router.Step>, trace: seq<State>, i: nat)
    requires Run(host, steps, trace) && i <= |steps| && trace[i].taken <= TWO64
    ensures Distinct(steps, trace, i)
  {
    hide Next, Enabled, Inv, Collides;
    if i > 0 {
      assert Steps(trace[i - 1], steps[i - 1], trace[i - 1 + 1]);
      TakenGrows(trace[i - 1], steps[i - 1]);
      ShortRunsAreDistinct(host, steps, trace, i - 1);
      RunKeepsInv(host, steps, trace, i - 1);
      if steps[i - 1].Withdraw? && Collides(trace[i - 1], steps[i - 1].c) {
        WithdrawsAtLeft(trace[i - 1], steps[i - 1]);
        CollisionsAreFar(trace[i - 1], steps[i - 1].c);
      }
    }
  }

  lemma WithdrawsAtLeft(s: State, st: Step)
    requires Enabled(s, st) && st.Withdraw?
    ensures At(s, st.c, Left)
  {
  }

  lemma InitInv(host: Host)
    ensures Inv(Init(host))
  {
    hide SeatOk, PresenceOk, EvictionOk, DebtOk, EntryOk;
    var s := Init(host);
    assert s.tasks == map[] && s.peers == map[] && s.tenures == map[];
  }
}
