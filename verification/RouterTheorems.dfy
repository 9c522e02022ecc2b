/** What holds of every run of the router, in the words of its documentation. */
module RouterTheorems {
  import opened Wrappers
  import opened Bytes
  import opened Utf8
  import opened Frames
  import opened Streams
  import opened Bodies
  import opened Ids
  import opened DoorRules
  import opened Router
  import opened RegistryInv
  import opened Delivery

  /** A state some run reaches with no collision of tokens before it. */
  ghost predicate Reached(host: Host, s: State) {
    exists steps, trace, i: nat :: ReachedBy(host, steps, trace, i, s)
  }

  ghost predicate ReachedBy(host: Host, steps: seq<Router.Step>, trace: seq<State>, i: nat, s: State) {
    Run(host, steps, trace) && i < |trace| && Distinct(steps, trace, i) && trace[i] == s
  }

  lemma ReachedInv(host: Host, s: State)
    requires Reached(host, s)
    ensures Inv(s) && FramesOk(s) && s.host == host
  {
    hide Inv, FramesOk, Distinct, Run;
    var steps, trace, i: nat :| ReachedBy(host, steps, trace, i, s);
    RunLengths(host, steps, trace);
    RunKeepsInv(host, steps, trace, i);
    RunKeepsFrames(host, steps, trace, i);
  }

  lemma RunLengths(host: Host, steps: seq<Router.Step>, trace: seq<State>)
    requires Run(host, steps, trace)
    ensures |trace| == |steps| + 1
  {
  }

  /** Every state of every run in which at most 2^64 connections have come is one. */
  lemma ShortRunsReach(host: Host, steps: seq<Router.Step>, trace: seq<State>, i: nat)
    requires Run(host, steps, trace) && i < |trace| && trace[i].taken <= TWO64
    ensures Reached(host, trace[i])
  {
    hide Distinct, Run;
    RunLengths(host, steps, trace);
    ShortRunsAreDistinct(host, steps, trace, i);
    assert ReachedBy(host, steps, trace, i, trace[i]);
  }

  /** Every registry entry belongs to a live connection that registered under that
      id, with that token and descriptor, later than any other of that id; and no two
      registered connections share a token unless 2^64 draws or more lie between. */
  lemma EntriesAreLive(host: Host, s: State, x: Str)
    requires Reached(host, s) && x in s.peers
    ensures var p := s.peers[x];
            && p.conn in s.tasks && s.tasks[p.conn].id == x && s.tasks[p.conn].desc == p.desc
            && p.token == Token(s.tasks[p.conn].ticket) && Live(s.tasks[p.conn].phase)
            && Tenure(s.tenures, x) != [] && Tenure(s.tenures, x)[|Tenure(s.tenures, x)| - 1] == p.conn
    ensures forall y | y in s.peers && y != x && s.peers[y].token == s.peers[x].token :: s.taken > TWO64
  {
    ReachedInv(host, s);
    hide IsId, Kind, Tenure, LinksOk, TenuresOk, FramesOk, PresenceOk, Reached, Token;
    assert EntryOk(s, x) && LocalOk(s, s.peers[x].conn);
    forall y | y in s.peers && y != x && s.peers[y].token == s.peers[x].token ensures s.taken > TWO64 {
      assert EntryOk(s, y) && LocalOk(s, s.peers[y].conn);
      SameTokens(s.tasks[s.peers[x].conn].ticket, s.tasks[s.peers[y].conn].ticket);
    }
  }

  /** A cleanup removes an entry exactly when the entry is its own, and then nothing
      else: a successor that took the id is never removed, unless its token collides. */
  lemma CleanupSparesSuccessor(host: Host, s: State, c: Conn)
    requires Reached(host, s) && At(s, c, Left) && !Collides(s, c)
    ensures var s' := DoWithdraw(s, c);
            && s'.peers == (if Registered(s, c) then s.peers - {s.tasks[c].id} else s.peers)
            && s'.tasks[c].phase == Withdrawn(Registered(s, c))
            && forall x | x in s.peers && s.peers[x].conn != c :: x in s'.peers && s'.peers[x] == s.peers[x]
  {
    ReachedInv(host, s);
    CleanupKnowsItself(s, c);
    hide LocalsOk, LinksOk, TenuresOk, TicketsOk, FramesOk, Tenure, Reached, Token;
    if Registered(s, c) {
      assert EntryOk(s, s.tasks[c].id);
    }
  }

  /** Once every connection has left, the registry is empty. */
  lemma EmptyWhenAllLeft(host: Host, s: State)
    requires Reached(host, s)
    requires forall c | c in s.tasks :: !Live(s.tasks[c].phase)
    ensures s.peers == map[]
  {
    if x :| x in s.peers {
      EntriesAreLive(host, s, x);
      assert false;
    }
  }

  /** A replaced connection has exactly one eviction: sent, or owed by exactly one
      connection, its heir; nobody else is ever evicted. */
  lemma OneEviction(host: Host, s: State, c: Conn)
    requires Reached(host, s) && c in s.tasks
    ensures var owing := set d | d in s.tasks && s.tasks[d].phase == Inserted(Some(c));
            match s.tasks[c].fate
            case Replaced(d) => if d in owing then s.tasks[c].evictions == 0 && owing == {d}
              else s.tasks[c].evictions == 1 && owing == {}
            case _ => s.tasks[c].evictions == 0 && owing == {}
  {
    ReachedInv(host, s);
    hide LocalsOk, PeersOk, TicketsOk, TenuresOk, FramesOk;
    assert LinkOk(s, c);
    forall d | d in s.tasks && s.tasks[d].phase == Inserted(Some(c)) ensures s.tasks[c].fate == Replaced(d) {
      assert LinkOk(s, d);
    }
  }

  // ── presence ───────────────────────────────────────────────────────────────

  /** How many of these connections left the registry themselves. */
  function Removals(tasks: map<Conn, Task>, ts: seq<Conn>): nat {
    if ts == [] then 0
    else Removals(tasks, ts[..|ts| - 1]) + if ts[|ts| - 1] in tasks && tasks[ts[|ts| - 1]].fate.Removed? then 1 else 0
  }

  /** How many were taken over. */
  function Replacements(tasks: map<Conn, Task>, ts: seq<Conn>): nat {
    if ts == [] then 0
    else Replacements(tasks, ts[..|ts| - 1])
         + if ts[|ts| - 1] in tasks && tasks[ts[|ts| - 1]].fate.Replaced? then 1 else 0
  }

  lemma {:induction false} CountFates(tasks: map<Conn, Task>, ts: seq<Conn>)
    requires forall i | 0 <= i < |ts| :: ts[i] in tasks && !tasks[ts[i]].fate.Unregistered?
    requires forall i | 0 <= i < |ts| - 1 :: !tasks[ts[i]].fate.Current?
    ensures |ts| == Removals(tasks, ts) + Replacements(tasks, ts)
                    + if ts != [] && tasks[ts[|ts| - 1]].fate.Current? then 1 else 0
  {
    if ts != [] {
      CountFates(tasks, ts[..|ts| - 1]);
    }
  }

  lemma TenureFates(s: State, x: Str)
    requires Inv(s)
    ensures var ts := Tenure(s.tenures, x);
            && (forall i | 0 <= i < |ts| :: ts[i] in s.tasks && !s.tasks[ts[i]].fate.Unregistered?)
            && (forall i | 0 <= i < |ts| - 1 :: !s.tasks[ts[i]].fate.Current?)
            && (ts != [] && s.tasks[ts[|ts| - 1]].fate.Current? <==> x in s.peers)
  {
    hide IsId, Kind, Tenure, LinksOk, TicketsOk, PresenceOk;
    var ts := Tenure(s.tenures, x);
    assert TenureOk(s, x);
    forall i | 0 <= i < |ts| && s.tasks[ts[i]].fate.Current? ensures i == |ts| - 1 && x in s.peers {
      assert LocalOk(s, ts[i]);
    }
  }

  /** For every id, registrations equal removals plus replacements plus one if it is
      registered now. */
  lemma PresenceConserved(host: Host, s: State, x: Str)
    requires Reached(host, s)
    ensures |Tenure(s.tenures, x)| ==
            Removals(s.tasks, Tenure(s.tenures, x)) + Replacements(s.tasks, Tenure(s.tenures, x))
            + if x in s.peers then 1 else 0
  {
    hide *;
    ReachedInv(host, s);
    TenureFates(s, x);
    CountFates(s.tasks, Tenure(s.tenures, x));
  }

  /** Each registration starts one PEER_CONNECTED fan-out by the time it relays, each
      removal one PEER_DISCONNECTED fan-out by the time it closes, and nothing else
      does: a replaced connection never announces a departure. */
  lemma FanoutsCounted(host: Host, s: State, c: Conn)
    requires Reached(host, s) && c in s.tasks
    ensures s.tasks[c].ups == if Announced(s.tasks[c].phase) then 1 else 0
    ensures s.tasks[c].downs == if s.tasks[c].fate.Removed? && !s.tasks[c].phase.Withdrawn? then 1 else 0
    ensures s.tasks[c].fate.Replaced? ==> s.tasks[c].downs == 0
  {
    ReachedInv(host, s);
    hide IsId, Kind, Tenure, LinksOk, TicketsOk, PeersOk, TenuresOk, FramesOk;
    assert LocalOk(s, c);
  }

  lemma WithdrawIs(s: State, st: Router.Step)
    requires Enabled(s, st) && st.Withdraw?
    ensures st.c in s.tasks && Next(s, st) == DoWithdraw(s, st.c)
  {
  }

  lemma NewcomerTouchesOwnEntry(s: State, st: Router.Step, x: Str)
    requires Enabled(s, st) && !IsCalm(st) && !st.Withdraw? && x in s.peers
    ensures x in Next(s, st).peers
    ensures Next(s, st).peers[x] != s.peers[x] ==>
              st.Insert? && s.tasks[st.c].id == x && !s.tasks[st.c].door && Next(s, st).peers[x].conn == st.c
  {
    hide RouterFrame, Ascii, Greeting, IsBrowserHello, OnWire, Tenure;
  }

  /** Whatever a connection does, only its own id's entry can change, an entry it takes
      over is never absent, and a browser takes over nothing. */
  lemma OnlyOwnEntryChanges(host: Host, s: State, st: Router.Step, x: Str)
    requires Reached(host, s) && Enabled(s, st) && x in s.peers && s.peers[x].conn != st.c
    requires st.Withdraw? ==> !Collides(s, st.c)
    ensures x in Next(s, st).peers
    ensures Next(s, st).peers[x] != s.peers[x] ==>
              st.Insert? && s.tasks[st.c].id == x && !s.tasks[st.c].door && Next(s, st).peers[x].conn == st.c
  {
    hide Reached, Next, Enabled, Collides;
    if IsCalm(st) {
      CalmMoves(s, st);
    } else if st.Withdraw? {
      WithdrawsAtLeft(s, st);
      CleanupSparesSuccessor(host, s, st.c);
      WithdrawIs(s, st);
    } else {
      NewcomerTouchesOwnEntry(s, st, x);
    }
  }

  // ── frames ─────────────────────────────────────────────────────────────────

  /** Joining the queues of an id's successive holders, the frames from one connection
      are exactly that connection's frames to the id, in order, minus those refused. */
  lemma DeliveredInOrder(host: Host, s: State, a: Conn, x: Str)
    requires Reached(host, s) && a in s.tasks
    ensures Received(s.tasks, Tenure(s.tenures, x), a) == Accepted(s.tasks[a].sent, x, s.tasks[a].id)
  {
    ReachedInv(host, s);
    hide Inv, QueueOk, Received, Accepted, Tenure;
    assert DeliveredOk(s, a, x);
  }

  /** Each refused frame has had exactly one no_route error sent for it, in order, or
      is the one being told. */
  lemma RefusalsAnswered(host: Host, s: State, a: Conn)
    requires Reached(host, s) && a in s.tasks
    ensures s.tasks[a].errors + (if s.tasks[a].phase.Owing? then [s.tasks[a].phase.dest] else []) ==
            Refused(s.tasks[a].sent)
  {
    ReachedInv(host, s);
    hide Inv, DeliveredOk, ItemOk, Refused;
    assert QueueOk(s, a);
  }

  /** Every queued frame is addressed to the id its queue serves; it says `zapd` if and
      only if the router made it, and otherwise its `from` is the registered id of the
      connection it was read from. */
  lemma NobodySpeaksAsAnother(host: Host, s: State, c: Conn, i: nat)
    requires Reached(host, s) && c in s.tasks && i < |s.tasks[c].queue|
    ensures var item := s.tasks[c].queue[i];
            && item.frame.to == s.tasks[c].id
            && (item.frame.from == ZAPD <==> item.src.FromRouter?)
            && (item.src.FromConn? ==>
                item.src.conn in s.tasks && item.frame.from == s.tasks[item.src.conn].id && item.frame.from != [])
  {
    ReachedInv(host, s);
    hide Inv, DeliveredOk, ErrorsOk;
    assert QueueOk(s, c);
    var item := s.tasks[c].queue[i];
    assert ItemOk(s, s.tasks[c], item);
    if item.src.FromConn? {
      IdOfTask(s, item.src.conn);
      hide IsId, QueueOk;
      IdFacts(s.tasks[item.src.conn].id, host);
    }
  }

  lemma IdOfTask(s: State, c: Conn)
    requires Inv(s) && c in s.tasks
    ensures IsId(s.tasks[c].id, s.host) && (s.tasks[c].door ==> Kind(s.tasks[c].id) == BROWSER)
  {
    hide IsId, Kind, Tenure, LinksOk, TicketsOk, PeersOk, TenuresOk;
    assert LocalOk(s, c);
  }

  lemma DoorReplacesNobody(s: State, a: Conn)
    requires LinksOk(s) && a in s.tasks && s.tasks[a].door
    ensures forall c | c in s.tasks :: s.tasks[c].fate != Replaced(a)
  {
    forall c | c in s.tasks ensures s.tasks[c].fate != Replaced(a) {
      assert LinkOk(s, c);
    }
  }

  lemma DoorOnlyAnswers(s: State, a: Conn, c: Conn, i: nat)
    requires QueueOk(s, c) && c in s.tasks && i < |s.tasks[c].queue|
    requires a in s.tasks && s.tasks[a].door && s.tasks[c].queue[i].src == FromConn(a)
    ensures s.tasks[c].queue[i].frame.typ == RESPONSE
  {
    hide ErrorsOk;
    assert ItemOk(s, s.tasks[c], s.tasks[c].queue[i]);
  }

  /** A connection through the door is only ever a browser: that is the kind it
      registers under, it replaces nobody, and all it gets forwarded are answers. */
  lemma DoorIsOnlyABrowser(host: Host, s: State, a: Conn)
    requires Reached(host, s) && a in s.tasks && s.tasks[a].door
    ensures Kind(s.tasks[a].id) == BROWSER
    ensures forall c | c in s.tasks :: s.tasks[c].fate != Replaced(a)
    ensures forall c, i | c in s.tasks && 0 <= i < |s.tasks[c].queue| && s.tasks[c].queue[i].src == FromConn(a) ::
              s.tasks[c].queue[i].frame.typ == RESPONSE
  {
    ReachedInv(host, s);
    IdOfTask(s, a);
    hide Kind, LocalsOk, LinksOk, PeersOk, TicketsOk, TenuresOk, DeliveredOk, QueueOk, Reached;
    DoorReplacesNobody(s, a);
    forall c, i | c in s.tasks && 0 <= i < |s.tasks[c].queue| && s.tasks[c].queue[i].src == FromConn(a)
      ensures s.tasks[c].queue[i].frame.typ == RESPONSE
    {
      assert QueueOk(s, c);
      DoorOnlyAnswers(s, a, c, i);
    }
  }

  function QueuedFrames(t: Task): (fs: seq<Frame>)
    ensures |fs| == |t.queue| && forall i | 0 <= i < |fs| :: fs[i] == t.queue[i].frame
  {
    seq(|t.queue|, i requires 0 <= i < |t.queue| => t.queue[i].frame)
  }

  /** All the listings queued fit their length fields. */
  predicate ListingsSized(t: Task) {
    forall i | 0 <= i < |t.queue| && t.queue[i].src.FromRouter? && t.queue[i].frame.typ == PROVIDERS ::
      Sized(t.queue[i].frame)
  }

  /** And with them every frame queued does: the router's other frames name ids and
      refused destinations, and forwards are restamped frames off the wire. */
  lemma QueueSized(host: Host, s: State, c: Conn)
    requires Reached(host, s) && c in s.tasks && ListingsSized(s.tasks[c])
    ensures forall i | 0 <= i < |QueuedFrames(s.tasks[c])| :: Sized(QueuedFrames(s.tasks[c])[i])
  {
    ReachedInv(host, s);
    hide Inv, DeliveredOk, ErrorsOk, Sized, Reached;
    assert QueueOk(s, c);
    forall i | 0 <= i < |s.tasks[c].queue| ensures Sized(s.tasks[c].queue[i].frame) {
      assert ItemOk(s, s.tasks[c], s.tasks[c].queue[i]);
    }
  }

  /** However a connection's writer ends (aborted, failed, or caught mid-frame), what
      it wrote reads as a prefix of the frames its queue accepted, unless one of them is a
      listing past 4 GiB. */
  lemma {:induction false} WriterTellsAPrefix(host: Host, s: State, c: Conn, n: nat)
    requires Reached(host, s) && c in s.tasks && ListingsSized(s.tasks[c])
    requires n <= |Join(Encodings(QueuedFrames(s.tasks[c])))|
    ensures ReadAll(Join(Encodings(QueuedFrames(s.tasks[c])))[..n]).frames <= QueuedFrames(s.tasks[c])
  {
    hide *;
    QueueSized(host, s, c);
    AbortedWriter(QueuedFrames(s.tasks[c]), n);
  }

  /** And what a browser gets through the door, message by message, is those frames, unless
      the relay dropped a read with bytes in its hands. */
  lemma {:induction false} BrowserHearsItsQueue(host: Host, s: State, c: Conn, n: nat, turns: seq<Turn>)
    requires Reached(host, s) && c in s.tasks && ListingsSized(s.tasks[c])
    requires n <= |Join(Encodings(QueuedFrames(s.tasks[c])))| && NothingTaken(turns)
    ensures var fs := QueuedFrames(s.tasks[c]);
            var ms := Encodings(RelayTurns(Join(Encodings(fs))[..n], turns).frames);
            |ms| <= |fs| && forall i | 0 <= i < |ms| :: Decode(ms[i]) == Ok(fs[i])
  {
    hide *;
    QueueSized(host, s, c);
    BrowserHearsAPrefix(QueuedFrames(s.tasks[c]), n, turns);
  }

  predicate QueueFits(t: Task) {
    forall i | 0 <= i < |t.queue| :: Fits(t.queue[i].frame)
  }

  lemma QueueIsPlain(host: Host, s: State, c: Conn)
    requires Reached(host, s) && c in s.tasks && QueueFits(s.tasks[c])
    ensures AllPlain(QueuedFrames(s.tasks[c]))
  {
    var fs := QueuedFrames(s.tasks[c]);
    ReachedInv(host, s);
    IdOfTask(s, c);
    hide Inv, FramesOk, Reached, IsId, IsAscii, Fits, Sized;
    IdFacts(s.tasks[c].id, host);
    forall i | 0 <= i < |fs| ensures Plain(fs[i]) {
      NobodySpeaksAsAnother(host, s, c, i);
      FitsIsSized(fs[i]);
      RouterIsAscii();
      var src := s.tasks[c].queue[i].src;
      if src.FromConn? {
        IdOfTask(s, src.conn);
        IdFacts(s.tasks[src.conn].id, host);
      }
    }
  }

  lemma FitsIsSized(f: Frame)
    requires Fits(f)
    ensures Sized(f)
  {
  }

  lemma RouterIsAscii()
    ensures IsAscii(ZAPD)
  {
  }

  /** The browser gets all of its queue, in order and unchanged, if and only if the relay
      reads as many whole frames and drops no read with bytes taken before the last. */
  lemma BrowserHearsAllItsQueue(host: Host, s: State, c: Conn, turns: seq<Turn>)
    requires Reached(host, s) && c in s.tasks && QueueFits(s.tasks[c])
    ensures var fs := QueuedFrames(s.tasks[c]);
            fs <= RelayTurns(Join(Encodings(fs)), turns).frames <==> Unhurt(turns, |fs|)
  {
    hide *;
    QueueIsPlain(host, s, c);
    BrowserHearsAllExactly(QueuedFrames(s.tasks[c]), turns);
  }

  // ── what the router tells ──────────────────────────────────────────────────

  /** `s'` has one more frame for `d` than `s`, from the router and addressed to it. */
  predicate Tells(s: State, s': State, d: Conn, typ: Byte, payload: seq<Byte>) {
    && d in s.tasks && d in s'.tasks
    && var f := Frame(typ, 0, ZAPD, s.tasks[d].id, payload);
    s'.tasks[d].queue == s.tasks[d].queue + [Item(f, FromRouter)]
  }

  lemma SendTells(m: State, x: Str, typ: Byte, payload: seq<Byte>)
    requires PeersNamed(m)
    ensures var s' := SendTo(m, x, Item(RouterFrame(typ, x, payload), FromRouter));
            && (Routes(m, x) ==> Tells(m, s', m.peers[x].conn, typ, payload))
            && forall d | d in m.tasks && !(Routes(m, x) && d == m.peers[x].conn) ::
               d in s'.tasks && s'.tasks[d].queue == m.tasks[d].queue
  {
  }

  lemma PeersFrom(s: State)
    requires Inv(s)
    ensures PeersNamed(s)
  {
    hide LocalsOk, LinksOk, PeersOk, TicketsOk, TenuresOk, PeersNamed;
    Named(s);
  }

  lemma BroadcastTells(m: State, x: Str, typ: Byte, d: Conn)
    requires d in m.tasks
    ensures if Hears(m, d, x) then Tells(m, Broadcast(m, x, typ), d, typ, EncodePeer(x))
            else Broadcast(m, x, typ).tasks[d].queue == m.tasks[d].queue
  {
  }

  lemma NameReadsBack(host: Host, s: State, c: Conn)
    requires Reached(host, s) && c in s.tasks
    ensures ParseStr(EncodePeer(s.tasks[c].id)) == Parsed.Got(s.tasks[c].id, [], true)
  {
    hide Reached, Inv, FramesOk, IsId, ParseStr;
    ReachedInv(host, s);
    IdOfTask(s, c);
    var x := s.tasks[c].id;
    IdFacts(x, host);
    StrRoundTrip(x, []);
    assert EncodePeer(x) + [] == EncodePeer(x);
  }

  /** A fan-out tells each registered peer but the subject once, by name, and tells
      nobody else. */
  lemma FanoutTells(host: Host, s: State, c: Conn, d: Conn)
    requires Reached(host, s) && c in s.tasks && d in s.tasks
    requires s.tasks[c].phase.Welcomed? || s.tasks[c].phase == Withdrawn(true)
    ensures var up := s.tasks[c].phase.Welcomed?;
            var s' := if up then DoAnnounceUp(s, c) else DoAnnounceDown(s, c);
            if Hears(s, d, s.tasks[c].id)
            then exists payload :: Tells(s, s', d, if up then PEER_CONNECTED else PEER_DISCONNECTED, payload)
                                   && ParseStr(payload) == Parsed.Got(s.tasks[c].id, [], true)
            else s'.tasks[d].queue == s.tasks[d].queue
  {
    hide Reached, ParseStr, EncodePeer;
    NameReadsBack(host, s, c);
    var x, up := s.tasks[c].id, s.tasks[c].phase.Welcomed?;
    var t := if up then s.tasks[c].(phase := Relaying, ups := s.tasks[c].ups + 1)
      else s.tasks[c].(phase := Closing, downs := s.tasks[c].downs + 1);
    var m := Put(s, c, t);
    var typ := if up then PEER_CONNECTED else PEER_DISCONNECTED;
    hide Broadcast;
    assert (if up then DoAnnounceUp(s, c) else DoAnnounceDown(s, c)) == Broadcast(m, x, typ);
    BroadcastTells(m, x, typ, d);
    assert Hears(m, d, x) == Hears(s, d, x);
    hide DoAnnounceUp, DoAnnounceDown, Hears;
    assert Tells(m, Broadcast(m, x, typ), d, typ, EncodePeer(x)) ==>
      Tells(s, Broadcast(m, x, typ), d, typ, EncodePeer(x));
  }

  // ── the door's pipe ────────────────────────────────────────────────────────

  lemma PipeFrame(hello: seq<Byte>, ms: seq<seq<Byte>>, n: nat, i: nat)
    requires Decode(hello).Ok? && IsBrowserHello(Decode(hello).value)
    requires n <= |hello + Join(Passed(ms))|
    requires i < |ReadAll((hello + Join(Passed(ms)))[..n]).frames|
    ensures var f := ReadAll((hello + Join(Passed(ms)))[..n]).frames[i];
            && (i == 0 ==> Decode(hello) == Ok(f))
            && (i > 0 ==> OnWire(f) && !Originates(f))
  {
    hide Decode, Originates, IsBrowserHello, ReadAll, Passed, Join, Decoded;
    PipeIsFiltered(hello, ms, n);
    var fs := ReadAll((hello + Join(Passed(ms)))[..n]).frames;
    var later := Decoded(Passed(ms));
    assert fs[i] == ([Decode(hello).value] + later)[i];
    if i > 0 {
      DecodedEach(Passed(ms));
      assert fs[i] == later[i - 1];
      assert Decode(Passed(ms)[i - 1]) == Ok(fs[i]);
    }
  }

  /** What the router reads from a browser's pipe, wherever it is cut, is what the machine
      lets a door connection do: a HELLO it may greet with, then frames it may read. */
  lemma {:induction false} DoorPipeFeedsTheRouter(s: State, c: Conn, hello: seq<Byte>, ms: seq<seq<Byte>>, n: nat,
      i: nat)
    requires Decode(hello).Ok? && IsBrowserHello(Decode(hello).value)
    requires n <= |hello + Join(Passed(ms))|
    requires i < |ReadAll((hello + Join(Passed(ms)))[..n]).frames|
    ensures var f := ReadAll((hello + Join(Passed(ms)))[..n]).frames[i];
            && (i == 0 && c !in s.tasks && c !in s.turnedAway ==> Enabled(s, Greet(c, true, f)))
            && (i > 0 && At(s, c, Relaying) ==> Readable(s, c, f))
  {
    hide Decode, Originates, IsBrowserHello, ReadAll, Passed, Join;
    PipeFrame(hello, ms, n, i);
    if i == 0 {
      HelloIsHello(Decode(hello).value);
    }
  }

  lemma HelloIsHello(f: Frame)
    requires IsBrowserHello(f)
    ensures f.typ == HELLO
  {
    hide Kind;
  }
}
