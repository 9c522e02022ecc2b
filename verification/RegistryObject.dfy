/** The shared registry as the object the connection tasks lock: a map from ids to seats, the
    token counter, and the channels with the bytes they carry. Each method is one section
    of `handle` or `route_loop`; the machine's state is a ghost, and what ties the two
    together is that the channels hold the machine's queues, encoded. */
module RegistryObject {
  import opened Wrappers
  import opened Bytes
  import opened Utf8
  import opened Frames
  import opened Streams
  import opened Bodies
  import opened Ids
  import opened DoorRules
  import opened Forwarding
  import opened Router
  import opened RegistryInv
  import opened Delivery
  import opened RouterTheorems
  import opened Listings

  /** What a fan-out has made of task `c`, with the ids `left` still to be walked. */
  ghost function Fanned(was: State, except: Str, typ: Byte, left: set<Str>, c: Conn): Task
    requires c in was.tasks
  {
    if Hears(was, c, except) && was.tasks[c].id !in left
    then Enqueue(was.tasks[c], Item(RouterFrame(typ, was.tasks[c].id, EncodePeer(except)), FromRouter))
    else was.tasks[c]
  }

  /** The part of a fan-out done so far. */
  ghost predicate FannedOut(was: State, except: Str, typ: Byte, left: set<Str>, tasks: map<Conn, Task>) {
    tasks.Keys == was.tasks.Keys && forall c | c in was.tasks :: tasks[c] == Fanned(was, except, typ, left, c)
  }

  lemma FanStarts(was: State, except: Str, typ: Byte)
    ensures FannedOut(was, except, typ, was.peers.Keys, was.tasks)
  {
    hide RouterFrame, EncodePeer;
  }

  /** Walking one id changes what was made of its holder, and of nobody else. */
  lemma FanWalks(was: State, except: Str, typ: Byte, left: set<Str>, pid: Str, c: Conn)
    requires PeersNamed(was) && pid in left && pid in was.peers && c in was.tasks && was.peers[pid].conn in was.tasks
    ensures c != was.peers[pid].conn ==>
              Fanned(was, except, typ, left - {pid}, c) == Fanned(was, except, typ, left, c)
    ensures c == was.peers[pid].conn ==>
              && Fanned(was, except, typ, left, c) == was.tasks[c] && was.tasks[c].id == pid
              && (Hears(was, c, except) <==> pid != except && was.tasks[c].open)
  {
    hide RouterFrame, EncodePeer, Enqueue;
  }

  lemma FanStep(was: State, except: Str, typ: Byte, left: set<Str>, tasks: map<Conn, Task>, pid: Str)
    requires PeersNamed(was) && (forall x | x in was.peers :: was.peers[x].conn in was.tasks)
    requires FannedOut(was, except, typ, left, tasks) && pid in left && left <= was.peers.Keys
    ensures was.peers[pid].conn in tasks
    ensures var d := was.peers[pid].conn;
            var item := Item(RouterFrame(typ, pid, EncodePeer(except)), FromRouter);
            FannedOut(was, except, typ, left - {pid},
                      if pid != except && tasks[d].open then tasks[d := Enqueue(tasks[d], item)] else tasks)
  {
    var d := was.peers[pid].conn;
    FanWalks(was, except, typ, left, pid, d);
    hide RouterFrame, EncodePeer, Hears, Enqueue, PeersNamed;
    assert tasks[d] == was.tasks[d];
    forall c | c in was.tasks && c != d
      ensures Fanned(was, except, typ, left - {pid}, c) == Fanned(was, except, typ, left, c)
    {
      FanWalks(was, except, typ, left, pid, c);
    }
  }

  lemma FanEnds(was: State, except: Str, typ: Byte, tasks: map<Conn, Task>)
    requires FannedOut(was, except, typ, {}, tasks)
    ensures was.(tasks := tasks) == Broadcast(was, except, typ)
  {
    hide RouterFrame, EncodePeer;
    assert tasks == Broadcast(was, except, typ).tasks;
  }

  /** The entries walked so far. */
  function Seen(peers: map<Str, Peer>, left: set<Str>): map<Str, Peer> {
    map x | x in peers && x !in left :: peers[x]
  }

  lemma SeenSteps(peers: map<Str, Peer>, left: set<Str>)
    ensures Seen(peers, peers.Keys) == map[] && Seen(peers, {}) == peers
    ensures forall x | x in left && x in peers ::
            Seen(peers, left - {x}) == Seen(peers, left)[x := peers[x]] && x !in Seen(peers, left)
  {
  }

  lemma ListStarts(filter: Str)
    ensures IsListing(map[], filter, [])
  {
  }

  /** One more entry walked keeps a listing a listing. */
  lemma ListStep(seen: map<Str, Peer>, filter: Str, es: seq<Entry>, x: Str, p: Peer)
    requires IsListing(seen, filter, es) && x !in seen
    ensures var es' := if filter == [] || p.desc.brand == filter then es + [Entry(x, p.desc)] else es;
            IsListing(seen[x := p], filter, es')
  {
    assert x !in EntryIds(es);
    if filter == [] || p.desc.brand == filter {
      var es' := es + [Entry(x, p.desc)];
      assert EntryIds(es') == EntryIds(es) + {x};
      assert Matching(seen[x := p], filter) == Matching(seen, filter) + {x};
      forall i, j | 0 <= i < j < |es'| ensures es'[i].id != es'[j].id {
        assert es[i] in es && es[i].id in EntryIds(es);
      }
    } else {
      assert Matching(seen[x := p], filter) == Matching(seen, filter);
    }
  }

  // ── bytes and queues ───────────────────────────────────────────────────────

  type Channels = map<Conn, seq<seq<Byte>>>

  /** Every channel carries its queue, encoded. */
  ghost predicate Carries(tasks: map<Conn, Task>, channels: Channels) {
    channels.Keys == tasks.Keys && forall c | c in tasks :: channels[c] == Encodings(QueuedFrames(tasks[c]))
  }

  /** One message more on one channel. */
  function More(channels: Channels, c: Conn, b: seq<Byte>): Channels
    requires c in channels
  {
    channels[c := channels[c] + [b]]
  }

  predicate Gains(was: Channels, channels: Channels, c: Conn, b: seq<Byte>) {
    c in was && channels == More(was, c, b)
  }

  lemma EnqueueEncodes(t: Task, item: Item)
    ensures Encodings(QueuedFrames(Enqueue(t, item))) == Encodings(QueuedFrames(t)) + [Encode(item.frame)]
  {
    hide Encode;
  }

  lemma CarryOne(tasks: map<Conn, Task>, channels: Channels, c: Conn, item: Item)
    requires Carries(tasks, channels) && c in tasks
    ensures Carries(tasks[c := Enqueue(tasks[c], item)], More(channels, c, Encode(item.frame)))
  {
    hide Encode, Enqueue, Encodings, QueuedFrames;
    EnqueueEncodes(tasks[c], item);
  }

  lemma CarriedKeys(tasks: map<Conn, Task>, channels: Channels)
    requires Carries(tasks, channels)
    ensures channels.Keys == tasks.Keys
  {
  }

  lemma CarryOn(tasks: map<Conn, Task>, tasks': map<Conn, Task>, channels: Channels)
    requires Carries(tasks, channels) && tasks'.Keys == tasks.Keys
    requires forall c | c in tasks :: tasks'[c].queue == tasks[c].queue
    ensures Carries(tasks', channels)
  {
    hide Encodings;
    forall c | c in tasks ensures QueuedFrames(tasks'[c]) == QueuedFrames(tasks[c]) {
    }
  }

  /** The flags of the channels: whose receiver is held, whose eviction was fired. */
  ghost predicate Flags(tasks: map<Conn, Task>, open: set<Conn>, fired: set<Conn>) {
    && (forall c :: c in open <==> c in tasks && tasks[c].open)
    && (forall c :: c in fired <==> c in tasks && tasks[c].evictions > 0)
  }

  ghost predicate Seated(tasks: map<Conn, Task>, peers: map<Str, Peer>) {
    forall x | x in peers :: peers[x].conn in tasks
  }

  /** The fields of the object. */
  datatype View = View(peers: map<Str, Peer>, nextToken: nat, channels: Channels, open: set<Conn>, fired: set<Conn>)

  /** The fields show the machine's state. */
  ghost predicate Shows(s: State, v: View) {
    && s.peers == v.peers && v.nextToken == Token(s.taken + 1)
    && Seated(s.tasks, v.peers) && Carries(s.tasks, v.channels) && Flags(s.tasks, v.open, v.fired)
  }

  ghost predicate Sound(s: State) {
    Inv(s) && FramesOk(s)
  }

  lemma SoundInv(s: State)
    requires Sound(s)
    ensures Inv(s)
  {
  }

  lemma KeepsSound(s: State, st: Router.Step)
    requires Sound(s) && Enabled(s, st) && (st.Withdraw? ==> !Collides(s, st.c))
    ensures Sound(Next(s, st))
  {
    hide Inv, FramesOk, Enabled, Next, Collides;
    KeepsInv(s, st);
    KeepsFrames(s, st);
  }

  /** A token in use is another's only after 2^64 draws. */
  lemma TokenIsNew(s: State, x: Str)
    requires Inv(s) && x in s.peers && s.peers[x].token == Token(s.taken + 1)
    ensures s.taken >= TWO64
  {
    hide IsId, Kind, Tenure, LinksOk, TenuresOk, TicketsOk, PresenceOk, Token;
    assert EntryOk(s, x) && LocalOk(s, s.peers[x].conn);
    SameTokens(s.tasks[s.peers[x].conn].ticket, s.taken + 1);
  }

  // ── what each section shows ────────────────────────────────────────────────

  /** Nothing shown of the tasks changes. */
  ghost predicate SameBoxes(tasks: map<Conn, Task>, tasks': map<Conn, Task>) {
    && tasks'.Keys == tasks.Keys
    && forall c | c in tasks ::
         tasks'[c].queue == tasks[c].queue && tasks'[c].open == tasks[c].open
           && tasks'[c].evictions == tasks[c].evictions
  }

  lemma BoxesShow(s: State, s': State, v: View)
    requires Shows(s, v) && SameBoxes(s.tasks, s'.tasks)
    ensures Carries(s'.tasks, v.channels) && Flags(s'.tasks, v.open, v.fired) && Seated(s'.tasks, v.peers)
  {
    CarryOn(s.tasks, s'.tasks, v.channels);
    hide Carries, Token;
  }

  /** Nothing shown changes when a task moves on by itself. */
  lemma QuietShows(s: State, c: Conn, t: Task, v: View)
    requires Shows(s, v) && c in s.tasks
    requires t.queue == s.tasks[c].queue && t.open == s.tasks[c].open && t.evictions == s.tasks[c].evictions
    ensures Shows(Put(s, c, t), v)
  {
    assert SameBoxes(s.tasks, Put(s, c, t).tasks);
    hide SameBoxes, Carries, Flags, Seated, Token;
    BoxesShow(s, Put(s, c, t), v);
  }

  lemma TicketShows(s: State, c: Conn, v: View)
    requires Shows(s, v) && c in s.tasks
    ensures Shows(DoTicket(s, c), v.(nextToken := (v.nextToken + 1) % TWO64))
  {
    hide Carries, Flags, Seated;
    assert SameBoxes(s.tasks, DoTicket(s, c).tasks);
    hide SameBoxes;
    BoxesShow(s, DoTicket(s, c), v);
  }

  lemma InsertFacts(s: State, c: Conn)
    requires c in s.tasks
    ensures var s', t := DoInsert(s, c), s.tasks[c];
            && s'.host == s.host && c in s'.tasks
            && if t.door && t.id in s.peers then s'.peers == s.peers
               else s'.peers == s.peers[t.id := Peer(c, Token(t.ticket), t.desc)] && s'.tasks[c].id == t.id
                    && s'.tasks[c].phase == Inserted(if t.id in s.peers then Some(s.peers[t.id].conn) else None)
  {
    hide Token, RouterFrame, Ascii, Tenure;
  }

  lemma RegisterBoxes(s: State, c: Conn)
    requires c in s.tasks && !(s.tasks[c].door && s.tasks[c].id in s.peers)
    ensures SameBoxes(s.tasks, DoInsert(s, c).tasks) && DoInsert(s, c).taken == s.taken
  {
    hide Tenure, Token;
  }

  lemma RegisterShows(s: State, c: Conn, v: View)
    requires Shows(s, v) && c in s.tasks && !(s.tasks[c].door && s.tasks[c].id in s.peers)
    ensures var t := s.tasks[c]; Shows(DoInsert(s, c), v.(peers := v.peers[t.id := Peer(c, Token(t.ticket), t.desc)]))
  {
    RegisterBoxes(s, c);
    InsertFacts(s, c);
    hide Carries, Flags, Token, DoInsert, SameBoxes;
    BoxesShow(s, DoInsert(s, c), v);
  }

  lemma FlagsClose(tasks: map<Conn, Task>, c: Conn, t: Task, open: set<Conn>, fired: set<Conn>)
    requires Flags(tasks, open, fired) && c in tasks && !t.open && t.evictions == tasks[c].evictions
    ensures Flags(tasks[c := t], open - {c}, fired)
  {
  }

  lemma FlagsFire(tasks: map<Conn, Task>, o: Conn, t: Task, open: set<Conn>, fired: set<Conn>)
    requires Flags(tasks, open, fired) && o in tasks && t.open == tasks[o].open && t.evictions > 0
    ensures Flags(tasks[o := t], open, fired + {o})
  {
  }

  lemma TurnShows(s: State, c: Conn, v: View)
    requires Shows(s, v) && c in s.tasks && s.tasks[c].door && s.tasks[c].id in s.peers
    ensures Shows(DoInsert(s, c), v.(open := v.open - {c}))
  {
    hide RouterFrame, Ascii, Carries, Flags, Token;
    var t := s.tasks[c].(phase := Turned, open := false);
    HangupShows(s, c, t, v);
  }

  lemma HangupShows(s: State, c: Conn, t: Task, v: View)
    requires Shows(s, v) && c in s.tasks
    requires t.queue == s.tasks[c].queue && !t.open && t.evictions == s.tasks[c].evictions
    ensures Shows(Put(s, c, t), v.(open := v.open - {c}))
  {
    CarryOn(s.tasks, Put(s, c, t).tasks, v.channels);
    hide Carries, Flags, Token;
    FlagsClose(s.tasks, c, t, v.open, v.fired);
  }

  lemma FireShows(s: State, o: Conn, t: Task, v: View)
    requires Shows(s, v) && o in s.tasks
    requires t.queue == s.tasks[o].queue && t.open == s.tasks[o].open && t.evictions > 0
    ensures Shows(Put(s, o, t), v.(fired := v.fired + {o}))
  {
    CarryOn(s.tasks, Put(s, o, t).tasks, v.channels);
    hide Carries, Flags, Token;
    FlagsFire(s.tasks, o, t, v.open, v.fired);
  }

  lemma SignalShows(s: State, c: Conn, o: Conn, v: View)
    requires Shows(s, v) && c in s.tasks && s.tasks[c].phase == Inserted(Some(o)) && o in s.tasks
    ensures Shows(DoSignal(s, c), v.(fired := v.fired + {o}))
  {
    hide Shows;
    var m := Move(s, c, Signalled);
    QuietShows(s, c, m.tasks[c], v);
    FireShows(m, o, m.tasks[o].(evictions := m.tasks[o].evictions + 1), v);
  }

  lemma WithdrawBoxes(s: State, c: Conn)
    requires c in s.tasks
    ensures SameBoxes(s.tasks, DoWithdraw(s, c).tasks) && DoWithdraw(s, c).taken == s.taken
    ensures var t, s' := s.tasks[c], DoWithdraw(s, c);
            && s'.host == s.host
            && s'.peers ==
               if t.id in s.peers && s.peers[t.id].token == Token(t.ticket) then s.peers - {t.id} else s.peers
  {
    hide Token;
  }

  lemma WithdrawShows(s: State, c: Conn, v: View)
    requires Shows(s, v) && c in s.tasks
    ensures var t := s.tasks[c];
            var gone := t.id in v.peers && v.peers[t.id].token == Token(t.ticket);
            Shows(DoWithdraw(s, c), if gone then v.(peers := v.peers - {t.id}) else v)
  {
    WithdrawBoxes(s, c);
    hide Carries, Flags, Token, DoWithdraw, SameBoxes;
    BoxesShow(s, DoWithdraw(s, c), v);
  }

  lemma NewShows(s: State, c: Conn, t: Task, v: View)
    requires Shows(s, v) && c !in s.tasks && t.queue == [] && t.open && t.evictions == 0
    ensures Shows(Put(s, c, t), v.(channels := v.channels[c := []], open := v.open + {c}))
  {
    hide Token;
  }

  lemma RoutesShown(s: State, id: Str, v: View)
    requires Shows(s, v)
    ensures Routes(s, id) <==> id in v.peers && v.peers[id].conn in v.open
  {
    hide Carries, Token;
  }

  lemma SendShows(s: State, id: Str, item: Item, v: View)
    requires Shows(s, v)
    ensures Routes(s, id) <==> id in v.peers && v.peers[id].conn in v.open
    ensures if Routes(s, id)
            then v.peers[id].conn in v.channels
                 && Shows(SendTo(s, id, item), v.(channels := More(v.channels, v.peers[id].conn, Encode(item.frame))))
            else SendTo(s, id, item) == s
  {
    RoutesShown(s, id, v);
    if Routes(s, id) {
      var d := s.peers[id].conn;
      SeatedIn(s, v);
      hide Shows, Encode, Enqueue, More;
      EnqueueShows(s, d, item, v);
    }
  }

  // ── what the machine's invariant says of a section ─────────────────────────

  /** Whoever a registration ousts is out of the registry and not yet told. */
  lemma OustedOwed(s: State, c: Conn, o: Conn)
    requires Inv(s) && At(s, c, Inserted(Some(o)))
    ensures o in s.tasks && o != c && s.tasks[o].evictions == 0 && !Registered(s, o)
  {
    hide IsId, Kind, Tenure, TicketsOk, TenuresOk, PresenceOk, SeatOk, LocalsOk;
    assert LinkOk(s, c) && LinkOk(s, o);
    assert s.tasks[o].fate == Replaced(c);
    var x := s.tasks[o].id;
    if x in s.peers {
      assert EntryOk(s, x);
    }
  }

  lemma ForwardSizes(s: State, c: Conn, f: Frame)
    requires Sound(s) && Enabled(s, Router.Step.Forward(c, f)) && Routes(s, f.to)
    ensures Sized(Restamp(f, s.tasks[c].id))
  {
    hide FramesOk, LinksOk, TicketsOk, TenuresOk, LocalsOk, PeersOk, Sized, DoForward, OnWire, Originates;
    ForwardShape(s, c, f);
  }

  lemma SmallIsRead(typ: Byte, to: Str, payload: seq<Byte>)
    requires |to| <= 41 && |payload| <= 4 * TWO16
    ensures var f := RouterFrame(typ, to, payload); Decode(Encode(f)) == Ok(f)
  {
    RouterFrameSized(typ, to, payload);
    DecodeEncode(RouterFrame(typ, to, payload));
    hide Encode, Decode;
    LocalName();
  }

  lemma SizedIsRead(f: Frame)
    requires Sized(f)
    ensures Decode(Encode(f)) == Ok(f) <==> BodySize(f) <= MAX_FRAME
    ensures Decode(Encode(f)).Err? <==> BodySize(f) > MAX_FRAME
  {
    DecodeEncode(f);
    hide Encode, Decode;
  }

  lemma ShortId(s: State, c: Conn)
    requires Sound(s) && c in s.tasks
    ensures |s.tasks[c].id| <= 41 && (s.tasks[c].phase.Owing? ==> |s.tasks[c].phase.dest| < 3 * TWO16)
  {
    hide IsId, ErrorsOk, DeliveredOk, PeersOk, LinksOk, TicketsOk, TenuresOk;
    IdsAreShort(s);
    assert QueueOk(s, c);
    hide LocalsOk;
    OwedIsShort(s.tasks[c]);
  }

  lemma SignalNone(s: State, c: Conn)
    requires At(s, c, Inserted(None))
    ensures DoSignal(s, c) == Put(s, c, s.tasks[c].(phase := Signalled))
  {
  }

  lemma SignalHost(s: State, c: Conn)
    requires c in s.tasks && s.tasks[c].phase.Inserted?
    ensures DoSignal(s, c).host == s.host
  {
  }

  lemma HolderIsRegistered(s: State, x: Str)
    requires Inv(s) && x in s.peers
    ensures Registered(s, s.peers[x].conn)
  {
    hide LocalsOk, LinksOk, TicketsOk, TenuresOk, Tenure;
    assert EntryOk(s, x);
  }

  lemma NotFired(s: State, v: View)
    requires Shows(s, v)
    ensures forall c | c in s.tasks && s.tasks[c].evictions == 0 :: c !in v.fired
  {
    hide Carries, Seated, Token;
  }

  lemma ForwardParts(s: State, c: Conn, f: Frame)
    requires c in s.tasks
    ensures var t, ok := s.tasks[c], Routes(s, f.to);
            var m := Put(s, c, t.(sent := t.sent + [Sent(f, ok)], phase := if ok then Relaying else Owing(f.to)));
            DoForward(s, c, f) == SendTo(m, f.to, Item(Restamp(f, t.id), FromConn(c))) && (Routes(m, f.to) <==> ok)
  {
  }

  lemma UnknownIsRead(to: Str)
    requires |to| <= 41
    ensures Decode(Encode(Unknown(to))) == Ok(Unknown(to))
  {
    hide Decode, Encode;
    SmallIsRead(ERROR, to, UNKNOWN_CONTROL);
  }

  lemma ControlParts(s: State, c: Conn, f: Frame)
    requires c in s.tasks
    ensures DoControl(s, c, f) ==
            if f.typ == HELLO then s else SendTo(s, s.tasks[c].id, Item(Unknown(s.tasks[c].id), FromRouter))
  {
    hide SendTo;
  }

  lemma TellParts(s: State, c: Conn)
    requires c in s.tasks && s.tasks[c].phase.Owing?
    ensures var t := s.tasks[c];
            var m := Put(s, c, t.(errors := t.errors + [t.phase.dest], phase := Relaying));
            var g := RouterFrame(ERROR, t.id, NoRoute(t.phase.dest));
            DoTellNoRoute(s, c) == SendTo(m, t.id, Item(g, FromRouter))
  {
    hide Ascii, RouterFrame;
  }

  lemma ReplyParts(s: State, c: Conn)
    requires c in s.tasks && s.tasks[c].phase.Listed?
    ensures var t := s.tasks[c];
            var m := Put(s, c, t.(phase := Relaying));
            DoReply(s, c) == SendTo(m, t.id, Item(Listing(t.id, t.phase.entries), FromRouter))
  {
    hide EncodeProviders, RouterFrame;
  }

  /** Each registered peer but the subject that still takes messages got one, naming the
      subject, and no other channel changed. */
  ghost predicate Notified(was: View, channels: Channels, except: Str, typ: Byte) {
    && channels.Keys == was.channels.Keys
    && (forall x | x in was.peers && x != except && was.peers[x].conn in was.open ::
          var c := was.peers[x].conn;
          c in channels && channels[c] == was.channels[c] + [Encode(RouterFrame(typ, x, EncodePeer(except)))])
    && (forall c | c in channels && (c !in was.open || forall x | x in was.peers && x != except ::
                                                              was.peers[x].conn != c) ::
          channels[c] == was.channels[c])
  }

  lemma HeardBytes(s: State, v: View, except: Str, typ: Byte, channels: Channels, c: Conn)
    requires Shows(s, v) && Carries(Broadcast(s, except, typ).tasks, channels) && c in s.tasks
    ensures c in v.channels && c in channels
    ensures channels[c] == v.channels[c] +
              if Hears(s, c, except) then [Encode(RouterFrame(typ, s.tasks[c].id, EncodePeer(except)))] else []
  {
    hide Encode, RouterFrame, EncodePeer, Enqueue, Encodings, QueuedFrames, Flags, Seated, Token, Hears;
    if Hears(s, c, except) {
      EnqueueEncodes(s.tasks[c], Item(RouterFrame(typ, s.tasks[c].id, EncodePeer(except)), FromRouter));
    }
  }

  lemma FanBytes(s: State, v: View, except: Str, typ: Byte, channels: Channels)
    requires Shows(s, v) && PeersNamed(s) && Carries(Broadcast(s, except, typ).tasks, channels)
    ensures Notified(v, channels, except, typ)
  {
    hide Encode, RouterFrame, EncodePeer, Enqueue, Encodings, QueuedFrames, Token, Broadcast;
    SameChannels(s, v, except, typ, channels);
    forall c | c in s.tasks
      ensures c in channels && c in v.channels && channels[c] == v.channels[c] +
        if Hears(s, c, except) then [Encode(RouterFrame(typ, s.tasks[c].id, EncodePeer(except)))] else []
    {
      HeardBytes(s, v, except, typ, channels, c);
    }
    hide Carries;
  }

  lemma SameChannels(s: State, v: View, except: Str, typ: Byte, channels: Channels)
    requires Shows(s, v) && Carries(Broadcast(s, except, typ).tasks, channels)
    ensures channels.Keys == v.channels.Keys == s.tasks.Keys
  {
    hide RouterFrame, EncodePeer, Hears, Encodings;
  }

  lemma FanShows(s: State, v: View, except: Str, typ: Byte, channels: Channels)
    requires Shows(s, v) && Carries(Broadcast(s, except, typ).tasks, channels)
    ensures Shows(Broadcast(s, except, typ), v.(channels := channels)) && Broadcast(s, except, typ).host == s.host
  {
    hide RouterFrame, EncodePeer, Hears, Encodings, Carries, Token;
  }

  lemma FanOpen(s: State, v: View, except: Str, typ: Byte, left: set<Str>, tasks: map<Conn, Task>, x: Str)
    requires Shows(s, v) && FannedOut(s, except, typ, left, tasks) && x in v.peers
    ensures v.peers[x].conn in tasks && (tasks[v.peers[x].conn].open <==> v.peers[x].conn in v.open)
  {
    hide RouterFrame, EncodePeer, Hears, Carries, Token;
  }

  lemma SeatedIn(s: State, v: View)
    requires Shows(s, v)
    ensures s.peers == v.peers && (forall x | x in s.peers :: s.peers[x].conn in s.tasks)
            && Carries(s.tasks, v.channels)
  {
    hide Carries, Flags, Token;
  }

  lemma TurnedShows(s: State, c: Conn, answer: seq<Frame>, v: View)
    requires Shows(s, v)
    ensures Shows(s.(turnedAway := s.turnedAway[c := answer]), v)
  {
    hide Carries, Flags, Seated;
  }

  lemma SoundNamed(s: State)
    requires Sound(s)
    ensures PeersNamed(s)
  {
    hide Inv, FramesOk;
    PeersFrom(s);
  }

  lemma AnnounceParts(s: State, c: Conn)
    requires c in s.tasks
    ensures var t := s.tasks[c];
            && DoAnnounceUp(s, c) == Broadcast(Put(s, c, t.(phase := Relaying, ups := t.ups + 1)), t.id, PEER_CONNECTED)
            && (t.phase == Withdrawn(true) ==>
                  DoAnnounceDown(s, c) ==
                  Broadcast(Put(s, c, t.(phase := Closing, downs := t.downs + 1)), t.id, PEER_DISCONNECTED))
  {
    hide Broadcast;
  }

  lemma WelcomeParts(s: State, c: Conn)
    requires c in s.tasks
    ensures var m := Move(s, c, Welcomed);
            var t := m.tasks[c];
            DoWelcome(s, c) ==
            if t.open then Put(m, c, Enqueue(t, Item(RouterFrame(WELCOME, t.id, []), FromRouter))) else m
  {
    hide RouterFrame;
  }

  lemma FlagsKeep(tasks: map<Conn, Task>, c: Conn, t: Task, open: set<Conn>, fired: set<Conn>)
    requires Flags(tasks, open, fired) && c in tasks && t.open == tasks[c].open && t.evictions == tasks[c].evictions
    ensures Flags(tasks[c := t], open, fired) && (t.open <==> c in open)
  {
  }

  lemma EnqueueShows(s: State, c: Conn, item: Item, v: View)
    requires Shows(s, v) && c in s.tasks
    ensures c in v.channels
    ensures Shows(Put(s, c, Enqueue(s.tasks[c], item)), v.(channels := More(v.channels, c, Encode(item.frame))))
    ensures s.tasks[c].open <==> c in v.open
  {
    CarriedKeys(s.tasks, v.channels);
    hide Encode, Token, Carries, Flags, More;
    CarryOne(s.tasks, v.channels, c, item);
    FlagsKeep(s.tasks, c, Enqueue(s.tasks[c], item), v.open, v.fired);
  }

  lemma WelcomeShows(s: State, c: Conn, v: View)
    requires Shows(s, v) && c in s.tasks
    ensures var g := RouterFrame(WELCOME, s.tasks[c].id, []);
            && c in v.channels && DoWelcome(s, c).host == s.host
            && Shows(DoWelcome(s, c), if c in v.open then v.(channels := More(v.channels, c, Encode(g))) else v)
  {
    hide Shows, Encode, RouterFrame, More;
    var m := Move(s, c, Welcomed);
    WelcomeParts(s, c);
    QuietShows(s, c, m.tasks[c], v);
    EnqueueShows(m, c, Item(RouterFrame(WELCOME, s.tasks[c].id, []), FromRouter), v);
  }

  lemma WithdrawIsExact(s: State, c: Conn)
    requires Sound(s) && At(s, c, Left)
    ensures s.tasks[c].id in s.peers && s.peers[s.tasks[c].id].token == Token(s.tasks[c].ticket) <==>
            Registered(s, c) || Collides(s, c)
    ensures Sound(DoWithdraw(s, c)) <==> !Collides(s, c)
  {
    hide Inv, FramesOk, Collides, Registered, DoWithdraw;
    CleanupKnowsItself(s, c);
    CleanupIsSafeExactly(s, c);
    KeepsFrames(s, Router.Step.Withdraw(c));
  }

  class Registry {
    const host: Host
    var peers: map<Str, Peer>
    var nextToken: nat
    var channels: Channels
    var open: set<Conn>
    var fired: set<Conn>
    ghost var now: State

    ghost function Fields(): View
      reads this
    {
      View(peers, nextToken, channels, open, fired)
    }

    ghost predicate Represents()
      reads this
    {
      now.host == host && Shows(now, Fields())
    }

    ghost predicate Valid()
      reads this
    {
      Represents() && Sound(now)
    }

    constructor (host: Host)
      ensures Valid() && now == Init(host) && peers == map[]
    {
      this.host := host;
      peers, nextToken, channels, open, fired, now := map[], 1, map[], {}, {}, Init(host);
      InitInv(host);
      InitFrames(host);
      hide Inv, FramesOk;
    }

    /** src/router.rs:95: no registered connection has the token drawn, unless 2^64 draws
        lie between. */
    method TakeToken(c: Conn) returns (token: nat)
      requires Valid() && At(now, c, Greeted)
      modifies `nextToken, `now
      ensures Valid() && now == DoTicket(old(now), c)
      ensures c in now.tasks && token == Token(now.tasks[c].ticket) < TWO64
      ensures forall x | x in peers && peers[x].token == token :: now.taken > TWO64
    {
      hide Inv, FramesOk, Seated, Carries, Flags;
      forall x | x in now.peers && now.peers[x].token == Token(now.taken + 1) ensures now.taken >= TWO64 {
        TokenIsNew(now, x);
      }
      TicketShows(now, c, Fields());
      KeepsSound(now, Ticket(c));
      token := nextToken;
      nextToken := (nextToken + 1) % TWO64;
      now := Next(now, Ticket(c));
    }

    /** Check and insert under one lock: whoever may take over is registered from here on,
        and whoever held the id until now is out, its eviction not yet fired; a browser
        whose id is taken changes nothing. */
    method Register(c: Conn, id: Str, desc: Descriptor, token: nat, takeOver: bool)
      returns (registered: bool, evicted: Option<Conn>)
      requires Valid() && At(now, c, Ticketed)
      requires now.tasks[c].id == id && now.tasks[c].desc == desc && token == Token(now.tasks[c].ticket)
      requires takeOver <==> !now.tasks[c].door
      modifies `peers, `open, `now
      ensures Valid() && now == DoInsert(old(now), c)
      ensures registered <==> takeOver || id !in old(peers)
      ensures registered ==> Registered(now, c) && peers - {id} == old(peers) - {id}
      ensures evicted.Some? <==> takeOver && id in old(peers)
      ensures evicted.Some? ==>
                && Registered(old(now), evicted.value) && !Registered(now, evicted.value)
                && evicted.value !in fired && now.tasks[c].phase == Inserted(evicted)
      ensures !registered ==> peers == old(peers)
    {
      hide Sound, Carries, Flags, Seated, Token, DoInsert;
      ghost var was := now;
      InsertFacts(was, c);
      KeepsSound(was, Router.Step.Insert(c));
      if !takeOver && id in peers {
        TurnShows(was, c, Fields());
        open := open - {c};
        now := DoInsert(was, c);
        return false, None;
      }
      RegisterShows(was, c, Fields());
      if id in peers {
        SoundInv(was);
        SoundInv(DoInsert(was, c));
        HolderIsRegistered(was, id);
        OustedOwed(DoInsert(was, c), c, peers[id].conn);
        evicted := Some(peers[id].conn);
      } else {
        evicted := None;
      }
      registered := true;
      peers := peers[id := Peer(c, token, desc)];
      now := DoInsert(was, c);
      NotFired(now, Fields());
    }

    /** The evicted peer is told, once: nobody fired its channel before. */
    method Evict(c: Conn, evicted: Option<Conn>)
      requires Valid() && At(now, c, Inserted(evicted))
      modifies `fired, `now
      ensures Valid() && now == DoSignal(old(now), c)
      ensures evicted.Some? ==> evicted.value !in old(fired)
      ensures fired == old(fired) + match evicted case Some(o) => {o} case None => {}
    {
      hide Sound, Carries, Flags, Seated, Token, DoSignal;
      ghost var was := now;
      KeepsSound(was, Signal(c));
      match evicted {
        case Some(o) =>
          SoundInv(was);
          OustedOwed(was, c, o);
          NotFired(was, Fields());
          SignalShows(was, c, o, Fields());
          fired := fired + {o};
        case None =>
          SignalNone(was, c);
          QuietShows(was, c, was.tasks[c].(phase := Signalled), Fields());
      }
      now := DoSignal(was, c);
      SignalHost(was, c);
    }

    /** `send_to`: one message onto the channel registered under the id, if its receiver
        is still there; nothing else changes. */
    method Send(id: Str, bytes: seq<Byte>, ghost item: Item) returns (ok: bool)
      requires Represents() && bytes == Encode(item.frame)
      modifies `channels, `now
      ensures Represents() && now == SendTo(old(now), id, item)
      ensures ok <==> Routes(old(now), id)
      ensures ok <==> id in peers && peers[id].conn in open
      ensures if ok then Gains(old(channels), channels, peers[id].conn, bytes) else channels == old(channels)
    {
      hide Shows, Encode;
      SendShows(now, id, item, Fields());
      if id in peers && peers[id].conn in open {
        channels := More(channels, peers[id].conn, bytes);
        now := SendTo(now, id, item);
        return true;
      }
      return false;
    }

    /** One turn of `route_loop`: a frame for another node goes out under the registered id
        it came from, and whoever reads it gets just that, or refuses it as too long. */
    method Forward(c: Conn, id: Str, f: Frame) returns (ok: bool)
      requires Valid() && c in now.tasks && now.tasks[c].id == id && Enabled(now, Router.Step.Forward(c, f))
      modifies `channels, `now
      ensures Valid() && now == DoForward(old(now), c, f)
      ensures ok <==> f.to in peers && peers[f.to].conn in open
      ensures var g := f.(from := id);
              if ok then
                && Gains(old(channels), channels, peers[f.to].conn, Encode(g))
                && (Decode(Encode(g)) == Ok(g) <==> BodySize(g) <= MAX_FRAME)
                && (Decode(Encode(g)).Err? <==> BodySize(g) > MAX_FRAME)
              else channels == old(channels)
    {
      hide Sound, Shows, Encode, Decode, Sized, Enabled, DoForward, SendTo, Routes;
      ghost var was := now;
      KeepsSound(was, Router.Step.Forward(c, f));
      StepsATask(was, Router.Step.Forward(c, f));
      ForwardParts(was, c, f);
      if Routes(was, f.to) {
        ForwardSizes(was, c, f);
        SizedIsRead(Restamp(f, id));
      }
      ghost var t, went := was.tasks[c], Routes(was, f.to);
      t := t.(sent := t.sent + [Sent(f, went)], phase := if went then Relaying else Owing(f.to));
      QuietShows(was, c, t, Fields());
      now := Put(was, c, t);
      var bytes := EncodeFrame(Restamp(f, id));
      ok := Send(f.to, bytes, Item(Restamp(f, id), FromConn(c)));
    }

    /** The refused frame's sender is told, in a frame it can read. */
    method TellNoRoute(c: Conn, id: Str, dest: Str)
      requires Valid() && At(now, c, Owing(dest)) && now.tasks[c].id == id
      modifies `channels, `now
      ensures Valid() && now == DoTellNoRoute(old(now), c)
      ensures var g := RouterFrame(ERROR, id, NoRoute(dest));
              && Decode(Encode(g)) == Ok(g)
              && if id in peers && peers[id].conn in open then Gains(old(channels), channels, peers[id].conn, Encode(g))
                 else channels == old(channels)
    {
      hide Sound, Shows, Encode, Decode, Ascii, DoTellNoRoute, SendTo, Routes;
      ghost var was, t := now, now.tasks[c];
      KeepsSound(was, Router.Step.TellNoRoute(c));
      TellParts(was, c);
      ShortId(was, c);
      SmallIsRead(ERROR, id, NoRoute(dest));
      QuietShows(was, c, t.(errors := t.errors + [dest], phase := Relaying), Fields());
      now := Put(was, c, t.(errors := t.errors + [dest], phase := Relaying));
      var g := RouterFrame(ERROR, id, NoRoute(dest));
      var bytes := EncodeFrame(g);
      var _ := Send(id, bytes, Item(g, FromRouter));
    }

    /** `list`: a snapshot under one lock, whatever order the map is walked in. */
    method List(filter: Str) returns (es: seq<Entry>)
      ensures IsListing(peers, filter, es)
    {
      hide IsListing, Seen;
      es := [];
      var left := peers.Keys;
      ListStarts(filter);
      SeenSteps(peers, left);
      while left != {}
        invariant left <= peers.Keys && IsListing(Seen(peers, left), filter, es)
      {
        SeenSteps(peers, left);
        var x :| x in left;
        ListStep(Seen(peers, left), filter, es, x, peers[x]);
        if filter == [] || peers[x].desc.brand == filter {
          es := es + [Entry(x, peers[x].desc)];
        }
        left := left - {x};
      }
      SeenSteps(peers, left);
    }

    /** What was listed goes to whoever holds the asker's id by now, and reads as what was
        listed exactly if that fits. */
    method Reply(c: Conn, id: Str, es: seq<Entry>)
      requires Valid() && At(now, c, Listed(es)) && now.tasks[c].id == id
      modifies `channels, `now
      ensures Valid() && now == DoReply(old(now), c)
      ensures var g := Listing(id, es);
              && (Understood(Encode(g)) == Some(es) <==> ProvidersFit(es) && BodySize(g) <= MAX_FRAME)
              && if id in peers && peers[id].conn in open then Gains(old(channels), channels, peers[id].conn, Encode(g))
                 else channels == old(channels)
    {
      hide Sound, Shows, Encode, Understood, Listing, EncodeProviders, DoReply, SendTo, Routes, ProvidersFit;
      ghost var was, t := now, now.tasks[c];
      KeepsSound(was, Router.Step.Reply(c));
      ReplyParts(was, c);
      ShortId(was, c);
      ListingIsUnderstood(id, es, []);
      QuietShows(was, c, t.(phase := Relaying), Fields());
      now := Put(was, c, t.(phase := Relaying));
      var bytes := EncodeFrame(Listing(id, es));
      var _ := Send(id, bytes, Item(Listing(id, es), FromRouter));
    }

    /** `broadcast`: walks the registry in whatever order it has. */
    method FanOut(except: Str, typ: Byte)
      requires Represents() && PeersNamed(now)
      modifies `channels, `now
      ensures Represents() && now == Broadcast(old(now), except, typ)
      ensures Notified(old(Fields()), channels, except, typ)
    {
      hide EncodePeer, RouterFrame, Broadcast, FannedOut, PeersNamed, Shows, Carries, Notified, Encode;
      ghost var was, v := now, Fields();
      ghost var tasks := now.tasks;
      var left := peers.Keys;
      SeatedIn(was, v);
      FanStarts(was, except, typ);
      while left != {}
        invariant left <= peers.Keys && FannedOut(was, except, typ, left, tasks) && Carries(tasks, channels)
      {
        var pid :| pid in left;
        FanStep(was, except, typ, left, tasks, pid);
        FanOpen(was, v, except, typ, left, tasks, pid);
        var d := peers[pid].conn;
        if pid != except && d in open {
          var f := RouterFrame(typ, pid, EncodePeer(except));
          CarryOne(tasks, channels, d, Item(f, FromRouter));
          CarriedKeys(tasks, channels);
          var bytes := EncodeFrame(f);
          channels := More(channels, d, bytes);
          tasks := tasks[d := Enqueue(tasks[d], Item(f, FromRouter))];
        }
        left := left - {pid};
      }
      FanEnds(was, except, typ, tasks);
      FanShows(was, v, except, typ, channels);
      FanBytes(was, v, except, typ, channels);
      now := was.(tasks := tasks);
    }

    /** A control frame: a HELLO again is ignored, anything else answered with one error. */
    method Control(c: Conn, id: Str, f: Frame)
      requires Valid() && Readable(now, c, f) && f.to == [] && f.typ != PROVIDERS_LIST
      requires now.tasks[c].id == id
      modifies `channels, `now
      ensures Valid() && now == DoControl(old(now), c, f)
      ensures var g := Unknown(id);
              && Decode(Encode(g)) == Ok(g)
              && if f.typ != HELLO && id in peers && peers[id].conn in open
                 then Gains(old(channels), channels, peers[id].conn, Encode(g)) else channels == old(channels)
    {
      hide Sound, Shows, Encode, Decode, Unknown, DoControl, SendTo, Routes;
      KeepsSound(now, Router.Step.Control(c, f));
      ShortId(now, c);
      UnknownIsRead(id);
      ControlParts(now, c, f);
      if f.typ != HELLO {
        var bytes := EncodeFrame(Unknown(id));
        var _ := Send(id, bytes, Item(Unknown(id), FromRouter));
      }
    }

    /** `tx.send` onto the task's own channel, whoever holds its id by now. */
    method Welcome(c: Conn, id: Str)
      requires Valid() && At(now, c, Signalled) && now.tasks[c].id == id
      modifies `channels, `now
      ensures Valid() && now == DoWelcome(old(now), c)
      ensures var g := RouterFrame(WELCOME, id, []);
              && Decode(Encode(g)) == Ok(g)
              && if c in open then Gains(old(channels), channels, c, Encode(g)) else channels == old(channels)
    {
      hide Sound, Shows, Encode, Decode, DoWelcome, RouterFrame, More;
      ghost var was := now;
      KeepsSound(was, Router.Step.Welcome(c));
      ShortId(was, c);
      SmallIsRead(WELCOME, id, []);
      WelcomeShows(was, c, Fields());
      if c in open {
        var bytes := EncodeFrame(RouterFrame(WELCOME, id, []));
        channels := More(channels, c, bytes);
      }
      now := DoWelcome(was, c);
    }

    /** The PEER_CONNECTED fan-out. */
    method Announce(c: Conn, id: Str)
      requires Valid() && At(now, c, Welcomed) && now.tasks[c].id == id
      modifies `channels, `now
      ensures Valid() && now == DoAnnounceUp(old(now), c)
      ensures Notified(old(Fields()), channels, id, PEER_CONNECTED)
    {
      hide Sound, Shows, Broadcast, PeersNamed, DoAnnounceUp, Notified;
      ghost var was, t := now, now.tasks[c];
      KeepsSound(was, Router.Step.AnnounceUp(c));
      AnnounceParts(was, c);
      SoundNamed(was);
      t := t.(phase := Relaying, ups := t.ups + 1);
      PutNamed(was, c, t);
      QuietShows(was, c, t, Fields());
      now := Put(was, c, t);
      FanOut(id, PEER_CONNECTED);
    }

    /** The PEER_DISCONNECTED fan-out, of a connection that left the registry itself. */
    method Depart(c: Conn, id: Str)
      requires Valid() && At(now, c, Withdrawn(true)) && now.tasks[c].id == id
      modifies `channels, `now
      ensures Valid() && now == DoAnnounceDown(old(now), c)
      ensures Notified(old(Fields()), channels, id, PEER_DISCONNECTED)
    {
      hide Sound, Shows, Broadcast, PeersNamed, DoAnnounceDown, Notified;
      ghost var was, t := now, now.tasks[c];
      KeepsSound(was, Router.Step.AnnounceDown(c));
      AnnounceParts(was, c);
      SoundNamed(was);
      t := t.(phase := Closing, downs := t.downs + 1);
      PutNamed(was, c, t);
      QuietShows(was, c, t, Fields());
      now := Put(was, c, t);
      FanOut(id, PEER_DISCONNECTED);
    }

    /** The cleanup compares tokens, and that says exactly whether this connection is still
        the registered one, or its token collides with its successor's; only then does
        the invariant not survive. */
    method Deregister(c: Conn, id: Str, token: nat) returns (wasCurrent: bool)
      requires Valid() && At(now, c, Left)
      requires now.tasks[c].id == id && token == Token(now.tasks[c].ticket)
      modifies `peers, `now
      ensures Represents() && now == DoWithdraw(old(now), c)
      ensures wasCurrent <==> Registered(old(now), c) || Collides(old(now), c)
      ensures peers == if wasCurrent then old(peers) - {id} else old(peers)
      ensures Valid() <==> !Collides(old(now), c)
    {
      hide Sound, Carries, Flags, Seated, Token, DoWithdraw, Registered, Collides;
      ghost var was := now;
      WithdrawShows(was, c, Fields());
      WithdrawBoxes(was, c);
      WithdrawIsExact(was, c);
      wasCurrent := id in peers && peers[id].token == token;
      if wasCurrent {
        peers := peers - {id};
      }
      now := DoWithdraw(was, c);
    }

    /** The writer is gone: aborted at the end of its task, or failed. */
    method Hangup(c: Conn, ghost st: Router.Step)
      requires Valid() && (st == Abort(c) || st == WriterFails(c)) && Enabled(now, st)
      modifies `open, `now
      ensures Valid() && now == Next(old(now), st) && open == old(open) - {c}
      ensures forall x | x in peers && peers[x].conn == c :: !Routes(now, x)
    {
      hide Sound, Carries, Flags, Seated;
      KeepsSound(now, st);
      HangupShows(now, c, Next(now, st).tasks[c], Fields());
      open := open - {c};
      now := Next(now, st);
    }

    /** What a task does by itself between two sections. */
    ghost method Aside(st: Router.Step)
      requires Valid() && Enabled(now, st) && (st.Leave? || st.List?)
      modifies `now
      ensures Valid() && now == Next(old(now), st)
    {
      hide Sound, Shows, OnWire, Originates, IsListing, DecodeBrandFilter;
      KeepsSound(now, st);
      QuietShows(now, st.c, Next(now, st).tasks[st.c], Fields());
      now := Next(now, st);
    }

    /** A HELLO: an id of this host, a descriptor and an empty channel, or nothing at all. */
    method Accept(c: Conn, door: bool, hello: Frame) returns (r: Result<(Str, Descriptor), seq<Frame>>)
      requires Valid() && Enabled(now, Greet(c, door, hello))
      modifies `channels, `open, `now
      ensures Valid() && now == DoGreet(old(now), c, door, hello)
      ensures r.Ok? <==> Stamp(hello.from, host).Some? && DecodeHello(hello.payload).Ok?
      ensures if r.Ok? then IsId(r.value.0, host) && DecodeHello(hello.payload) == Ok(r.value.1)
                            && channels == old(channels)[c := []] && open == old(open) + {c}
              else channels == old(channels) && open == old(open)
    {
      hide Sound, Shows, Stamp, DecodeHello, IsId, Ascii, RouterFrame, OnWire, IsBrowserHello;
      KeepsSound(now, Greet(c, door, hello));
      r := Greeting(host, hello);
      match r {
        case Ok((id, d)) =>
          Stamped(hello.from, host);
          NewShows(now, c, Task(door, id, d, 0, Greeted, Unregistered, 0, [], true, [], [], 0, 0), Fields());
          channels, open := channels[c := []], open + {c};
        case Err(answer) =>
          TurnedShows(now, c, answer, Fields());
      }
      now := DoGreet(now, c, door, hello);
    }
  }
}
