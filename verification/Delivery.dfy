/** What every run of the router keeps about frames: who made each one queued, and
    that forwards arrive in order, once, across takeovers. */
module Delivery {
  import opened Wrappers
  import opened Bytes
  import opened Utf8
  import opened Frames
  import opened Streams
  import opened Bodies
  import opened Ids
  import opened DoorRules
  import opened Forwarding
  import opened Router
  import opened RegistryInv

  // ── what was read, and what arrived ────────────────────────────────────────

  /** The frames of a queue that connection `a` sent. */
  function SentBy(q: seq<Item>, a: Conn): seq<Frame> {
    if q == [] then []
    else SentBy(q[..|q| - 1], a) + if q[|q| - 1].src == FromConn(a) then [q[|q| - 1].frame] else []
  }

  /** The frames from `a` in the queues of an id's successive holders, joined. */
  function Received(tasks: map<Conn, Task>, ts: seq<Conn>, a: Conn): seq<Frame> {
    if ts == [] then []
    else
      var c := ts[|ts| - 1];
      Received(tasks, ts[..|ts| - 1], a) + if c in tasks then SentBy(tasks[c].queue, a) else []
  }

  /** Of the frames a connection registered as `id` sent, those for `x` that were
      taken, as forwarded. */
  function Accepted(sent: seq<Sent>, x: Str, id: Str): seq<Frame> {
    if sent == [] then []
    else
      var r := sent[|sent| - 1];
      Accepted(sent[..|sent| - 1], x, id) + if r.taken && r.frame.to == x then [Restamp(r.frame, id)] else []
  }

  /** The destinations refused, in order. */
  function Refused(sent: seq<Sent>): seq<Str> {
    if sent == [] then []
    else
      var r := sent[|sent| - 1];
      Refused(sent[..|sent| - 1]) + if r.taken then [] else [r.frame.to]
  }

  // ── the invariants ─────────────────────────────────────────────────────────

  /** What id `x` received from `a`, over all its holders, is what `a` sent to it. */
  ghost predicate DeliveredOk(s: State, a: Conn, x: Str) {
    Received(s.tasks, Tenure(s.tenures, x), a) ==
    if a in s.tasks then Accepted(s.tasks[a].sent, x, s.tasks[a].id) else []
  }

  /** Each refusal is answered by one error, or the task owes it now. */
  predicate ErrorsOk(t: Task) {
    && (t.phase.Owing? ==> |t.phase.dest| < 3 * TWO16)
    && t.errors + (if t.phase.Owing? then [t.phase.dest] else []) == Refused(t.sent)
  }

  /** The router's own frames fit their length fields; a PROVIDERS reply may not, and is
      only ever the one given. */
  predicate Proper(f: Frame, reply: Option<Frame>) {
    f.from == ZAPD && if f.typ == PROVIDERS then reply == Some(f) else Sized(f)
  }

  /** A queued frame is the router's own, or it came from the connection registered
      under its `from`; a browser's is an answer. */
  ghost predicate ItemOk(s: State, t: Task, item: Item) {
    && item.frame.to == t.id
    && match item.src
       case FromRouter => Proper(item.frame, Some(item.frame))
       case FromConn(a) =>
         && a in s.tasks && !s.tasks[a].fate.Unregistered? && item.frame.from == s.tasks[a].id && Sized(item.frame)
         && (s.tasks[a].door ==> item.frame.typ == RESPONSE)
  }

  ghost predicate QueueOk(s: State, c: Conn) {
    c in s.tasks ==>
      && (forall i | 0 <= i < |s.tasks[c].queue| :: ItemOk(s, s.tasks[c], s.tasks[c].queue[i]))
      && (s.tasks[c].fate.Unregistered? ==> s.tasks[c].queue == [] && s.tasks[c].sent == [])
      && ErrorsOk(s.tasks[c])
  }

  ghost predicate FramesOk(s: State) {
    && (forall c {:trigger QueueOk(s, c)} :: QueueOk(s, c))
    && (forall a, x {:trigger DeliveredOk(s, a, x)} :: DeliveredOk(s, a, x))
  }

  // ── how queues grow ────────────────────────────────────────────────────────

  /** A queue grew by one frame of the router's at most; if that is a PROVIDERS reply, it
      is `reply`. */
  predicate Grows(t: Task, t': Task, reply: Option<Frame>) {
    || t'.queue == t.queue
    || (&& |t'.queue| == |t.queue| + 1
        && t'.queue[..|t.queue|] == t.queue
        && t'.queue[|t.queue|].src.FromRouter?
        && t'.queue[|t.queue|].frame.to == t.id
        && Proper(t'.queue[|t.queue|].frame, reply))
  }

  predicate Keeps(t: Task, t': Task) {
    t'.id == t.id && t'.door == t.door && t'.sent == t.sent
    && (t.fate.Unregistered? <==> t'.fate.Unregistered?) && (t.fate.Unregistered? ==> t'.queue == t.queue)
  }

  /** Nothing but the router's own frames is queued, and nothing is sent. */
  ghost predicate RouterOnly(s: State, s': State, reply: Option<Frame>) {
    && s'.tenures == s.tenures && s'.tasks.Keys == s.tasks.Keys
    && forall c | c in s.tasks :: Keeps(s.tasks[c], s'.tasks[c]) && Grows(s.tasks[c], s'.tasks[c], reply)
  }

  lemma SentByGrows(t: Task, t': Task, a: Conn, reply: Option<Frame>)
    requires Grows(t, t', reply)
    ensures SentBy(t'.queue, a) == SentBy(t.queue, a)
  {
  }

  lemma {:induction false} ReceivedSame(tasks: map<Conn, Task>, tasks': map<Conn, Task>, ts: seq<Conn>, a: Conn)
    requires forall i | 0 <= i < |ts| ::
             ts[i] in tasks && ts[i] in tasks' && SentBy(tasks'[ts[i]].queue, a) == SentBy(tasks[ts[i]].queue, a)
    ensures Received(tasks', ts, a) == Received(tasks, ts, a)
  {
    hide SentBy;
    if ts != [] {
      ReceivedSame(tasks, tasks', ts[..|ts| - 1], a);
    }
  }

  lemma RouterOnlyDelivers(s: State, s': State, a: Conn, x: Str, reply: Option<Frame>)
    requires RouterOnly(s, s', reply) && TenureOk(s, x) && DeliveredOk(s, a, x)
    ensures DeliveredOk(s', a, x)
  {
    var ts := Tenure(s.tenures, x);
    forall i | 0 <= i < |ts|
      ensures ts[i] in s'.tasks && SentBy(s'.tasks[ts[i]].queue, a) == SentBy(s.tasks[ts[i]].queue, a)
    {
      SentByGrows(s.tasks[ts[i]], s'.tasks[ts[i]], a, reply);
    }
    hide Tenure, Grows;
    ReceivedSame(s.tasks, s'.tasks, ts, a);
  }

  /** Connections keep their id and door, and stay registered once they are. */
  ghost predicate Persists(s: State, s': State) {
    forall c | c in s.tasks ::
      && c in s'.tasks && s'.tasks[c].id == s.tasks[c].id && s'.tasks[c].door == s.tasks[c].door
      && (s'.tasks[c].fate.Unregistered? ==> s.tasks[c].fate.Unregistered?)
  }

  lemma ItemPersists(s: State, s': State, t: Task, t': Task, item: Item)
    requires Persists(s, s') && t'.id == t.id && ItemOk(s, t, item)
    ensures ItemOk(s', t', item)
  {
  }

  /** A queue that grew by one good frame is still good. */
  lemma QueueGrows(s: State, s': State, c: Conn, item: Item)
    requires Persists(s, s') && QueueOk(s, c) && c in s.tasks && !s'.tasks[c].fate.Unregistered?
             && ErrorsOk(s'.tasks[c])
    requires s'.tasks[c].queue == s.tasks[c].queue || s'.tasks[c].queue == s.tasks[c].queue + [item]
    requires s'.tasks[c].queue != s.tasks[c].queue ==> ItemOk(s', s'.tasks[c], item)
    ensures QueueOk(s', c)
  {
    hide ErrorsOk, ItemOk;
    var t, t' := s.tasks[c], s'.tasks[c];
    forall i | 0 <= i < |t'.queue| ensures ItemOk(s', t', t'.queue[i]) {
      if i < |t.queue| {
        assert t'.queue[i] == t.queue[i] && ItemOk(s, t, t.queue[i]);
        ItemPersists(s, s', t, t', t.queue[i]);
      }
    }
  }

  lemma RouterOnlyQueues(s: State, s': State, c: Conn, reply: Option<Frame>)
    requires RouterOnly(s, s', reply) && Persists(s, s') && QueueOk(s, c)
    requires c in s.tasks ==> ErrorsOk(s'.tasks[c])
    ensures QueueOk(s', c)
  {
    hide ErrorsOk, Persists;
    if c in s.tasks && !s.tasks[c].fate.Unregistered? {
      assert Grows(s.tasks[c], s'.tasks[c], reply);
      RouterItem(s, s', c, reply);
    }
  }

  lemma RouterItem(s: State, s': State, c: Conn, reply: Option<Frame>)
    requires Persists(s, s') && QueueOk(s, c) && c in s.tasks && !s'.tasks[c].fate.Unregistered?
             && ErrorsOk(s'.tasks[c])
    requires Grows(s.tasks[c], s'.tasks[c], reply)
    ensures QueueOk(s', c)
  {
    hide ErrorsOk, Persists, QueueOk;
    PersistsId(s, s', c);
    var q, q' := s.tasks[c].queue, s'.tasks[c].queue;
    var item := if q' == q then Item(RouterFrame(ERROR, [], []), FromRouter) else q'[|q|];
    assert q' == q || q' == q + [item];
    QueueGrows(s, s', c, item);
  }

  lemma PersistsId(s: State, s': State, c: Conn)
    requires Persists(s, s') && c in s.tasks
    ensures c in s'.tasks && s'.tasks[c].id == s.tasks[c].id
  {
  }

  lemma RouterOnlyKeeps(s: State, s': State, reply: Option<Frame>)
    requires FramesOk(s) && TenuresOk(s) && RouterOnly(s, s', reply)
    requires forall c | c in s.tasks :: ErrorsOk(s'.tasks[c])
    ensures FramesOk(s')
  {
    hide QueueOk, DeliveredOk, TenureOk, RouterOnly, ErrorsOk, Persists;
    SameKeys(s, s', reply);
    forall c ensures QueueOk(s', c) {
      assert QueueOk(s, c);
      RouterOnlyQueues(s, s', c, reply);
    }
    forall a, x ensures DeliveredOk(s', a, x) {
      assert TenureOk(s, x) && DeliveredOk(s, a, x);
      RouterOnlyDelivers(s, s', a, x, reply);
    }
  }

  lemma SameKeys(s: State, s': State, reply: Option<Frame>)
    requires RouterOnly(s, s', reply)
    ensures s.tasks.Keys == s'.tasks.Keys && Persists(s, s')
  {
  }

  // ── the router's own sends ─────────────────────────────────────────────────

  ghost predicate PeersNamed(s: State) {
    forall x | x in s.peers && s.peers[x].conn in s.tasks ::
      s.tasks[s.peers[x].conn].id == x && !s.tasks[s.peers[x].conn].fate.Unregistered?
  }

  /** Ids are short, so what names one fits. */
  ghost predicate ShortIds(s: State) {
    forall c | c in s.tasks :: |s.tasks[c].id| <= 41
  }

  lemma IdsAreShort(s: State)
    requires LocalsOk(s)
    ensures ShortIds(s)
  {
    hide IsId, Kind, Tenure, PresenceOk;
    forall c | c in s.tasks ensures |s.tasks[c].id| <= 41 {
      assert LocalOk(s, c);
      IdFacts(s.tasks[c].id, s.host);
    }
  }

  lemma RouterFrameSized(typ: Byte, to: Str, payload: seq<Byte>)
    requires |to| <= 41 && |payload| <= 4 * TWO16
    ensures Sized(RouterFrame(typ, to, payload))
  {
    LocalName();
    hide ZAPD;
  }

  lemma HearerGrows(t: Task, typ: Byte, payload: seq<Byte>, reply: Option<Frame>)
    requires !t.fate.Unregistered? && |t.id| <= 41 && |payload| <= 4 * TWO16 && typ != PROVIDERS
    ensures var t' := Enqueue(t, Item(RouterFrame(typ, t.id, payload), FromRouter)); Keeps(t, t') && Grows(t, t', reply)
  {
    RouterFrameSized(typ, t.id, payload);
    hide Sized;
    EnqueueGrows(t, RouterFrame(typ, t.id, payload), reply);
  }

  lemma BroadcastGrows(s: State, except: Str, typ: Byte, reply: Option<Frame>)
    requires PeersNamed(s) && ShortIds(s) && |except| <= 41 && typ != PROVIDERS
    ensures RouterOnly(s, Broadcast(s, except, typ), reply)
  {
    assert |EncodePeer(except)| <= 4 * TWO16;
    hide EncodePeer, RouterFrame, Enqueue, Grows, Keeps;
    forall c | c in s.tasks
      ensures var t, t' := s.tasks[c], Broadcast(s, except, typ).tasks[c]; Keeps(t, t') && Grows(t, t', reply)
    {
      Unchanged(s.tasks[c], reply);
      if Hears(s, c, except) {
        HearerGrows(s.tasks[c], typ, EncodePeer(except), reply);
      }
    }
  }

  lemma Unchanged(t: Task, reply: Option<Frame>)
    ensures Keeps(t, t) && Grows(t, t, reply)
  {
  }

  lemma SendGrows(s: State, id: Str, f: Frame, reply: Option<Frame>)
    requires PeersNamed(s) && Proper(f, reply) && f.to == id
    ensures RouterOnly(s, SendTo(s, id, Item(f, FromRouter)), reply)
  {
    hide Proper;
    if Routes(s, id) {
      var t := s.tasks[s.peers[id].conn];
      EnqueueGrows(t, f, reply);
    }
  }

  lemma EnqueueGrows(t: Task, f: Frame, reply: Option<Frame>)
    requires Proper(f, reply) && f.to == t.id
    ensures Grows(t, Enqueue(t, Item(f, FromRouter)), reply)
  {
    hide Proper;
    assert (t.queue + [Item(f, FromRouter)])[..|t.queue|] == t.queue;
  }

  /** A task changed without touching its queue or what it sent; then router sends. */
  lemma PutThenGrow(s: State, m: State, s': State, c: Conn, t: Task, reply: Option<Frame>)
    requires c in s.tasks && m.tasks == s.tasks[c := t] && m.tenures == s.tenures
    requires Keeps(s.tasks[c], t) && t.queue == s.tasks[c].queue
    requires RouterOnly(m, s', reply)
    ensures RouterOnly(s, s', reply)
  {
    forall d | d in s.tasks ensures Keeps(s.tasks[d], s'.tasks[d]) && Grows(s.tasks[d], s'.tasks[d], reply) {
      assert m.tasks[d] == if d == c then t else s.tasks[d];
      assert Keeps(m.tasks[d], s'.tasks[d]) && Grows(m.tasks[d], s'.tasks[d], reply);
    }
  }

  lemma NoGrowth(s: State, reply: Option<Frame>)
    ensures RouterOnly(s, s, reply)
  {
  }

  predicate IsRouterOnly(st: Router.Step) {
    !st.Greet? && !st.Insert? && !st.Forward?
  }

  lemma PutNamed(s: State, c: Conn, t: Task)
    requires PeersNamed(s) && c in s.tasks && Keeps(s.tasks[c], t)
    ensures PeersNamed(Put(s, c, t))
  {
  }

  lemma Named(s: State)
    requires PeersOk(s)
    ensures PeersNamed(s)
  {
    hide Tenure;
  }

  lemma SendAfter(s: State, c: Conn, t: Task, id: Str, f: Frame, reply: Option<Frame>)
    requires PeersOk(s) && c in s.tasks && Keeps(s.tasks[c], t) && t.queue == s.tasks[c].queue
    requires Proper(f, reply) && f.to == id
    ensures RouterOnly(s, SendTo(Put(s, c, t), id, Item(f, FromRouter)), reply)
  {
    hide PeersOk, Keeps, SendTo, PeersNamed, RouterOnly, Proper;
    Named(s);
    PutNamed(s, c, t);
    SendGrows(Put(s, c, t), id, f, reply);
    PutThenGrow(s, Put(s, c, t), SendTo(Put(s, c, t), id, Item(f, FromRouter)), c, t, reply);
  }

  lemma BroadcastAfter(s: State, c: Conn, t: Task, except: Str, typ: Byte)
    requires PeersOk(s) && c in s.tasks && Keeps(s.tasks[c], t) && t.queue == s.tasks[c].queue
    requires ShortIds(s) && |except| <= 41 && typ != PROVIDERS
    ensures RouterOnly(s, Broadcast(Put(s, c, t), except, typ), None)
  {
    assert ShortIds(Put(s, c, t));
    hide PeersOk, Keeps, Broadcast, PeersNamed, RouterOnly, ShortIds;
    Named(s);
    PutNamed(s, c, t);
    BroadcastGrows(Put(s, c, t), except, typ, None);
    PutThenGrow(s, Put(s, c, t), Broadcast(Put(s, c, t), except, typ), c, t, None);
  }

  lemma WelcomeGrows(s: State, c: Conn)
    requires At(s, c, Signalled) && !s.tasks[c].fate.Unregistered? && |s.tasks[c].id| <= 41
    ensures RouterOnly(s, DoWelcome(s, c), None)
  {
    WelcomeKeeps(s.tasks[c]);
    hide RouterFrame, Enqueue, Grows, Keeps, RouterOnly;
    OneGrows(s, DoWelcome(s, c), c, None);
  }

  lemma WelcomeKeeps(t: Task)
    requires !t.fate.Unregistered? && |t.id| <= 41
    ensures var w := t.(phase := Welcomed);
            && Keeps(t, w) && Grows(t, w, None)
            && Keeps(t, Enqueue(w, Item(RouterFrame(WELCOME, w.id, []), FromRouter)))
            && Grows(t, Enqueue(w, Item(RouterFrame(WELCOME, w.id, []), FromRouter)), None)
  {
    RouterFrameSized(WELCOME, t.id, []);
    hide Sized;
    EnqueueGrows(t.(phase := Welcomed), RouterFrame(WELCOME, t.id, []), None);
  }

  lemma OneGrows(s: State, s': State, c: Conn, reply: Option<Frame>)
    requires c in s.tasks && c in s'.tasks && s'.tasks == s.tasks[c := s'.tasks[c]] && s'.tenures == s.tenures
    requires Keeps(s.tasks[c], s'.tasks[c]) && Grows(s.tasks[c], s'.tasks[c], reply)
    ensures RouterOnly(s, s', reply)
  {
  }

  /** A task changed, and no queue. */
  lemma PutGrows(s: State, s': State, c: Conn, t: Task, reply: Option<Frame>)
    requires c in s.tasks && s'.tasks == s.tasks[c := t] && s'.tenures == s.tenures
    requires Keeps(s.tasks[c], t) && t.queue == s.tasks[c].queue
    ensures RouterOnly(s, s', reply)
  {
  }

  lemma SignalGrows(s: State, c: Conn)
    requires c in s.tasks && s.tasks[c].phase.Inserted?
    ensures RouterOnly(s, DoSignal(s, c), None)
  {
    var o := s.tasks[c].phase.ousted;
    var m := Move(s, c, Signalled);
    PutGrows(s, m, c, m.tasks[c], None);
    if o.Some? && o.value in m.tasks {
      var s' := DoSignal(s, c);
      PutGrows(m, s', o.value, s'.tasks[o.value], None);
      hide DoSignal, Move;
      PutThenGrow(s, m, s', c, m.tasks[c], None);
    }
  }

  lemma WithdrawGrows(s: State, c: Conn)
    requires At(s, c, Left) && LocalOk(s, c)
    ensures RouterOnly(s, DoWithdraw(s, c), None)
  {
    hide LocalOk, Valid, IsId, Kind, Tenure;
    LeftIsRegistered(s, c);
  }

  lemma LeftIsRegistered(s: State, c: Conn)
    requires At(s, c, Left) && LocalOk(s, c)
    ensures !s.tasks[c].fate.Unregistered?
  {
    hide IsId, Kind, Tenure;
  }

  lemma AnnounceUpGrows(s: State, c: Conn)
    requires PeersOk(s) && ShortIds(s) && At(s, c, Welcomed)
    ensures RouterOnly(s, DoAnnounceUp(s, c), None)
  {
    hide PeersOk, Broadcast, RouterOnly;
    var t := s.tasks[c];
    BroadcastAfter(s, c, t.(phase := Relaying, ups := t.ups + 1), t.id, PEER_CONNECTED);
  }

  lemma AnnounceDownGrows(s: State, c: Conn)
    requires PeersOk(s) && ShortIds(s) && c in s.tasks && s.tasks[c].phase.Withdrawn?
    ensures RouterOnly(s, DoAnnounceDown(s, c), None)
  {
    hide PeersOk, Broadcast, RouterOnly;
    var t := s.tasks[c];
    BroadcastAfter(s, c, t.(phase := Closing, downs := t.downs + 1), t.id, PEER_DISCONNECTED);
    PutGrows(s, Move(s, c, Closing), c, t.(phase := Closing), None);
  }

  lemma TellGrows(s: State, c: Conn)
    requires PeersOk(s) && ShortIds(s) && c in s.tasks && s.tasks[c].phase.Owing? && |s.tasks[c].phase.dest| < 3 * TWO16
    ensures RouterOnly(s, DoTellNoRoute(s, c), None)
  {
    var t := s.tasks[c];
    var f := RouterFrame(ERROR, t.id, NoRoute(t.phase.dest));
    hide PeersOk, SendTo, RouterOnly, NoRoute, Sized;
    RouterFrameSized(ERROR, t.id, NoRoute(t.phase.dest));
    SendAfter(s, c, t.(errors := t.errors + [t.phase.dest], phase := Relaying), t.id, f, None);
  }

  /** The reply a task owes. */
  function OwedReply(t: Task): Frame
    requires t.phase.Listed?
  {
    RouterFrame(PROVIDERS, t.id, EncodeProviders(t.phase.entries))
  }

  lemma ReplyGrows(s: State, c: Conn)
    requires PeersOk(s) && c in s.tasks && s.tasks[c].phase.Listed?
    ensures RouterOnly(s, DoReply(s, c), Some(OwedReply(s.tasks[c])))
  {
    hide PeersOk, SendTo, RouterOnly, EncodeProviders;
    var t := s.tasks[c];
    SendAfter(s, c, t.(phase := Relaying), t.id, OwedReply(t), Some(OwedReply(t)));
  }

  lemma ControlGrows(s: State, c: Conn, f: Frame)
    requires PeersOk(s) && ShortIds(s) && c in s.tasks
    ensures RouterOnly(s, DoControl(s, c, f), None)
  {
    var id := s.tasks[c].id;
    RouterFrameSized(ERROR, id, UNKNOWN_CONTROL);
    hide PeersOk, SendTo, RouterOnly, Ascii, Sized;
    Named(s);
    NoGrowth(s, None);
    SendGrows(s, id, Unknown(id), None);
  }

  /** The one PROVIDERS frame a step may queue. */
  function TheReply(s: State, st: Router.Step): Option<Frame> {
    if st.Reply? && st.c in s.tasks && s.tasks[st.c].phase.Listed? then Some(OwedReply(s.tasks[st.c])) else None
  }

  lemma OwedIsShort(t: Task)
    requires ErrorsOk(t)
    ensures t.phase.Owing? ==> |t.phase.dest| < 3 * TWO16
  {
  }

  /** Steps that queue nothing. */
  lemma QuietStep(s: State, st: Router.Step)
    requires Enabled(s, st) && LocalOk(s, st.c)
    requires st.Signal? || st.Withdraw? || st.Ticket? || st.List? || st.Leave? || st.Abort? || st.WriterFails?
    ensures RouterOnly(s, Next(s, st), None)
  {
    hide RouterOnly, DoSignal, DoWithdraw, LocalOk, OnWire, Originates, IsListing, DecodeBrandFilter;
    var c := st.c;
    match st {
      case Signal(_) => SignalGrows(s, c);
      case Withdraw(_) => WithdrawGrows(s, c);
      case Ticket(_) | List(_, _, _) | Leave(_) | Abort(_) | WriterFails(_) =>
        PutGrows(s, Next(s, st), c, Next(s, st).tasks[c], None);
      case _ => assert false;
    }
  }

  /** Steps about the task's own presence. */
  lemma PresenceStep(s: State, st: Router.Step)
    requires PeersOk(s) && Enabled(s, st) && ShortIds(s) && LocalOk(s, st.c)
    requires st.Welcome? || st.AnnounceUp? || st.AnnounceDown?
    ensures RouterOnly(s, Next(s, st), None)
  {
    TaskFacts(s, st.c);
    assert |s.tasks[st.c].id| <= 41;
    hide PeersOk, RouterOnly, DoWelcome, DoAnnounceUp, DoAnnounceDown, PresenceOk, LocalOk, ShortIds;
    match st {
      case Welcome(c) => WelcomeGrows(s, c);
      case AnnounceUp(c) => AnnounceUpGrows(s, c);
      case AnnounceDown(c) => AnnounceDownGrows(s, c);
      case _ => assert false;
    }
  }

  lemma AnswerIs(s: State, st: Router.Step)
    requires Enabled(s, st) && (st.TellNoRoute? || st.Reply? || st.Control?)
    ensures st.c in s.tasks
    ensures st.TellNoRoute? ==> s.tasks[st.c].phase.Owing? && Next(s, st) == DoTellNoRoute(s, st.c)
    ensures st.Reply? ==> s.tasks[st.c].phase.Listed? && Next(s, st) == DoReply(s, st.c)
    ensures st.Control? ==> Next(s, st) == DoControl(s, st.c, st.frame)
  {
    hide DoTellNoRoute, DoReply, DoControl, OnWire, Originates;
  }

  /** Steps that answer the task's own frames. */
  lemma AnswerStep(s: State, st: Router.Step)
    requires PeersOk(s) && Enabled(s, st) && ShortIds(s)
    requires st.TellNoRoute? || st.Reply? || st.Control?
    requires st.c in s.tasks && ErrorsOk(s.tasks[st.c])
    ensures RouterOnly(s, Next(s, st), TheReply(s, st))
  {
    AnswerIs(s, st);
    OwedIsShort(s.tasks[st.c]);
    hide PeersOk, RouterOnly, DoTellNoRoute, DoReply, DoControl, ErrorsOk, OwedReply, ShortIds, Enabled, Next;
    if st.TellNoRoute? {
      TellGrows(s, st.c);
    } else if st.Reply? {
      ReplyGrows(s, st.c);
    } else {
      ControlGrows(s, st.c, st.frame);
    }
  }

  lemma RouterOnlyStep(s: State, st: Router.Step)
    requires PeersOk(s) && ShortIds(s) && Enabled(s, st) && IsRouterOnly(st) && LocalOk(s, st.c)
    requires st.c in s.tasks && ErrorsOk(s.tasks[st.c])
    ensures RouterOnly(s, Next(s, st), TheReply(s, st))
  {
    hide PeersOk, ShortIds, Enabled, Next, LocalOk, ErrorsOk, RouterOnly;
    if st.Welcome? || st.AnnounceUp? || st.AnnounceDown? {
      PresenceStep(s, st);
    } else if st.TellNoRoute? || st.Reply? || st.Control? {
      AnswerStep(s, st);
    } else {
      QuietStep(s, st);
    }
  }

  // ── the errors owed ────────────────────────────────────────────────────────

  lemma ForwardErrors(t: Task, f: Frame, went: bool)
    requires t.phase.Relaying? && OnWire(f) && ErrorsOk(t)
    ensures ErrorsOk(t.(sent := t.sent + [Sent(f, went)], phase := if went then Relaying else Owing(f.to)))
  {
    WirePayload(f);
    hide OnWire;
    assert (t.sent + [Sent(f, went)])[..|t.sent|] == t.sent;
  }

  lemma ErrorsOfCalm(s: State, st: Router.Step)
    requires Enabled(s, st) && IsCalm(st) && ErrorsOk(s.tasks[st.c])
    ensures ErrorsOk(Moved(s, st))
  {
    hide Originates, IsListing, IsBrowserHello, Routes, DecodeBrandFilter, OnWire, Refused;
    if st.Forward? {
      hide ErrorsOk;
      ForwardErrors(s.tasks[st.c], st.frame, Routes(s, st.frame.to));
    }
  }

  predicate SameErrors(t: Task, t': Task) {
    t'.errors == t.errors && t'.sent == t.sent && (t'.phase == t.phase || !(t.phase.Owing? || t'.phase.Owing?))
  }

  ghost predicate AllSameErrors(s: State, s': State) {
    s'.tasks.Keys == s.tasks.Keys && forall c | c in s.tasks :: SameErrors(s.tasks[c], s'.tasks[c])
  }

  lemma InsertErrors(s: State, c: Conn)
    requires At(s, c, Ticketed)
    ensures AllSameErrors(s, DoInsert(s, c))
  {
    hide RouterFrame, Ascii, Tenure;
  }

  lemma SignalErrors(s: State, c: Conn)
    requires c in s.tasks && s.tasks[c].phase.Inserted?
    ensures AllSameErrors(s, DoSignal(s, c))
  {
  }

  lemma WithdrawErrors(s: State, c: Conn)
    requires At(s, c, Left)
    ensures AllSameErrors(s, DoWithdraw(s, c))
  {
  }

  lemma RegistryErrors(s: State, st: Router.Step)
    requires Enabled(s, st) && (st.Ticket? || st.Insert? || st.Signal? || st.Withdraw?)
    ensures AllSameErrors(s, Next(s, st))
  {
    hide DoInsert, DoSignal, DoWithdraw;
    match st {
      case Ticket(c) =>
      case Insert(c) => InsertErrors(s, c);
      case Signal(c) => SignalErrors(s, c);
      case Withdraw(c) => WithdrawErrors(s, c);
      case _ => assert false;
    }
  }

  /** Errors told are not undone by what happens to queues, registry or phase. */
  lemma ErrorsKept(s: State, st: Router.Step)
    requires Enabled(s, st) && !st.Greet?
    requires forall c | c in s.tasks :: ErrorsOk(s.tasks[c])
    ensures s.tasks.Keys == Next(s, st).tasks.Keys
    ensures forall c | c in s.tasks :: ErrorsOk(Next(s, st).tasks[c])
  {
    hide Refused, Next, Moved, Enabled;
    if IsCalm(st) {
      CalmMoves(s, st);
      ErrorsOfCalm(s, st);
    } else {
      RegistryErrors(s, st);
    }
  }

  // ── registration and forwarding ────────────────────────────────────────────

  /** A new task changes no queue. */
  lemma NewTaskQueue(s: State, s': State, c: Conn, d: Conn)
    requires c !in s.tasks && c in s'.tasks && s'.tasks == s.tasks[c := s'.tasks[c]]
    requires s'.tasks[c].queue == [] && s'.tasks[c].sent == [] && s'.tasks[c].errors == [] && s'.tasks[c].phase.Greeted?
    requires QueueOk(s, d)
    ensures QueueOk(s', d)
  {
    if d != c && d in s.tasks {
      forall i | 0 <= i < |s.tasks[d].queue| ensures ItemOk(s', s'.tasks[d], s'.tasks[d].queue[i]) {
        assert ItemOk(s, s.tasks[d], s.tasks[d].queue[i]);
      }
    }
  }

  lemma NewTaskDelivered(s: State, s': State, c: Conn, a: Conn, x: Str)
    requires c !in s.tasks && c in s'.tasks && s'.tasks == s.tasks[c := s'.tasks[c]]
    requires s'.tasks[c].queue == [] && s'.tasks[c].sent == [] && s'.tenures == s.tenures
    requires TenureOk(s, x) && DeliveredOk(s, a, x)
    ensures DeliveredOk(s', a, x)
  {
    hide SentBy, Tenure;
    ReceivedSame(s.tasks, s'.tasks, Tenure(s.tenures, x), a);
  }

  lemma GreetFrames(s: State, c: Conn, door: bool, f: Frame)
    requires FramesOk(s) && TenuresOk(s) && Enabled(s, Greet(c, door, f))
    ensures FramesOk(DoGreet(s, c, door, f))
  {
    match Greeting(s.host, f) {
      case Err(answer) =>
        FramesSame(s, DoGreet(s, c, door, f));
      case Ok((id, desc)) =>
        hide FramesOk, TenuresOk, Greeting;
        NewTaskFrames(s, DoGreet(s, c, door, f), c);
    }
  }

  lemma NewTaskFrames(s: State, s': State, c: Conn)
    requires FramesOk(s) && TenuresOk(s)
    requires c !in s.tasks && c in s'.tasks && s'.tasks == s.tasks[c := s'.tasks[c]] && s'.tenures == s.tenures
    requires s'.tasks[c].queue == [] && s'.tasks[c].sent == [] && s'.tasks[c].errors == [] && s'.tasks[c].phase.Greeted?
    ensures FramesOk(s')
  {
    hide QueueOk, DeliveredOk, TenureOk;
    forall d ensures QueueOk(s', d) {
      assert QueueOk(s, d);
      NewTaskQueue(s, s', c, d);
    }
    forall a, x ensures DeliveredOk(s', a, x) {
      assert TenureOk(s, x) && DeliveredOk(s, a, x);
      NewTaskDelivered(s, s', c, a, x);
    }
  }

  lemma FramesSame(s: State, s': State)
    requires FramesOk(s) && s'.tasks == s.tasks && s'.tenures == s.tenures
    ensures FramesOk(s')
  {
    hide ErrorsOk, SentBy, Received, Accepted, Tenure;
    forall d ensures QueueOk(s', d) {
      assert QueueOk(s, d);
      if d in s.tasks {
        forall i | 0 <= i < |s.tasks[d].queue| ensures ItemOk(s', s'.tasks[d], s'.tasks[d].queue[i]) {
          assert ItemOk(s, s.tasks[d], s.tasks[d].queue[i]);
        }
      }
    }
    forall a, x ensures DeliveredOk(s', a, x) {
      assert DeliveredOk(s, a, x);
    }
  }

  /** A registration adds an empty queue to the id's tenures. */
  lemma InsertQueue(s: State, s': State, c: Conn, o: Option<Conn>, d: Conn)
    requires Inserts(s, s', c, o) && QueueOk(s, d) && QueueOk(s, c)
    ensures QueueOk(s', d)
  {
    hide ItemOk, Tenure, Refused;
    if d in s.tasks {
      var t, t' := s.tasks[d], s'.tasks[d];
      assert t'.queue == t.queue && t'.id == t.id && SameErrors(t, t');
      forall i | 0 <= i < |t.queue| ensures ItemOk(s', t', t.queue[i]) {
        assert ItemOk(s, t, t.queue[i]);
        InsertPersists(s, s', c, o);
        ItemPersists(s, s', t, t', t.queue[i]);
      }
    }
  }

  lemma InsertPersists(s: State, s': State, c: Conn, o: Option<Conn>)
    requires Inserts(s, s', c, o)
    ensures Persists(s, s')
  {
    hide Tenure;
  }

  lemma InsertSent(s: State, s': State, c: Conn, o: Option<Conn>, a: Conn)
    requires Inserts(s, s', c, o) && QueueOk(s, c)
    ensures forall d | d in s.tasks ::
            s'.tasks[d].queue == s.tasks[d].queue && s'.tasks[d].sent == s.tasks[d].sent
            && s'.tasks[d].id == s.tasks[d].id
    ensures s'.tasks.Keys == s.tasks.Keys && SentBy(s'.tasks[c].queue, a) == []
  {
    hide Tenure, ItemOk, ErrorsOk;
  }

  lemma TenureGrown(s: State, s': State, c: Conn, o: Option<Conn>, x: Str)
    requires Inserts(s, s', c, o)
    ensures Tenure(s'.tenures, x) == Tenure(s.tenures, x) + if x == s.tasks[c].id then [c] else []
  {
  }

  lemma ReceivedSnoc(tasks: map<Conn, Task>, ts: seq<Conn>, c: Conn, a: Conn)
    requires c in tasks && SentBy(tasks[c].queue, a) == []
    ensures Received(tasks, ts + [c], a) == Received(tasks, ts, a)
  {
    hide SentBy;
    assert (ts + [c])[..|ts|] == ts;
  }

  lemma InsertReceived(s: State, s': State, c: Conn, o: Option<Conn>, a: Conn, x: Str)
    requires Inserts(s, s', c, o) && TenureOk(s, x) && QueueOk(s, c)
    ensures Received(s'.tasks, Tenure(s'.tenures, x), a) == Received(s.tasks, Tenure(s.tenures, x), a)
  {
    InsertSent(s, s', c, o, a);
    TenureGrown(s, s', c, o, x);
    var ts := Tenure(s.tenures, x);
    hide Tenure, QueueOk, Inserts, SentBy, Received;
    ReceivedSame(s.tasks, s'.tasks, ts, a);
    if x == s.tasks[c].id {
      ReceivedSnoc(s'.tasks, ts, c, a);
    } else {
      assert ts + [] == ts;
    }
  }

  lemma InsertDelivered(s: State, s': State, c: Conn, o: Option<Conn>, a: Conn, x: Str)
    requires Inserts(s, s', c, o) && TenureOk(s, x) && DeliveredOk(s, a, x) && QueueOk(s, c)
    ensures DeliveredOk(s', a, x)
  {
    InsertReceived(s, s', c, o, a, x);
    InsertSent(s, s', c, o, a);
    hide TenureOk, QueueOk, Inserts, Received, Accepted, Tenure, SentBy;
  }

  lemma InsertFrames(s: State, c: Conn)
    requires Inv(s) && FramesOk(s) && Registers(s, c)
    ensures FramesOk(DoInsert(s, c))
  {
    InsertShape(s, c);
    var s', o := DoInsert(s, c), Ousted(s, c);
    hide QueueOk, DeliveredOk, TenureOk, DoInsert, Inserts, Ousted, LocalsOk, LinksOk, PeersOk, TicketsOk;
    assert QueueOk(s, c);
    forall d ensures QueueOk(s', d) {
      assert QueueOk(s, d);
      InsertQueue(s, s', c, o, d);
    }
    forall a, x ensures DeliveredOk(s', a, x) {
      assert TenureOk(s, x) && DeliveredOk(s, a, x);
      InsertDelivered(s, s', c, o, a, x);
    }
  }

  lemma TurnFrames(s: State, c: Conn)
    requires TenuresOk(s) && FramesOk(s) && At(s, c, Ticketed) && !Registers(s, c)
    ensures FramesOk(DoInsert(s, c))
  {
    hide FramesOk, TenuresOk, Ascii, RouterFrame, Refused, Tenure;
    var s' := DoInsert(s, c);
    PutGrows(s, s', c, s'.tasks[c], None);
    assert forall d | d in s.tasks :: ErrorsOk(s.tasks[d]) by { AllErrorsOk(s); }
    RouterOnlyKeeps(s, s', None);
  }

  lemma AllErrorsOk(s: State)
    requires FramesOk(s)
    ensures forall c | c in s.tasks :: ErrorsOk(s.tasks[c])
  {
    hide ErrorsOk;
    forall c | c in s.tasks ensures ErrorsOk(s.tasks[c]) {
      assert QueueOk(s, c);
    }
  }

  /** `s'` is `s` after task `c` forwards `f`, to the queue of `d` if there is one. */
  ghost predicate Forwards(s: State, s': State, c: Conn, f: Frame, d: Option<Conn>) {
    && Readable(s, c, f)
    && s'.tenures == s.tenures && s'.tasks.Keys == s.tasks.Keys && Persists(s, s')
    && (d.Some? ==>
          && d.value in s.tasks && s.tasks[d.value].id == f.to && !s.tasks[d.value].fate.Unregistered?
          && Tenure(s.tenures, f.to) != [] && Tenure(s.tenures, f.to)[|Tenure(s.tenures, f.to)| - 1] == d.value
          && s'.tasks[d.value].queue == s.tasks[d.value].queue + [Item(Restamp(f, s.tasks[c].id), FromConn(c))])
    && (forall e | e in s.tasks && Some(e) != d :: s'.tasks[e].queue == s.tasks[e].queue)
    && s'.tasks[c].sent == s.tasks[c].sent + [Sent(f, d.Some?)]
    && (forall e | e in s.tasks && e != c :: s'.tasks[e].sent == s.tasks[e].sent)
    && !s.tasks[c].fate.Unregistered?
    && (d.Some? ==> Sized(Restamp(f, s.tasks[c].id)))
  }

  /** A frame read off the wire for a registered id keeps every width when restamped. */
  lemma ForwardSized(f: Frame, id: Str, host: Host)
    requires |f.payload| <= MAX_FRAME && IsId(id, host) && IsId(f.to, host)
    ensures Sized(Restamp(f, id))
  {
    hide IsId, IsAscii, Valid;
    IdFacts(id, host);
    IdFacts(f.to, host);
  }

  lemma WirePayload(f: Frame)
    requires OnWire(f)
    ensures |f.payload| <= MAX_FRAME && |f.to| < 3 * TWO16
  {
    hide Decode;
    var b :| Decode(b) == Ok(f);
    WireSize(b);
  }

  lemma WireSize(b: seq<Byte>)
    requires Decode(b).Ok?
    ensures |Decode(b).value.payload| <= MAX_FRAME && |Decode(b).value.to| < 3 * TWO16
  {
    hide Lossy, From16;
    LossyLength(RawTo(b[4..]));
  }

  lemma ForwardShape(s: State, c: Conn, f: Frame)
    requires PeersOk(s) && LocalsOk(s) && Readable(s, c, f)
    ensures Forwards(s, DoForward(s, c, f), c, f, if Routes(s, f.to) then Some(s.peers[f.to].conn) else None)
  {
    hide IsId, Kind, Tenure, Originates, Restamp, OnWire;
    var s', t := DoForward(s, c, f), s.tasks[c];
    assert LocalOk(s, c);
    assert !t.fate.Unregistered? && IsId(t.id, s.host);
    var ok := Routes(s, f.to);
    var m := Put(s, c, t.(sent := t.sent + [Sent(f, ok)], phase := if ok then Relaying else Owing(f.to)));
    if ok {
      var d := s.peers[f.to].conn;
      assert s.tasks[d].id == f.to && !s.tasks[d].fate.Unregistered?;
      assert LocalOk(s, d);
      WirePayload(f);
      ForwardSized(f, t.id, s.host);
      hide PeersOk, LocalOk, LocalsOk;
      assert s'.tasks == m.tasks[d := Enqueue(m.tasks[d], Item(Restamp(f, t.id), FromConn(c)))];
      hide DoForward;
      ForwardRouted(s, m, s', c, f, d);
    } else {
      hide PeersOk, LocalOk, LocalsOk;
      assert s' == m;
      hide DoForward;
      ForwardRefused(s, m, c, f);
    }
  }

  lemma ForwardRouted(s: State, m: State, s': State, c: Conn, f: Frame, d: Conn)
    requires Readable(s, c, f) && !s.tasks[c].fate.Unregistered? && Sized(Restamp(f, s.tasks[c].id))
    requires m == Put(s, c, s.tasks[c].(sent := s.tasks[c].sent + [Sent(f, true)], phase := Relaying))
    requires d in s.tasks && s.tasks[d].id == f.to && !s.tasks[d].fate.Unregistered?
    requires Tenure(s.tenures, f.to) != [] && Tenure(s.tenures, f.to)[|Tenure(s.tenures, f.to)| - 1] == d
    requires s'.tenures == s.tenures
             && s'.tasks == m.tasks[d := Enqueue(m.tasks[d], Item(Restamp(f, s.tasks[c].id), FromConn(c)))]
    ensures Forwards(s, s', c, f, Some(d))
  {
    hide Tenure, Originates, Restamp, OnWire, Sized;
  }

  lemma ForwardRefused(s: State, m: State, c: Conn, f: Frame)
    requires Readable(s, c, f) && !s.tasks[c].fate.Unregistered?
    requires m == Put(s, c, s.tasks[c].(sent := s.tasks[c].sent + [Sent(f, false)], phase := Owing(f.to)))
    ensures Forwards(s, m, c, f, None)
  {
    hide Tenure, Originates, Restamp, OnWire, Sized;
  }

  lemma ForwardQueue(s: State, s': State, c: Conn, f: Frame, d: Option<Conn>, e: Conn)
    requires Forwards(s, s', c, f, d) && QueueOk(s, e) && (e in s'.tasks ==> ErrorsOk(s'.tasks[e])) && f.to != []
    ensures QueueOk(s', e)
  {
    hide ErrorsOk, Tenure;
    if e in s.tasks && !s.tasks[e].fate.Unregistered? {
      QueueGrows(s, s', e, Item(Restamp(f, s.tasks[c].id), FromConn(c)));
    }
  }

  lemma SentBySnoc(q: seq<Item>, item: Item, a: Conn)
    ensures SentBy(q + [item], a) == SentBy(q, a) + if item.src == FromConn(a) then [item.frame] else []
  {
    assert (q + [item])[..|q|] == q;
  }

  lemma AcceptedSnoc(sent: seq<Sent>, r: Sent, x: Str, id: Str)
    ensures Accepted(sent + [r], x, id) ==
            Accepted(sent, x, id) + if r.taken && r.frame.to == x then [Restamp(r.frame, id)] else []
  {
    assert (sent + [r])[..|sent|] == sent;
  }

  /** The heart of it: the frame goes to the end of the last tenure's queue, and to
      the end of what its sender sent. */
  lemma ForwardDelivered(s: State, s': State, c: Conn, f: Frame, d: Option<Conn>, a: Conn, x: Str)
    requires Forwards(s, s', c, f, d) && TenureOk(s, x) && DeliveredOk(s, a, x)
    ensures DeliveredOk(s', a, x)
  {
    if d.Some? && x == f.to {
      ForwardArrives(s, s', c, f, d.value, a);
    } else {
      ForwardElsewhere(s, s', c, f, d, a, x);
    }
    AcceptedSnoc(s.tasks[c].sent, Sent(f, d.Some?), x, s.tasks[c].id);
    hide Tenure, SentBy, Accepted, Received, Restamp, Originates;
  }

  /** Nobody held the id before `d` and holds it still: the earlier queues are as they were. */
  lemma ForwardEarlier(s: State, s': State, c: Conn, f: Frame, d: Conn, ts: seq<Conn>, a: Conn)
    requires Forwards(s, s', c, f, Some(d)) && ts == Tenure(s.tenures, f.to) && TenureOk(s, f.to)
    ensures ts != [] && ts[|ts| - 1] == d && d in s.tasks
    ensures Received(s'.tasks, ts[..|ts| - 1], a) == Received(s.tasks, ts[..|ts| - 1], a)
  {
    hide Tenure, SentBy, Received, Restamp, Originates, Persists, OnWire, Sized;
    var n := |ts| - 1;
    forall i | 0 <= i < n ensures ts[..n][i] in s.tasks && s'.tasks[ts[..n][i]].queue == s.tasks[ts[..n][i]].queue {
      assert ts[i] != ts[n];
    }
    ReceivedSame(s.tasks, s'.tasks, ts[..n], a);
  }

  lemma ForwardedItem(s: State, s': State, c: Conn, f: Frame, d: Conn)
    requires Forwards(s, s', c, f, Some(d))
    ensures d in s.tasks && d in s'.tasks
    ensures s'.tasks[d].queue == s.tasks[d].queue + [Item(Restamp(f, s.tasks[c].id), FromConn(c))]
  {
    hide Tenure, Restamp, Originates, Persists, OnWire, Sized;
  }

  lemma ForwardArrives(s: State, s': State, c: Conn, f: Frame, d: Conn, a: Conn)
    requires Forwards(s, s', c, f, Some(d)) && TenureOk(s, f.to)
    ensures c in s.tasks
    ensures Received(s'.tasks, Tenure(s.tenures, f.to), a) ==
            Received(s.tasks, Tenure(s.tenures, f.to), a) + if c == a then [Restamp(f, s.tasks[c].id)] else []
  {
    assert c in s.tasks;
    var ts := Tenure(s.tenures, f.to);
    hide Forwards, TenureOk, Tenure, SentBy, Restamp;
    ForwardEarlier(s, s', c, f, d, ts, a);
    ForwardedItem(s, s', c, f, d);
    SentBySnoc(s.tasks[d].queue, Item(Restamp(f, s.tasks[c].id), FromConn(c)), a);
  }

  lemma ForwardElsewhere(s: State, s': State, c: Conn, f: Frame, d: Option<Conn>, a: Conn, x: Str)
    requires Forwards(s, s', c, f, d) && TenureOk(s, x) && (d.None? || x != f.to)
    ensures Received(s'.tasks, Tenure(s.tenures, x), a) == Received(s.tasks, Tenure(s.tenures, x), a)
  {
    var ts := Tenure(s.tenures, x);
    hide Tenure, SentBy, Restamp, Originates, Persists, Received;
    forall i | 0 <= i < |ts| ensures s'.tasks[ts[i]].queue == s.tasks[ts[i]].queue {
      assert s.tasks[ts[i]].id == x;
    }
    ReceivedSame(s.tasks, s'.tasks, ts, a);
  }

  lemma ForwardsFrames(s: State, s': State, c: Conn, f: Frame, d: Option<Conn>)
    requires TenuresOk(s) && FramesOk(s) && Forwards(s, s', c, f, d) && f.to != []
    requires forall e | e in s'.tasks :: ErrorsOk(s'.tasks[e])
    ensures FramesOk(s')
  {
    hide QueueOk, DeliveredOk, TenureOk, Forwards, ErrorsOk;
    forall e ensures QueueOk(s', e) {
      assert QueueOk(s, e);
      ForwardQueue(s, s', c, f, d, e);
    }
    forall a, x ensures DeliveredOk(s', a, x) {
      assert TenureOk(s, x) && DeliveredOk(s, a, x);
      ForwardDelivered(s, s', c, f, d, a, x);
    }
  }

  lemma ForwardFrames(s: State, c: Conn, f: Frame)
    requires Inv(s) && FramesOk(s) && Enabled(s, Forward(c, f))
    ensures FramesOk(DoForward(s, c, f))
  {
    assert LocalOk(s, c);
    ForwardShape(s, c, f);
    hide FramesOk, DoForward, Forwards, LocalsOk, LinksOk, PeersOk, TicketsOk, TenuresOk, ErrorsOk, Routes, LocalOk;
    AllErrorsOk(s);
    ErrorsKept(s, Forward(c, f));
    ForwardsFrames(s, DoForward(s, c, f), c, f, if Routes(s, f.to) then Some(s.peers[f.to].conn) else None);
  }

  // ── every run ──────────────────────────────────────────────────────────────

  lemma StepsATask(s: State, st: Router.Step)
    requires Enabled(s, st) && !st.Greet?
    ensures st.c in s.tasks
  {
    hide OnWire, Originates, IsListing, DecodeBrandFilter, IsBrowserHello;
  }

  lemma RouterOnlyMoves(s: State, st: Router.Step)
    requires Inv(s) && FramesOk(s) && Enabled(s, st) && IsRouterOnly(st)
    ensures RouterOnly(s, Next(s, st), TheReply(s, st))
    ensures s.tasks.Keys == Next(s, st).tasks.Keys && forall c | c in s.tasks :: ErrorsOk(Next(s, st).tasks[c])
  {
    StepsATask(s, st);
    AllErrorsOk(s);
    hide FramesOk, Enabled, Next, ErrorsOk, LocalOk, PeersOk, TheReply, RouterOnly;
    assert LocalOk(s, st.c);
    IdsAreShort(s);
    hide Inv, ShortIds;
    ErrorsKept(s, st);
    RouterOnlyStep(s, st);
  }

  lemma KeepsFrames(s: State, st: Router.Step)
    requires Inv(s) && FramesOk(s) && Enabled(s, st)
    ensures FramesOk(Next(s, st))
  {
    Tenures(s);
    if IsRouterOnly(st) {
      hide Inv, FramesOk, RouterOnly, Next, Enabled, ErrorsOk, TheReply, TenuresOk;
      RouterOnlyMoves(s, st);
      RouterOnlyKeeps(s, Next(s, st), TheReply(s, st));
    } else {
      hide Inv, FramesOk, DoGreet, DoInsert, DoForward, TenuresOk;
      match st {
        case Greet(c, door, f) => GreetFrames(s, c, door, f);
        case Insert(c) => if Registers(s, c) { InsertFrames(s, c); } else { TurnFrames(s, c); }
        case Forward(c, f) => ForwardFrames(s, c, f);
        case _ => assert false;
      }
    }
  }

  lemma Tenures(s: State)
    requires Inv(s)
    ensures TenuresOk(s)
  {
  }

  lemma InitFrames(host: Host)
    ensures FramesOk(Init(host))
  {
  }

  lemma {:induction false} RunKeepsFrames(host: Host, steps: seq<Router.Step>, trace: seq<State>, i: nat)
    requires Run(host, steps, trace) && i <= |steps| && Distinct(steps, trace, i)
    ensures Inv(trace[i]) && FramesOk(trace[i])
  {
    RunKeepsInv(host, steps, trace, i);
    hide Next, Enabled, Inv, FramesOk, Collides;
    if i == 0 {
      InitFrames(host);
    } else {
      assert Steps(trace[i - 1], steps[i - 1], trace[i - 1 + 1]);
      RunKeepsFrames(host, steps, trace, i - 1);
      KeepsFrames(trace[i - 1], steps[i - 1]);
    }
  }

  // ── whose listings are told ────────────────────────────────────────────────

  /** The `k`-th frame in the queue of `c` is this PROVIDERS frame of the router's. */
  predicate Told(s: State, c: Conn, k: nat, f: Frame) {
    c in s.tasks && k < |s.tasks[c].queue| && s.tasks[c].queue[k] == Item(f, FromRouter) && f.typ == PROVIDERS
  }

  lemma GrowsTells(t: Task, t': Task, k: nat, f: Frame, reply: Option<Frame>)
    requires Grows(t, t', reply) && k < |t'.queue| && t'.queue[k] == Item(f, FromRouter) && f.typ == PROVIDERS
    ensures (k < |t.queue| && t.queue[k] == t'.queue[k]) || reply == Some(f)
  {
    hide Sized;
    if t'.queue == t.queue {
    } else if k < |t.queue| {
      assert t.queue[k] == t'.queue[..|t.queue|][k];
    } else {
      assert k == |t.queue| && Proper(f, reply);
    }
  }

  lemma RouterOnlyTells(s: State, s': State, c: Conn, k: nat, f: Frame, reply: Option<Frame>)
    requires RouterOnly(s, s', reply) && Told(s', c, k, f)
    ensures Told(s, c, k, f) || reply == Some(f)
  {
    hide Grows, Keeps;
    assert c in s.tasks && Grows(s.tasks[c], s'.tasks[c], reply);
    hide RouterOnly;
    GrowsTells(s.tasks[c], s'.tasks[c], k, f, reply);
  }

  /** What the queues gain is not a PROVIDERS frame of the router's. */
  ghost predicate AddsNoTold(s: State, s': State) {
    forall c, k: nat, f | Told(s', c, k, f) :: Told(s, c, k, f)
  }

  lemma ForwardTellsNothing(s: State, c: Conn, f: Frame)
    requires c in s.tasks
    ensures AddsNoTold(s, DoForward(s, c, f))
  {
    hide Restamp;
  }

  lemma GreetTellsNothing(s: State, c: Conn, door: bool, f: Frame)
    requires c !in s.tasks
    ensures AddsNoTold(s, DoGreet(s, c, door, f))
  {
    hide Greeting;
  }

  lemma InsertTellsNothing(s: State, c: Conn)
    requires c in s.tasks
    ensures AddsNoTold(s, DoInsert(s, c))
  {
    hide RouterFrame, Ascii, Tenure, Token;
  }

  lemma OthersTellNothing(s: State, st: Router.Step)
    requires Enabled(s, st) && !IsRouterOnly(st)
    ensures AddsNoTold(s, Next(s, st))
  {
    hide DoForward, DoGreet, DoInsert, AddsNoTold, OnWire, IsBrowserHello, Originates;
    match st {
      case Greet(c, door, f) => GreetTellsNothing(s, c, door, f);
      case Insert(c) => InsertTellsNothing(s, c);
      case Forward(c, f) => ForwardTellsNothing(s, c, f);
      case _ => assert false;
    }
  }

  lemma TellsStep(s: State, st: Router.Step, c: Conn, k: nat, f: Frame)
    requires Inv(s) && FramesOk(s) && Enabled(s, st) && Told(Next(s, st), c, k, f)
    ensures Told(s, c, k, f) || TheReply(s, st) == Some(f)
  {
    hide Inv, FramesOk, Enabled, Next, TheReply, RouterOnly;
    if IsRouterOnly(st) {
      RouterOnlyMoves(s, st);
      RouterOnlyTells(s, Next(s, st), c, k, f, TheReply(s, st));
    } else {
      OthersTellNothing(s, st);
    }
  }
}
