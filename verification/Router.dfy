/** The router as interleaved connection tasks over one registry. Every step below is
    one mutex section, or one task's own work between two of them; any step of any
    task may follow any other. What the environment decides (which frame arrives,
    when a connection ends, in which order a map is walked) is a step's argument. */
module Router {
  import opened Wrappers
  import opened Bytes
  import opened Utf8
  import opened Frames
  import opened Bodies
  import opened Ids
  import opened DoorRules
  import opened Forwarding

  /** A connection, standing also for its queue and its eviction channel. */
  type Conn = nat

  /** Who made a queued frame. */
  datatype Src = FromRouter | FromConn(conn: Conn)

  datatype Item = Item(frame: Frame, src: Src)

  /** What became of a connection's registration. */
  datatype Fate = Unregistered | Current | Replaced(heir: Conn) | Removed

  /** Where a task of `handle` stands. */
  datatype Phase =
    | Greeted                     // HELLO accepted, no token yet
    | Ticketed                    // token taken
    | Turned                      // refused as `taken`
    | Inserted(ousted: Option<Conn>) // registered; the evicted peer not yet signalled
    | Signalled
    | Welcomed
    | Relaying
    | Listed(entries: seq<Entry>) // the registry listed, the reply owed
    | Owing(dest: Str)            // a forward refused, the error owed
    | Left                        // out of the relay loop
    | Withdrawn(current: bool)    // the registry left or found taken over
    | Closing
    | Ended

  /** One frame read for another node, and whether that node's queue took it. */
  datatype Sent = Sent(frame: Frame, taken: bool)

  datatype Task = Task(
    door: bool,          // through the browser door: may not take over
    id: Str,
    desc: Descriptor,
    ticket: nat,         // which draw of NEXT_TOKEN it got, counted from 1
    phase: Phase,
    fate: Fate,
    evictions: nat,      // times its eviction channel was fired
    queue: seq<Item>,    // everything its queue ever accepted
    open: bool,          // the writer still holds the queue's receiver
    sent: seq<Sent>,    // frames it sent to other nodes
    errors: seq<Str>,    // destinations it was told have no route
    ups: nat,            // PEER_CONNECTED fan-outs it started
    downs: nat)          // PEER_DISCONNECTED fan-outs it started

  datatype Peer = Peer(conn: Conn, token: nat, desc: Descriptor)

  datatype State = State(
    host: Host,
    taken: nat,                        // tokens handed out
    peers: map<Str, Peer>,             // the registry
    tasks: map<Conn, Task>,
    tenures: map<Str, seq<Conn>>,      // who held each id, in insertion order
    turnedAway: map<Conn, seq<Frame>>) // connections refused before registering, and their answers

  const TWO64: nat := 0x1_0000_0000_0000_0000

  /** What the n-th `NEXT_TOKEN.fetch_add(1)` gives: the counter wraps at 64 bits. */
  function Token(ticket: nat): nat {
    ticket % TWO64
  }

  function Init(host: Host): State {
    State(host, 0, map[], map[], map[], map[])
  }

  function Tenure(tenures: map<Str, seq<Conn>>, id: Str): seq<Conn> {
    if id in tenures then tenures[id] else []
  }

  function RouterFrame(typ: Byte, to: Str, payload: seq<Byte>): Frame {
    NewFrame(typ, ZAPD, to, payload)
  }

  const UNKNOWN_CONTROL: seq<Byte> := Ascii("unknown_control")

  /** The answer to a control frame nobody knows. */
  function Unknown(to: Str): Frame {
    RouterFrame(ERROR, to, UNKNOWN_CONTROL)
  }

  /** What a sender is told of a destination nobody holds. */
  function NoRoute(dest: Str): (why: seq<Byte>)
    ensures |why| == 9 + |dest|
  {
    Ascii("no_route:") + dest
  }

  // ── sending ────────────────────────────────────────────────────────────────

  /** `send_to` would reach somebody. */
  predicate Routes(s: State, id: Str) {
    id in s.peers && s.peers[id].conn in s.tasks && s.tasks[s.peers[id].conn].open
  }

  function Enqueue(t: Task, item: Item): Task {
    t.(queue := t.queue + [item])
  }

  /** `send_to`. */
  function SendTo(s: State, id: Str, item: Item): State {
    if Routes(s, id) then
      var c := s.peers[id].conn;
      s.(tasks := s.tasks[c := Enqueue(s.tasks[c], item)])
    else
      s
  }

  /** Task `c` is the registered one for its id. */
  predicate Registered(s: State, c: Conn) {
    c in s.tasks && s.tasks[c].id in s.peers && s.peers[s.tasks[c].id].conn == c
  }

  /** A fan-out about `except` reaches task `c`. */
  predicate Hears(s: State, c: Conn, except: Str) {
    Registered(s, c) && s.tasks[c].id != except && s.tasks[c].open
  }

  /** `broadcast`: one lock section, one frame to every registered peer but the subject. */
  function Broadcast(s: State, except: Str, typ: Byte): State {
    s.(tasks := map c | c in s.tasks ::
      if Hears(s, c, except)
      then Enqueue(s.tasks[c], Item(RouterFrame(typ, s.tasks[c].id, EncodePeer(except)), FromRouter))
      else s.tasks[c])
  }

  function EntryIds(es: seq<Entry>): set<Str> {
    set e | e in es :: e.id
  }

  /** The ids a brand filter lets through; the empty filter lets all. */
  function Matching(peers: map<Str, Peer>, filter: Str): set<Str> {
    set x | x in peers && (filter == [] || peers[x].desc.brand == filter)
  }

  /** `list`: the registry under the brand filter, each entry once, in some order. */
  ghost predicate IsListing(peers: map<Str, Peer>, filter: Str, es: seq<Entry>) {
    && EntryIds(es) == Matching(peers, filter)
    && (forall e | e in es :: e.id in peers && e.desc == peers[e.id].desc)
    && (forall i, j | 0 <= i < j < |es| :: es[i].id != es[j].id)
  }

  // ── steps ──────────────────────────────────────────────────────────────────

  datatype Step =
    | Greet(c: Conn, door: bool, hello: Frame)
    | Ticket(c: Conn)
    | Insert(c: Conn)
    | Signal(c: Conn)
    | Welcome(c: Conn)
    | AnnounceUp(c: Conn)
    | Forward(c: Conn, frame: Frame)
    | TellNoRoute(c: Conn)
    | List(c: Conn, frame: Frame, entries: seq<Entry>)
    | Reply(c: Conn)
    | Control(c: Conn, frame: Frame)
    | Leave(c: Conn)
    | Withdraw(c: Conn)
    | AnnounceDown(c: Conn)
    | Abort(c: Conn)
    | WriterFails(c: Conn)

  predicate At(s: State, c: Conn, phase: Phase) {
    c in s.tasks && s.tasks[c].phase == phase
  }

  /** Frames arrive as bytes the decoder accepts. */
  ghost predicate OnWire(f: Frame) {
    exists b :: Decode(b) == Ok(f)
  }

  /** A frame this task can have read: a browser's have passed the door's relay. */
  ghost predicate Readable(s: State, c: Conn, f: Frame) {
    At(s, c, Relaying) && OnWire(f) && (s.tasks[c].door ==> !Originates(f))
  }

  ghost predicate Enabled(s: State, st: Step) {
    match st
    case Greet(c, door, f) => c !in s.tasks && c !in s.turnedAway && OnWire(f) && f.typ == HELLO
      && (door ==> IsBrowserHello(f))
    case Ticket(c) => At(s, c, Greeted)
    case Insert(c) => At(s, c, Ticketed)
    case Signal(c) => c in s.tasks && s.tasks[c].phase.Inserted?
    case Welcome(c) => At(s, c, Signalled)
    case AnnounceUp(c) => At(s, c, Welcomed)
    case Forward(c, f) => Readable(s, c, f) && f.to != []
    case TellNoRoute(c) => c in s.tasks && s.tasks[c].phase.Owing?
    case List(c, f, es) => Readable(s, c, f) && f.to == [] && f.typ == PROVIDERS_LIST
      && IsListing(s.peers, DecodeBrandFilter(f.payload), es)
    case Reply(c) => c in s.tasks && s.tasks[c].phase.Listed?
    case Control(c, f) => Readable(s, c, f) && f.to == [] && f.typ != PROVIDERS_LIST
    case Leave(c) => At(s, c, Relaying)
    case Withdraw(c) => At(s, c, Left)
    case AnnounceDown(c) => c in s.tasks && s.tasks[c].phase.Withdrawn?
    case Abort(c) => At(s, c, Closing)
    case WriterFails(c) => c in s.tasks
  }

  function Put(s: State, c: Conn, t: Task): State {
    s.(tasks := s.tasks[c := t])
  }

  function Move(s: State, c: Conn, phase: Phase): State
    requires c in s.tasks
  {
    Put(s, c, s.tasks[c].(phase := phase))
  }

  /** What a HELLO amounts to: an id and a descriptor, or the frames sent back. */
  function Greeting(host: Host, f: Frame): Result<(Str, Descriptor), seq<Frame>> {
    match Stamp(f.from, host)
    case None => Err([RouterFrame(ERROR, [], Ascii("bad_id:") + f.from)])
    case Some(id) =>
      match DecodeHello(f.payload)
        case Err(_) => Err([])
        case Ok(d) => Ok((id, d))
  }

  function DoGreet(s: State, c: Conn, door: bool, f: Frame): State {
    match Greeting(s.host, f)
    case Err(answer) => s.(turnedAway := s.turnedAway[c := answer])
    case Ok((id, d)) => Put(s, c, Task(door, id, d, 0, Greeted, Unregistered, 0, [], true, [], [], 0, 0))
  }

  /** `NEXT_TOKEN.fetch_add(1)`, starting at 1. */
  function DoTicket(s: State, c: Conn): State
    requires c in s.tasks
  {
    Put(s, c, s.tasks[c].(ticket := s.taken + 1, phase := Ticketed)).(taken := s.taken + 1)
  }

  function DoInsert(s: State, c: Conn): State
    requires c in s.tasks
  {
    var t := s.tasks[c];
    if t.door && t.id in s.peers then
      Put(s, c, t.(phase := Turned, open := false))
        .(turnedAway := s.turnedAway[c := [RouterFrame(ERROR, [], Ascii("taken:") + t.id)]])
    else
      var ousted := if t.id in s.peers then Some(s.peers[t.id].conn) else None;
      var tasks := if ousted.Some? && ousted.value in s.tasks
                   then s.tasks[ousted.value := s.tasks[ousted.value].(fate := Replaced(c))] else s.tasks;
      s.(peers := s.peers[t.id := Peer(c, Token(t.ticket), t.desc)],
         tasks := tasks[c := t.(phase := Inserted(ousted), fate := Current)],
         tenures := s.tenures[t.id := Tenure(s.tenures, t.id) + [c]])
  }

  function DoSignal(s: State, c: Conn): State
    requires c in s.tasks && s.tasks[c].phase.Inserted?
  {
    var ousted := s.tasks[c].phase.ousted;
    var s' := Move(s, c, Signalled);
    if ousted.Some? && ousted.value in s'.tasks
    then Put(s', ousted.value, s'.tasks[ousted.value].(evictions := s'.tasks[ousted.value].evictions + 1))
    else s'
  }

  /** `tx.send` on the task's own queue: the writer may already have gone. */
  function DoWelcome(s: State, c: Conn): State
    requires c in s.tasks
  {
    var s' := Move(s, c, Welcomed);
    var t := s'.tasks[c];
    if t.open then Put(s', c, Enqueue(t, Item(RouterFrame(WELCOME, t.id, []), FromRouter))) else s'
  }

  function DoAnnounceUp(s: State, c: Conn): State
    requires c in s.tasks
  {
    var s' := Put(s, c, s.tasks[c].(phase := Relaying, ups := s.tasks[c].ups + 1));
    Broadcast(s', s.tasks[c].id, PEER_CONNECTED)
  }

  function DoForward(s: State, c: Conn, f: Frame): State
    requires c in s.tasks
  {
    var t := s.tasks[c];
    var ok := Routes(s, f.to);
    var s' := Put(s, c, t.(sent := t.sent + [Sent(f, ok)], phase := if ok then Relaying else Owing(f.to)));
    SendTo(s', f.to, Item(Restamp(f, t.id), FromConn(c)))
  }

  function DoTellNoRoute(s: State, c: Conn): State
    requires c in s.tasks && s.tasks[c].phase.Owing?
  {
    var t := s.tasks[c];
    var s' := Put(s, c, t.(errors := t.errors + [t.phase.dest], phase := Relaying));
    SendTo(s', t.id, Item(RouterFrame(ERROR, t.id, NoRoute(t.phase.dest)), FromRouter))
  }

  function DoReply(s: State, c: Conn): State
    requires c in s.tasks && s.tasks[c].phase.Listed?
  {
    var t := s.tasks[c];
    SendTo(Move(s, c, Relaying), t.id, Item(RouterFrame(PROVIDERS, t.id, EncodeProviders(t.phase.entries)), FromRouter))
  }

  function DoControl(s: State, c: Conn, f: Frame): State
    requires c in s.tasks
  {
    var id := s.tasks[c].id;
    if f.typ == HELLO then s
    else SendTo(s, id, Item(Unknown(id), FromRouter))
  }

  function DoWithdraw(s: State, c: Conn): State
    requires c in s.tasks
  {
    var t := s.tasks[c];
    if t.id in s.peers && s.peers[t.id].token == Token(t.ticket) then
      Put(s, c, t.(phase := Withdrawn(true), fate := Removed)).(peers := s.peers - {t.id})
    else
      Put(s, c, t.(phase := Withdrawn(false)))
  }

  function DoAnnounceDown(s: State, c: Conn): State
    requires c in s.tasks && s.tasks[c].phase.Withdrawn?
  {
    var t := s.tasks[c];
    if t.phase.current then
      Broadcast(Put(s, c, t.(phase := Closing, downs := t.downs + 1)), t.id, PEER_DISCONNECTED)
    else
      Move(s, c, Closing)
  }

  function Next(s: State, st: Step): State
    requires Enabled(s, st)
  {
    match st
    case Greet(c, door, f) => DoGreet(s, c, door, f)
    case Ticket(c) => DoTicket(s, c)
    case Insert(c) => DoInsert(s, c)
    case Signal(c) => DoSignal(s, c)
    case Welcome(c) => DoWelcome(s, c)
    case AnnounceUp(c) => DoAnnounceUp(s, c)
    case Forward(c, f) => DoForward(s, c, f)
    case TellNoRoute(c) => DoTellNoRoute(s, c)
    case List(c, f, es) => Move(s, c, Listed(es))
    case Reply(c) => DoReply(s, c)
    case Control(c, f) => DoControl(s, c, f)
    case Leave(c) => Move(s, c, Left)
    case Withdraw(c) => DoWithdraw(s, c)
    case AnnounceDown(c) => DoAnnounceDown(s, c)
    case Abort(c) => Put(s, c, s.tasks[c].(phase := Ended, open := false))
    case WriterFails(c) => Put(s, c, s.tasks[c].(open := false))
  }

  ghost predicate Steps(s: State, st: Step, s': State) {
    Enabled(s, st) && s' == Next(s, st)
  }

  /** `trace` is a run of a router on `host`, state by state. */
  ghost predicate Run(host: Host, steps: seq<Step>, trace: seq<State>) {
    && |trace| == |steps| + 1
    && trace[0] == Init(host)
    && forall i | 0 <= i < |steps| :: Steps(trace[i], steps[i], trace[i + 1])
  }
}
