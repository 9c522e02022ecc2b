/** Admission through the browser door: the Origin/Host check, the pairing proof with
    symbolic MACs, and the browser's HELLO. Any number of connections run at once, the
    network shows everything to everyone, and whoever holds a key may MAC anything it
    can put together. */
module Door {
  import opened Wrappers
  import opened Bytes
  import opened Frames
  import DoorRules
  import Pairing

  type Key = Pairing.Key

  // ── the upgrade ────────────────────────────────────────────────────────────

  const BLINK: string := "chrome-extension://biingenefmanpecedoafkfajbnlgdmbl"
  const RANDOM: seq<string> := ["moz-extension://", "safari-web-extension://"]

  predicate IsBlink(origin: Option<string>) {
    origin == Some(BLINK)
  }

  /** An origin of an extension whose id is random per install. */
  predicate IsRandom(origin: Option<string>) {
    origin.Some? && exists i | 0 <= i < |RANDOM| :: RANDOM[i] < origin.value
  }

  predicate IsLoopback(host: Option<string>, port: U16) {
    host == Some("127.0.0.1:" + Pairing.Decimal(port)) || host == Some("localhost:" + Pairing.Decimal(port))
  }

  datatype Why = BadHost | BadOrigin

  /** `check`. */
  function Check(origin: Option<string>, host: Option<string>, port: U16): Result<(), Why> {
    if !IsLoopback(host, port) then Err(BadHost)
    else if IsBlink(origin) || IsRandom(origin) then Ok(())
    else Err(BadOrigin)
  }

  // ── symbolic messages ──────────────────────────────────────────────────────

  /** What an AUTH payload is made of: bytes, a router's nonce, or a MAC. */
  datatype Atom = Octet(b: Byte) | Nonce(id: nat) | Tag(key: Key, msg: seq<Atom>)

  function Size(a: Atom): nat {
    match a
    case Octet(_) => 1
    case Nonce(_) => 32
    case Tag(_, _) => 32
  }

  function Len(m: seq<Atom>): nat {
    if m == [] then 0 else Size(m[0]) + Len(m[1..])
  }

  const ROUTER: seq<Atom> := Octets(Ascii("zap router"))
  const CLIENT: seq<Atom> := Octets(Ascii("zap client"))

  function Octets(b: seq<Byte>): seq<Atom> {
    seq(|b|, i requires 0 <= i < |b| => Octet(b[i]))
  }

  /** What is MACed: label, the browser's nonce, the router's nonce. */
  function ToProve(side: seq<Atom>, nc: seq<Atom>, ns: seq<Atom>): seq<Atom> {
    side + (nc + ns)
  }

  function RouterTag(key: Key, nc: seq<Atom>, id: nat): Atom {
    Tag(key, ToProve(ROUTER, nc, [Nonce(id)]))
  }

  function ClientTag(key: Key, nc: seq<Atom>, id: nat): Atom {
    Tag(key, ToProve(CLIENT, nc, [Nonce(id)]))
  }

  /** The labels differ, so no proof of one side is ever one of the other. */
  lemma NoReflection(nc: seq<Atom>, ns: seq<Atom>, nc': seq<Atom>, ns': seq<Atom>)
    ensures ToProve(ROUTER, nc, ns) != ToProve(CLIENT, nc', ns')
  {
    assert ROUTER[4] == Octet('r' as int) && CLIENT[4] == Octet('c' as int);
    assert ToProve(ROUTER, nc, ns)[4] == ROUTER[4] && ToProve(CLIENT, nc', ns')[4] == CLIENT[4];
  }

  lemma {:induction false} SameLenPrefix(a: seq<Atom>, b: seq<Atom>, c: seq<Atom>, d: seq<Atom>)
    requires a + b == c + d && Len(a) == Len(c)
    ensures a == c && b == d
  {
    if a != [] && c != [] {
      assert (a + b)[0] == a[0] && (c + d)[0] == c[0];
      assert (a + b)[1..] == a[1..] + b && (c + d)[1..] == c[1..] + d;
      SameLenPrefix(a[1..], b, c[1..], d);
      assert a == [a[0]] + a[1..] && c == [c[0]] + c[1..];
    } else {
      assert a == [] && c == [];
      assert a + b == b && c + d == d;
    }
  }

  /** With a label of ten bytes and nonces of thirty-two, what is MACed splits one way. */
  lemma SplitsOneWay(side: seq<Atom>, nc: seq<Atom>, ns: seq<Atom>, side': seq<Atom>, nc': seq<Atom>, ns': seq<Atom>)
    requires Len(side) == Len(side') && Len(nc) == Len(nc')
    requires ToProve(side, nc, ns) == ToProve(side', nc', ns')
    ensures side == side' && nc == nc' && ns == ns'
  {
    SameLenPrefix(side, nc + ns, side', nc' + ns');
    SameLenPrefix(nc, ns, nc', ns');
  }

  // ── one connection ─────────────────────────────────────────────────────────

  datatype Proof = Proof(key: Key, nc: seq<Atom>, id: nat, at: nat)

  datatype Phase =
    | Unpaired                                      // upgraded; the key is not loaded yet
    | AwaitNonce(key: Key)
    | AwaitProof(pr: Proof)                         // challenged with nonce `id`, event `at`
    | AwaitHello(proved: Option<Proof>)             // none: the Blink origin
    | Admitted(proved: Option<Proof>, hello: Frame)
    | Refused

  /** One WebSocket message: an AUTH frame, any other frame, or no frame. */
  datatype Incoming = Auth(payload: seq<Atom>) | Plain(f: Frame) | NoFrame

  function Upgraded(origin: Option<string>, host: Option<string>, port: U16): Phase {
    if Check(origin, host, port).Err? then Refused
    else if IsBlink(origin) then AwaitHello(None)
    else Unpaired
  }

  /** What a message does: `id` is a nonce for the challenge, `at` when it would be sent. */
  function Advance(p: Phase, m: Incoming, id: nat, at: nat): Phase {
    match p
    case AwaitNonce(key) => if m.Auth? && Len(m.payload) == 32 then AwaitProof(Proof(key, m.payload, id, at))
      else Refused
    case AwaitProof(pr) => if m == Auth([ClientTag(pr.key, pr.nc, pr.id)]) then AwaitHello(Some(pr)) else Refused
    case AwaitHello(proved) => if m.Plain? && DoorRules.IsBrowserHello(m.f) then Admitted(proved, m.f) else Refused
    case Unpaired => Refused
    case Admitted(_, _) => p
    case Refused => p
  }

  // ── the machine ────────────────────────────────────────────────────────────

  type Conn = nat

  datatype Browser = Browser(origin: Option<string>, host: Option<string>, phase: Phase)

  datatype Event =
    | Challenge(c: Conn, key: Key, nc: seq<Atom>, id: nat) // a router's nonce and proof went out
    | Made(key: Key, msg: seq<Atom>)                       // a holder of `key` MACed `msg`

  datatype State = State(
    port: U16,
    key: Key,                  // in the pairing file now
    conns: map<Conn, Browser>,
    log: seq<Event>,
    nonces: seq<nat>,          // when each router nonce went out
    public: set<Atom>)         // nonces and MACs anyone may have seen

  datatype Step =
    | Upgrade(c: Conn, origin: Option<string>, host: Option<string>)
    | LoadKey(c: Conn)
    | Receive(c: Conn, m: Incoming)
    | Lapse(c: Conn)   // timed out, hung up, or the pairing file refused
    | Reset(key: Key)
    | MakeMac(key: Key, msg: seq<Atom>)

  function Init(port: U16, key: Key): State {
    State(port, key, map[], [], [], {})
  }

  /** A payload made of bytes and of what has been on the network. */
  predicate Known(s: State, m: seq<Atom>) {
    forall a | a in m :: a.Octet? || a in s.public
  }

  predicate Enabled(s: State, st: Step) {
    match st
    case Upgrade(c, _, _) => c !in s.conns
    case LoadKey(c) => c in s.conns && s.conns[c].phase.Unpaired?
    case Receive(c, m) =>
      && c in s.conns
      && (s.conns[c].phase.AwaitNonce? || s.conns[c].phase.AwaitProof? || s.conns[c].phase.AwaitHello?)
      && (m.Auth? ==> Known(s, m.payload))
      && (m.Plain? ==> m.f.typ != AUTH)
    case Lapse(c) => c in s.conns && !s.conns[c].phase.Admitted?
    case Reset(_) => true
    case MakeMac(_, msg) => Known(s, msg)
  }

  function To(s: State, c: Conn, p: Phase): State
    requires c in s.conns
  {
    s.(conns := s.conns[c := s.conns[c].(phase := p)])
  }

  function DoReceive(s: State, c: Conn, m: Incoming): State
    requires c in s.conns
  {
    var p := Advance(s.conns[c].phase, m, |s.nonces|, |s.log|);
    if s.conns[c].phase.AwaitNonce? && p.AwaitProof? then
      To(s, c, p).(
        log := s.log + [Challenge(c, p.pr.key, p.pr.nc, p.pr.id)],
        nonces := s.nonces + [|s.log|],
        public := s.public + {Nonce(p.pr.id), RouterTag(p.pr.key, p.pr.nc, p.pr.id)})
    else
      To(s, c, p)
  }

  function Next(s: State, st: Step): State
    requires Enabled(s, st)
  {
    match st
    case Upgrade(c, origin, host) => s.(conns := s.conns[c := Browser(origin, host, Upgraded(origin, host, s.port))])
    case LoadKey(c) => To(s, c, AwaitNonce(s.key))
    case Receive(c, m) => DoReceive(s, c, m)
    case Lapse(c) => To(s, c, Refused)
    case Reset(key) => s.(key := key)
    case MakeMac(key, msg) => s.(log := s.log + [Made(key, msg)], public := s.public + {Tag(key, msg)})
  }

  predicate Steps(s: State, st: Step, s': State) {
    Enabled(s, st) && s' == Next(s, st)
  }

  ghost predicate Run(port: U16, key: Key, steps: seq<Step>, trace: seq<State>) {
    && |trace| == |steps| + 1
    && trace[0] == Init(port, key)
    && forall i | 0 <= i < |steps| :: Steps(trace[i], steps[i], trace[i + 1])
  }

  // ── the invariant ──────────────────────────────────────────────────────────

  /** Each router nonce went out once, when it says. */
  ghost predicate NoncesOk(s: State) {
    forall id | 0 <= id < |s.nonces| :: SentAt(s, id, s.nonces[id])
  }

  predicate SentAt(s: State, id: nat, a: nat) {
    a < |s.log| && s.log[a].Challenge? && s.log[a].id == id
  }

  /** A MAC on the network is a holder's or a router's proof. */
  ghost predicate PublicOk(s: State) {
    forall a | a in s.public :: AtomOk(s, a)
  }

  ghost predicate AtomOk(s: State, a: Atom) {
    match a
    case Octet(_) => true
    case Nonce(id) => id < |s.nonces|
    case Tag(key, msg) => Made(key, msg) in s.log || exists nc, ns :: msg == ToProve(ROUTER, nc, ns)
  }

  /** Nobody MACs a router's nonce before it is sent. */
  ghost predicate MadeOk(s: State) {
    forall b | 0 <= b < |s.log| && s.log[b].Made? :: NotBefore(s, s.log[b].msg, b)
  }

  predicate NotBefore(s: State, msg: seq<Atom>, b: nat) {
    forall i | 0 <= i < |msg| && msg[i].Nonce? :: msg[i].id < |s.nonces| && s.nonces[msg[i].id] < b
  }

  predicate ChallengeOk(s: State, c: Conn, pr: Proof) {
    && pr.id < |s.nonces| && s.nonces[pr.id] == pr.at
    && pr.at < |s.log| && s.log[pr.at] == Challenge(c, pr.key, pr.nc, pr.id)
    && Len(pr.nc) == 32
  }

  /** A holder of the key answered this very challenge, after it was sent. */
  ghost predicate Answered(s: State, pr: Proof) {
    exists b | pr.at < b < |s.log| :: s.log[b] == Made(pr.key, ToProve(CLIENT, pr.nc, [Nonce(pr.id)]))
  }

  ghost predicate ProvedOk(s: State, c: Conn, origin: Option<string>, proved: Option<Proof>) {
    match proved
    case None => IsBlink(origin)
    case Some(pr) => ChallengeOk(s, c, pr) && Answered(s, pr)
  }

  ghost predicate ConnOk(s: State, c: Conn) {
    c in s.conns ==>
      var b := s.conns[c];
      && (!b.phase.Refused? ==> Check(b.origin, b.host, s.port).Ok?)
      && match b.phase
         case Unpaired => true
         case AwaitNonce(_) => true
         case AwaitProof(pr) => ChallengeOk(s, c, pr)
         case AwaitHello(proved) => ProvedOk(s, c, b.origin, proved)
         case Admitted(proved, hello) => ProvedOk(s, c, b.origin, proved) && DoorRules.IsBrowserHello(hello)
         case Refused => true
  }

  ghost predicate Inv(s: State) {
    NoncesOk(s) && PublicOk(s) && MadeOk(s) && forall c :: ConnOk(s, c)
  }

  lemma ProvedGrown(s: State, s': State, c: Conn, origin: Option<string>, proved: Option<Proof>)
    requires ProvedOk(s, c, origin, proved) && s.log <= s'.log && s.nonces <= s'.nonces
    ensures ProvedOk(s', c, origin, proved)
  {
    hide Len, ToProve;
    if proved.Some? {
      var pr := proved.value;
      var b :| pr.at < b < |s.log| && s.log[b] == Made(pr.key, ToProve(CLIENT, pr.nc, [Nonce(pr.id)]));
      assert s'.log[b] == s.log[b];
    }
  }

  lemma Grown(s: State, s': State, c: Conn)
    requires ConnOk(s, c) && c in s.conns && c in s'.conns && s'.conns[c] == s.conns[c] && s'.port == s.port
    requires s.log <= s'.log && s.nonces <= s'.nonces
    ensures ConnOk(s', c)
  {
    hide Check, DoorRules.IsBrowserHello, Len, ProvedOk;
    var b := s.conns[c];
    if b.phase.AwaitHello? || b.phase.Admitted? {
      ProvedGrown(s, s', c, b.origin, b.phase.proved);
    }
  }

  /** A client's proof seen on the network was made by a holder, after the challenge. */
  lemma ProofIsHolders(s: State, c: Conn, pr: Proof)
    requires Inv(s) && ChallengeOk(s, c, pr) && ClientTag(pr.key, pr.nc, pr.id) in s.public
    ensures Answered(s, pr)
  {
    var msg := ToProve(CLIENT, pr.nc, [Nonce(pr.id)]);
    assert AtomOk(s, Tag(pr.key, msg));
    forall nc, ns ensures msg != ToProve(ROUTER, nc, ns) {
      NoReflection(nc, ns, pr.nc, [Nonce(pr.id)]);
    }
    var b :| 0 <= b < |s.log| && s.log[b] == Made(pr.key, msg);
    assert NotBefore(s, msg, b);
    assert msg[|msg| - 1] == Nonce(pr.id);
  }

  // ── every step keeps it ────────────────────────────────────────────────────

  lemma OneConn(s: State, s': State, c: Conn)
    requires Inv(s) && s' == s.(conns := s'.conns) && c in s'.conns && s'.conns == s.conns[c := s'.conns[c]]
    requires ConnOk(s', c)
    ensures Inv(s')
  {
    hide NotBefore, SentAt;
    forall d ensures ConnOk(s', d) {
      if d in s.conns && d != c {
        hide ConnOk;
        Grown(s, s', d);
      }
    }
    assert forall a | a in s.public :: AtomOk(s, a) && AtomOk(s', a);
    assert forall id | 0 <= id < |s.nonces| :: SentAt(s, id, s.nonces[id]) && SentAt(s', id, s'.nonces[id]) by {
      forall id | 0 <= id < |s.nonces| ensures SentAt(s, id, s.nonces[id]) && SentAt(s', id, s'.nonces[id]) {
        SameSent(s, s', id);
      }
    }
    forall b | 0 <= b < |s'.log| && s'.log[b].Made? ensures NotBefore(s', s'.log[b].msg, b) {
      NotBeforeGrows(s, s', s.log[b].msg, b);
    }
  }

  lemma SameSent(s: State, s': State, id: nat)
    requires id < |s.nonces| && SentAt(s, id, s.nonces[id]) && s.nonces <= s'.nonces && s.log <= s'.log
    ensures SentAt(s', id, s'.nonces[id])
  {
  }

  lemma NotBeforeGrows(s: State, s': State, msg: seq<Atom>, b: nat)
    requires NotBefore(s, msg, b) && s.nonces <= s'.nonces
    ensures NotBefore(s', msg, b)
  {
  }

  lemma AtomGrows(s: State, s': State, a: Atom)
    requires AtomOk(s, a) && s.nonces <= s'.nonces && s.log <= s'.log
    ensures AtomOk(s', a)
  {
    if a.Tag? && Made(a.key, a.msg) in s.log {
      var i :| 0 <= i < |s.log| && s.log[i] == Made(a.key, a.msg);
      assert s'.log[i] == s.log[i];
    }
  }

  /** The log and the nonces only grow: what was so before is so still. */
  lemma OldIsKept(s: State, s': State)
    requires Inv(s) && s.nonces <= s'.nonces && s.log <= s'.log
    ensures forall id {:trigger s'.nonces[id]} | 0 <= id < |s.nonces| :: SentAt(s', id, s'.nonces[id])
    ensures forall a | a in s.public :: AtomOk(s', a)
    ensures forall b | 0 <= b < |s.log| && s.log[b].Made? :: NotBefore(s', s.log[b].msg, b)
  {
    hide AtomOk, SentAt, NotBefore, ConnOk;
    forall id | 0 <= id < |s.nonces| ensures SentAt(s', id, s'.nonces[id]) {
      SameSent(s, s', id);
    }
    forall a | a in s.public ensures AtomOk(s', a) {
      AtomGrows(s, s', a);
    }
    forall b | 0 <= b < |s.log| && s.log[b].Made? ensures NotBefore(s', s.log[b].msg, b) {
      NotBeforeGrows(s, s', s.log[b].msg, b);
    }
  }

  lemma ConnsKept(s: State, s': State, c: Conn)
    requires Inv(s) && s.nonces <= s'.nonces && s.log <= s'.log && s'.port == s.port
    requires c in s.conns && c in s'.conns && s'.conns == s.conns[c := s'.conns[c]] && ConnOk(s', c)
    ensures forall d :: ConnOk(s', d)
  {
    forall d ensures ConnOk(s', d) {
      if d in s.conns && d != c {
        hide ConnOk;
        Grown(s, s', d);
      }
    }
  }

  lemma ChallengeIsOwn(s: State, c: Conn, m: Incoming)
    requires ConnOk(s, c) && Enabled(s, Receive(c, m)) && s.conns[c].phase.AwaitNonce? && m.Auth?
             && Len(m.payload) == 32
    ensures ConnOk(DoReceive(s, c, m), c)
  {
    hide Len, Check, RouterTag, Known;
  }

  /** A challenge is told to everyone, and its proof is a router's. */
  lemma ChallengeKeeps(s: State, c: Conn, m: Incoming)
    requires Inv(s) && Enabled(s, Receive(c, m)) && s.conns[c].phase.AwaitNonce? && m.Auth? && Len(m.payload) == 32
    ensures Inv(DoReceive(s, c, m))
  {
    var s' := DoReceive(s, c, m);
    ChallengeIsOwn(s, c, m);
    hide Len, Check, ConnOk, Known;
    ConnsKept(s, s', c);
    OldIsKept(s, s');
    var pr := s'.conns[c].phase.pr;
    assert SentAt(s', pr.id, pr.at) && AtomOk(s', Nonce(pr.id)) && AtomOk(s', RouterTag(pr.key, pr.nc, pr.id));
    hide AtomOk, NotBefore, SentAt, RouterTag, Inv;
    LedgerGrows(s, s', pr);
  }

  lemma LedgerGrows(s: State, s': State, pr: Proof)
    requires |s'.log| == |s.log| + 1 && s.log <= s'.log && !s'.log[|s.log|].Made?
    requires s'.nonces == s.nonces + [pr.at] && pr.id == |s.nonces| && SentAt(s', pr.id, pr.at)
    requires forall id {:trigger s'.nonces[id]} | 0 <= id < |s.nonces| :: SentAt(s', id, s'.nonces[id])
    requires forall a | a in s.public :: AtomOk(s', a)
    requires forall b | 0 <= b < |s.log| && s.log[b].Made? :: NotBefore(s', s.log[b].msg, b)
    requires s'.public == s.public + {Nonce(pr.id), RouterTag(pr.key, pr.nc, pr.id)}
    requires AtomOk(s', Nonce(pr.id)) && AtomOk(s', RouterTag(pr.key, pr.nc, pr.id))
    ensures NoncesOk(s') && PublicOk(s') && MadeOk(s')
  {
    hide AtomOk, NotBefore, SentAt, RouterTag;
  }

  /** A proof that verifies was a holder's answer to this challenge. */
  lemma ProofAccepted(s: State, c: Conn, pr: Proof)
    requires Inv(s) && c in s.conns && s.conns[c].phase == AwaitProof(pr) && Known(s, [ClientTag(pr.key, pr.nc, pr.id)])
    ensures ProvedOk(s, c, s.conns[c].origin, Some(pr)) && Check(s.conns[c].origin, s.conns[c].host, s.port).Ok?
  {
    assert ConnOk(s, c);
    assert ClientTag(pr.key, pr.nc, pr.id) in [ClientTag(pr.key, pr.nc, pr.id)];
    hide Len, Check, NoncesOk, PublicOk, MadeOk, ConnOk;
    ProofIsHolders(s, c, pr);
  }

  lemma AcceptedIsOk(s: State, c: Conn, pr: Proof)
    requires c in s.conns && ProvedOk(s, c, s.conns[c].origin, Some(pr))
             && Check(s.conns[c].origin, s.conns[c].host, s.port).Ok?
    ensures ConnOk(To(s, c, AwaitHello(Some(pr))), c)
  {
    hide Len, ToProve, Check;
  }

  lemma ProofOrRefused(s: State, c: Conn, m: Incoming)
    requires Inv(s) && c in s.conns && s.conns[c].phase.AwaitProof? && (m.Auth? ==> Known(s, m.payload))
    ensures ConnOk(DoReceive(s, c, m), c)
  {
    var pr := s.conns[c].phase.pr;
    hide Inv, Len, Check, Known, ClientTag, ProvedOk;
    if m == Auth([ClientTag(pr.key, pr.nc, pr.id)]) {
      ProofAccepted(s, c, pr);
      AcceptedIsOk(s, c, pr);
      hide ConnOk, To;
    }
  }

  lemma HelloOrRefused(s: State, c: Conn, m: Incoming)
    requires ConnOk(s, c) && c in s.conns && s.conns[c].phase.AwaitHello?
    ensures ConnOk(DoReceive(s, c, m), c)
  {
    hide Len, Check, DoorRules.IsBrowserHello, ProvedOk;
    var b := s.conns[c];
    ProvedGrown(s, DoReceive(s, c, m), c, b.origin, b.phase.proved);
  }

  lemma AnswerKeeps(s: State, c: Conn, m: Incoming)
    requires Inv(s) && Enabled(s, Receive(c, m)) && !s.conns[c].phase.AwaitNonce?
    ensures Inv(DoReceive(s, c, m))
  {
    if s.conns[c].phase.AwaitProof? {
      ProofOrRefused(s, c, m);
    } else {
      HelloOrRefused(s, c, m);
    }
    hide Inv, ConnOk, Advance, Known;
    OneConn(s, DoReceive(s, c, m), c);
  }

  lemma MakeMacKeeps(s: State, key: Key, msg: seq<Atom>)
    requires Inv(s) && Enabled(s, MakeMac(key, msg))
    ensures Inv(Next(s, MakeMac(key, msg)))
  {
    var s' := Next(s, MakeMac(key, msg));
    OldIsKept(s, s');
    forall d ensures ConnOk(s', d) {
      assert ConnOk(s, d);
      if d in s.conns {
        hide ConnOk;
        Grown(s, s', d);
      }
    }
    hide ConnOk;
    assert NotBefore(s', msg, |s.log|) by {
      forall i | 0 <= i < |msg| && msg[i].Nonce? ensures msg[i].id < |s.nonces| && s.nonces[msg[i].id] < |s.log| {
        assert msg[i] in msg;
        assert AtomOk(s, msg[i]);
        assert SentAt(s, msg[i].id, s.nonces[msg[i].id]);
      }
    }
    assert s'.log[|s.log|] == Made(key, msg);
    assert AtomOk(s', Tag(key, msg));
    hide AtomOk, NotBefore, SentAt, Known;
  }

  lemma StepKeeps(s: State, st: Step)
    requires Inv(s) && Enabled(s, st)
    ensures Inv(Next(s, st))
  {
    match st
    case Upgrade(c, _, _) =>
      var s' := Next(s, st);
      assert ConnOk(s', c);
      OneConn(s, s', c);
    case LoadKey(c) =>
      var s' := Next(s, st);
      assert ConnOk(s, c) && ConnOk(s', c);
      OneConn(s, s', c);
    case Receive(c, m) =>
      if s.conns[c].phase.AwaitNonce? && !(m.Auth? && Len(m.payload) == 32) {
        OneConn(s, DoReceive(s, c, m), c);
      } else if s.conns[c].phase.AwaitNonce? {
        ChallengeKeeps(s, c, m);
      } else {
        AnswerKeeps(s, c, m);
      }
    case Lapse(c) => OneConn(s, Next(s, st), c);
    case Reset(key) => ResetKeeps(s, key);
    case MakeMac(key, msg) => MakeMacKeeps(s, key, msg);
  }

  lemma ResetKeeps(s: State, key: Key)
    requires Inv(s)
    ensures Inv(s.(key := key))
  {
    var s' := s.(key := key);
    OldIsKept(s, s');
    forall d ensures ConnOk(s', d) {
      assert ConnOk(s, d);
      if d in s.conns {
        hide ConnOk;
        Grown(s, s', d);
      }
    }
    hide ConnOk, AtomOk, NotBefore, SentAt;
  }

  lemma {:induction false} RunKeepsInv(port: U16, key: Key, steps: seq<Step>, trace: seq<State>, i: nat)
    requires Run(port, key, steps, trace) && i < |trace|
    ensures Inv(trace[i])
  {
    if i > 0 {
      RunKeepsInv(port, key, steps, trace, i - 1);
      assert Steps(trace[i - 1], steps[i - 1], trace[i]);
      hide Inv, Next, Enabled;
      StepKeeps(trace[i - 1], steps[i - 1]);
    }
  }

  // ── theorems ───────────────────────────────────────────────────────────────

  predicate Through(s: State, c: Conn) {
    c in s.conns && (s.conns[c].phase.AwaitHello? || s.conns[c].phase.Admitted?)
  }

  /** Agreement: whoever gets as far as HELLO came from an admitted origin to this
      loopback port, and either is our Blink extension or sent, for the router's nonce
      of its own connection and its own 32-byte nonce, a client-labelled MAC that a
      holder of the loaded key made after that nonce was sent. */
  lemma Agreement(port: U16, key: Key, steps: seq<Step>, trace: seq<State>, i: nat, c: Conn)
    requires Run(port, key, steps, trace) && i < |trace| && Through(trace[i], c)
    ensures var b := trace[i].conns[c];
            && Check(b.origin, b.host, trace[i].port).Ok?
            && (b.phase.proved.None? ==> IsBlink(b.origin))
            && (b.phase.Admitted? ==> DoorRules.IsBrowserHello(b.phase.hello))
            && (b.phase.proved.Some? ==>
                  var pr := b.phase.proved.value;
                  && Len(pr.nc) == 32
                  && pr.at < |trace[i].log| && trace[i].log[pr.at] == Challenge(c, pr.key, pr.nc, pr.id)
                  && exists b | pr.at < b < |trace[i].log| ::
                     trace[i].log[b] == Made(pr.key, ToProve(CLIENT, pr.nc, [Nonce(pr.id)])))
  {
    RunKeepsInv(port, key, steps, trace, i);
    assert ConnOk(trace[i], c);
    hide Check, DoorRules.IsBrowserHello, Len;
  }

  lemma NonceTells(side: seq<Atom>, nc: seq<Atom>, id: nat, nc': seq<Atom>, id': nat)
    requires Len(nc) == Len(nc') && id != id'
    ensures ToProve(side, nc, [Nonce(id)]) != ToProve(side, nc', [Nonce(id')])
  {
    assert [Nonce(id)][0] != [Nonce(id')][0];
    if ToProve(side, nc, [Nonce(id)]) == ToProve(side, nc', [Nonce(id')]) {
      SplitsOneWay(side, nc, [Nonce(id)], side, nc', [Nonce(id')]);
    }
  }

  lemma ProofIsOwn(s: State, c: Conn)
    requires Inv(s) && Through(s, c) && s.conns[c].phase.proved.Some?
    ensures ChallengeOk(s, c, s.conns[c].phase.proved.value)
  {
    assert ConnOk(s, c);
  }

  /** And injectively: no answer serves two connections, and no router's proof either. */
  lemma NoProofServesTwo(port: U16, key: Key, steps: seq<Step>, trace: seq<State>, i: nat, c: Conn, d: Conn)
    requires Run(port, key, steps, trace) && i < |trace| && Through(trace[i], c) && Through(trace[i], d) && c != d
    requires trace[i].conns[c].phase.proved.Some? && trace[i].conns[d].phase.proved.Some?
    ensures var p, q := trace[i].conns[c].phase.proved.value, trace[i].conns[d].phase.proved.value;
            && ToProve(CLIENT, p.nc, [Nonce(p.id)]) != ToProve(CLIENT, q.nc, [Nonce(q.id)])
            && ToProve(ROUTER, p.nc, [Nonce(p.id)]) != ToProve(ROUTER, q.nc, [Nonce(q.id)])
  {
    RunKeepsInv(port, key, steps, trace, i);
    hide Inv, Run, ToProve, Len;
    ProofIsOwn(trace[i], c);
    ProofIsOwn(trace[i], d);
    var p, q := trace[i].conns[c].phase.proved.value, trace[i].conns[d].phase.proved.value;
    NonceTells(CLIENT, p.nc, p.id, q.nc, q.id);
    NonceTells(ROUTER, p.nc, p.id, q.nc, q.id);
  }

  /** The key a connection proves against, once it has loaded one. */
  function KeyOf(p: Phase): Option<Key> {
    match p
    case AwaitNonce(key) => Some(key)
    case AwaitProof(pr) => Some(pr.key)
    case AwaitHello(proved) => if proved.Some? then Some(proved.value.key) else None
    case Admitted(proved, _) => if proved.Some? then Some(proved.value.key) else None
    case Unpaired => None
    case Refused => None
  }

  lemma KeyMoves(s: State, st: Step, c: Conn)
    requires Enabled(s, st) && c in Next(s, st).conns && KeyOf(Next(s, st).conns[c].phase).Some?
    ensures
      || (st == LoadKey(c) && KeyOf(Next(s, st).conns[c].phase) == Some(s.key))
      || (c in s.conns && KeyOf(s.conns[c].phase) == KeyOf(Next(s, st).conns[c].phase))
  {
    hide Check, Len, DoorRules.IsBrowserHello, Known, ClientTag, RouterTag;
  }

  /** That key is the one the pairing file held when the connection loaded it: a reset
      binds every connection that loads later. */
  lemma {:induction false} KeyWasInFile(port: U16, key: Key, steps: seq<Step>, trace: seq<State>, i: nat, c: Conn)
    requires Run(port, key, steps, trace) && i < |trace|
    requires c in trace[i].conns && KeyOf(trace[i].conns[c].phase).Some?
    ensures exists l | 0 <= l < i :: steps[l] == LoadKey(c) && Some(trace[l].key) == KeyOf(trace[i].conns[c].phase)
  {
    if i > 0 {
      assert Steps(trace[i - 1], steps[i - 1], trace[i]);
      hide Next, Enabled, KeyOf;
      KeyMoves(trace[i - 1], steps[i - 1], c);
      if steps[i - 1] != LoadKey(c) || KeyOf(trace[i].conns[c].phase) != Some(trace[i - 1].key) {
        KeyWasInFile(port, key, steps, trace, i - 1, c);
      }
    }
  }

  // ── one admission, read by read ────────────────────────────────────────────

  function AfterLoad(p: Phase, key: Option<Key>): Phase {
    if !p.Unpaired? then p else if key.None? then Refused else AwaitNonce(key.value)
  }

  /** A connection's messages, one after another. */
  function Play(p: Phase, ms: seq<Incoming>, id: nat, at: nat): Phase
    decreases ms
  {
    if ms == [] then p else Play(Advance(p, ms[0], id, at), ms[1..], id, at)
  }

  lemma {:induction false} PlayEnded(p: Phase, ms: seq<Incoming>, id: nat, at: nat)
    requires p.Refused? || p.Admitted?
    ensures Play(p, ms, id, at) == p
  {
    if ms != [] {
      PlayEnded(p, ms[1..], id, at);
    }
  }

  /** Exactly what gets a browser in: the origin, then for any but Blink a 32-byte nonce
      and the one MAC that answers the challenge, then a HELLO as a browser. */
  predicate Admissible(origin: Option<string>, host: Option<string>, port: U16, key: Option<Key>, id: nat,
      ms: seq<Incoming>, hello: Frame) {
    && Check(origin, host, port).Ok?
    && var n := if IsBlink(origin) then 0 else 2;
    && |ms| > n && ms[n] == Plain(hello) && DoorRules.IsBrowserHello(hello)
    && (!IsBlink(origin) ==>
          && key.Some? && ms[0].Auth? && Len(ms[0].payload) == 32
          && ms[1] == Auth([ClientTag(key.value, ms[0].payload, id)]))
  }

  class Admission {
    const port: U16
    const inbox: seq<Incoming>
    var next: nat
    var challenges: seq<(nat, Atom)>

    ghost predicate Valid()
      reads this
    {
      next <= |inbox|
    }

    constructor (port: U16, inbox: seq<Incoming>)
      ensures Valid() && next == 0 && challenges == [] && this.port == port && this.inbox == inbox
    {
      this.port, this.inbox, next, challenges := port, inbox, 0, [];
    }

    method NextMessage() returns (m: Option<Incoming>)
      requires Valid()
      modifies this`next
      ensures Valid() && (m.None? <==> old(next) == |inbox|) && (m.None? ==> next == old(next))
      ensures m.Some? ==> m.value == inbox[old(next)] && next == old(next) + 1
    {
      if next == |inbox| {
        return None;
      }
      m := Some(inbox[next]);
      next := next + 1;
    }

    /** `auth`. */
    method ReadAuth() returns (r: Option<seq<Atom>>)
      requires Valid()
      modifies this`next
      ensures Valid() && next == if old(next) == |inbox| then old(next) else old(next) + 1
      ensures r.Some? <==> old(next) < |inbox| && inbox[old(next)].Auth?
      ensures r.Some? ==> inbox[old(next)] == Auth(r.value)
    {
      var m := NextMessage();
      r := if m.Some? && m.value.Auth? then Some(m.value.payload) else None;
    }

    /** `prove`: `key` is what `load` gave, `id` the nonce drawn. */
    method Prove(key: Option<Key>, id: nat) returns (ok: bool)
      requires Valid()
      modifies this`next, this`challenges
      ensures Valid() && old(next) <= next
      ensures ok <==>
                && key.Some? && old(next) + 2 <= |inbox|
                && inbox[old(next)].Auth? && Len(inbox[old(next)].payload) == 32
                && inbox[old(next) + 1] == Auth([ClientTag(key.value, inbox[old(next)].payload, id)])
      ensures ok ==> next == old(next) + 2
      ensures challenges ==
              if key.Some? && old(next) < |inbox| && inbox[old(next)].Auth? && Len(inbox[old(next)].payload) == 32
              then old(challenges) + [(id, RouterTag(key.value, inbox[old(next)].payload, id))]
              else old(challenges)
    {
      hide Len, ToProve;
      if key.None? {
        return false;
      }
      var nc := ReadAuth();
      if nc.None? || Len(nc.value) != 32 {
        return false;
      }
      challenges := challenges + [(id, RouterTag(key.value, nc.value, id))];
      var proof := ReadAuth();
      ok := proof == Some([ClientTag(key.value, nc.value, id)]);
    }

    /** `browser_hello`. */
    method BrowserHello() returns (r: Option<Frame>)
      requires Valid()
      modifies this`next
      ensures Valid()
      ensures r.Some? <==>
              old(next) < |inbox| && inbox[old(next)].Plain? && DoorRules.IsBrowserHello(inbox[old(next)].f)
      ensures r.Some? ==> inbox[old(next)] == Plain(r.value)
    {
      var m := NextMessage();
      r := if m.Some? && m.value.Plain? && DoorRules.IsBrowserHello(m.value.f) then Some(m.value.f) else None;
    }

    /** `admit`, up to the HELLO. A challenge goes out only to an origin that must prove
        itself, and at most once. */
    method Admit(origin: Option<string>, host: Option<string>, key: Option<Key>, id: nat) returns (r: Option<Frame>)
      requires Valid() && next == 0 && challenges == []
      modifies this`next, this`challenges
      ensures forall hello :: r == Some(hello) <==> Admissible(origin, host, port, key, id, inbox, hello)
      ensures challenges != [] ==>
              Check(origin, host, port).Ok? && !IsBlink(origin) && |challenges| == 1 && challenges[0].0 == id
    {
      hide Len, Check, DoorRules.IsBrowserHello, ClientTag, RouterTag;
      if Check(origin, host, port).Err? {
        return None;
      }
      if !IsBlink(origin) {
        var ok := Prove(key, id);
        if !ok {
          return None;
        }
      }
      r := BrowserHello();
    }
  }

  /** The code's admission is the machine's: played through one connection's messages,
      it ends admitted with exactly what `Admit` would return. */
  lemma AdmissionIsTheMachines(origin: Option<string>, host: Option<string>, port: U16, key: Option<Key>, id: nat,
      at: nat, ms: seq<Incoming>, hello: Frame)
    ensures var p := Play(AfterLoad(Upgraded(origin, host, port), key), ms, id, at);
            p.Admitted? && p.hello == hello <==> Admissible(origin, host, port, key, id, ms, hello)
  {
    hide Len, Check, ClientTag;
    var p := AfterLoad(Upgraded(origin, host, port), key);
    if p.Refused? {
      PlayEnded(p, ms, id, at);
    } else if IsBlink(origin) {
      HelloEnds(None, ms, id, at);
    } else if ms != [] {
      var p1 := Advance(p, ms[0], id, at);
      if p1.Refused? {
        PlayEnded(p1, ms[1..], id, at);
      } else if |ms| > 1 {
        var p2 := Advance(p1, ms[1], id, at);
        assert ms[1..][0] == ms[1] && ms[1..][1..] == ms[2..];
        if p2.Refused? {
          PlayEnded(p2, ms[2..], id, at);
        } else {
          HelloEnds(p2.proved, ms[2..], id, at);
        }
      }
    }
  }

  lemma HelloEnds(proved: Option<Proof>, ms: seq<Incoming>, id: nat, at: nat)
    ensures var p := Play(AwaitHello(proved), ms, id, at);
            if ms != [] && ms[0].Plain? && DoorRules.IsBrowserHello(ms[0].f) then p == Admitted(proved, ms[0].f)
              else !p.Admitted?
  {
    if ms != [] {
      PlayEnded(Advance(AwaitHello(proved), ms[0], id, at), ms[1..], id, at);
    }
  }
}
