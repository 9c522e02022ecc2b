/** The election: processes, the kernel's record lock, the socket path, and nodes
    dialling in. Any step of anybody may follow any other; processes crash, resign and
    fork, and rogue ones bind the path without the lock. The runtime directory is one
    and the same for all, and a pid is used once. */
module Election {
  import opened Wrappers

  type Pid = nat
  type Sock = nat
  type Link = nat

  /** A rogue never stands; it may bind the socket path at will. */
  datatype Role = Candidate | Rogue

  /** Where a candidate stands in `embed` and `serve`. */
  datatype Phase =
    | Standing   // blocked on the lock, or about to be
    | Locked     // granted, ELECTED not set yet
    | Elected    // ELECTED set; in `serve`
    | Unlinked   // whatever was at the socket path is gone
    | Bound      // listening, permissions not set yet
    | Serving
    | Failing    // serve returned an error; its listener is dropped
    | Resigned   // ELECTED cleared, the lock still held

  datatype Proc = Proc(role: Role, alive: bool, phase: Phase, elected: bool, listener: Option<Sock>)

  /** A listening socket; `kept` if a forked child holds a descriptor of it too. */
  datatype Socket = Socket(owner: Pid, kept: bool)

  /** A node's connection. `held`: the server process itself still holds its end;
      `kept`: a forked child holds the accepted descriptor too; `open`: somebody does;
      `checked`: the node compared peer and holder, and went on to say HELLO. */
  datatype Dial = Dial(node: Pid, server: Pid, sock: Sock, accepted: bool, held: bool, kept: bool, open: bool,
      checked: bool)

  datatype State = State(
    procs: map<Pid, Proc>,
    holder: Option<Pid>,      // the kernel's record lock
    path: Option<Sock>,       // what `zapd.sock` names
    socks: map<Sock, Socket>,
    dials: map<Link, Dial>)

  function Init(): State {
    State(map[], None, None, map[], map[])
  }

  datatype Step =
    | Spawn(p: Pid, role: Role)
    | Acquire(p: Pid)
    | Announce(p: Pid)
    | Unlink(p: Pid)
    | Bind(p: Pid, k: Sock)
    | BindFails(p: Pid)
    | Permit(p: Pid)
    | PermitFails(p: Pid)
    | Resign(p: Pid)
    | Unlock(p: Pid, ok: bool)
    | Crash(p: Pid)
    | Fork(p: Pid)
    | Meddle(p: Pid)                // a rogue removes the path
    | Squat(p: Pid, k: Sock)        // a rogue binds it
    | Connect(l: Link, n: Pid)
    | Accept(l: Link)
    | Check(l: Link)
    | Hang(l: Link)

  predicate At(s: State, p: Pid, ph: Phase) {
    p in s.procs && s.procs[p].alive && s.procs[p].role.Candidate? && s.procs[p].phase == ph
  }

  predicate IsRogue(s: State, p: Pid) {
    p in s.procs && s.procs[p].alive && s.procs[p].role.Rogue?
  }

  /** Somebody holds a descriptor of the listening socket. */
  predicate Listening(s: State, k: Sock) {
    k in s.socks && (s.socks[k].kept || (s.socks[k].owner in s.procs && s.procs[s.socks[k].owner].listener == Some(k)))
  }

  predicate Enabled(s: State, st: Step) {
    match st
    case Spawn(p, _) => p !in s.procs
    case Acquire(p) => At(s, p, Standing) && (s.holder.None? || s.holder == Some(p))
    case Announce(p) => At(s, p, Locked)
    case Unlink(p) => At(s, p, Elected)
    case Bind(p, k) => At(s, p, Unlinked) && s.path.None? && k !in s.socks
    case BindFails(p) => At(s, p, Elected) || At(s, p, Unlinked)
    case Permit(p) => At(s, p, Bound)
    case PermitFails(p) => At(s, p, Bound)
    case Resign(p) => At(s, p, Failing)
    case Unlock(p, _) => At(s, p, Resigned)
    case Crash(p) => p in s.procs && s.procs[p].alive
    case Fork(p) => p in s.procs && s.procs[p].alive
    case Meddle(p) => IsRogue(s, p)
    case Squat(p, k) => IsRogue(s, p) && s.path.None? && k !in s.socks && s.procs[p].listener.None?
    case Connect(l, n) => l !in s.dials && s.path.Some? && Listening(s, s.path.value)
    case Accept(l) => l in s.dials && s.dials[l].held && !s.dials[l].accepted
      && (At(s, s.dials[l].server, Serving) || IsRogue(s, s.dials[l].server))
    case Check(l) => l in s.dials && s.dials[l].open && !s.dials[l].checked
    case Hang(l) => l in s.dials
  }

  /** `elect::holder()` as process `n` sees it: its own flag first; else F_GETLK, which
      does not report a lock the asker itself holds. */
  function HolderSeenBy(s: State, n: Pid): Option<Pid> {
    if n in s.procs && s.procs[n].alive && s.procs[n].elected then Some(n)
    else if s.holder == Some(n) then None
    else s.holder
  }

  function Put(s: State, p: Pid, q: Proc): State {
    s.(procs := s.procs[p := q])
  }

  function Move(s: State, p: Pid, ph: Phase): State
    requires p in s.procs
  {
    Put(s, p, s.procs[p].(phase := ph))
  }

  /** The server drops its listener: a connection it had not accepted stays open only
      if a child holds the listener too. */
  function Dropped(d: Dial, k: Sock, kept: bool): Dial {
    if d.sock == k && !d.accepted then
      d.(held := false, open := d.open && kept)
    else
      d
  }

  /** The server process dies: all its descriptors close. */
  function Orphaned(s: State, d: Dial, p: Pid): Dial {
    if d.server == p then
      d.(held := false, open := d.open && if d.accepted then d.kept else d.sock in s.socks && s.socks[d.sock].kept)
    else
      d
  }

  /** A child inherits the listener and the accepted connections. */
  function Inherited(d: Dial, p: Pid): Dial {
    if d.server == p && d.accepted && d.held then d.(kept := true) else d
  }

  function DoPermitFails(s: State, p: Pid): State
    requires p in s.procs
  {
    match s.procs[p].listener
    case None => Move(s, p, Failing)
    case Some(k) =>
      Put(s, p, s.procs[p].(phase := Failing, listener := None))
        .(dials := map l | l in s.dials :: Dropped(s.dials[l], k, k in s.socks && s.socks[k].kept))
  }

  function DoCrash(s: State, p: Pid): State
    requires p in s.procs
  {
    Put(s, p, s.procs[p].(alive := false, elected := false, listener := None))
      .(holder := if s.holder == Some(p) then None else s.holder,
        dials := map l | l in s.dials :: Orphaned(s, s.dials[l], p))
  }

  function DoFork(s: State, p: Pid): State
    requires p in s.procs
  {
    var m := s.(dials := map l | l in s.dials :: Inherited(s.dials[l], p));
    match s.procs[p].listener
    case None => m
    case Some(k) => if k in s.socks then m.(socks := s.socks[k := s.socks[k].(kept := true)]) else m
  }

  function DoBind(s: State, p: Pid, k: Sock): State
    requires p in s.procs
  {
    Put(s, p, s.procs[p].(listener := Some(k))).(path := Some(k), socks := s.socks[k := Socket(p, false)])
  }

  function DoConnect(s: State, l: Link, n: Pid): State
    requires s.path.Some? && s.path.value in s.socks
  {
    var k := s.path.value;
    var p := s.socks[k].owner;
    var held := p in s.procs && s.procs[p].listener == Some(k);
    s.(dials := s.dials[l := Dial(n, p, k, false, held, false, true, false)])
  }

  /** `dial`: go on only if the peer is the holder; else drop the connection. */
  function DoCheck(s: State, l: Link): State
    requires l in s.dials
  {
    var d := s.dials[l];
    s.(dials := s.dials[l := if HolderSeenBy(s, d.node) == Some(d.server) then d.(checked := true)
      else d.(open := false, held := false)])
  }

  function Next(s: State, st: Step): State
    requires Enabled(s, st)
  {
    match st
    case Spawn(p, role) => Put(s, p, Proc(role, true, Standing, false, None))
    case Acquire(p) => Move(s, p, Locked).(holder := Some(p))
    case Announce(p) => Put(s, p, s.procs[p].(phase := Elected, elected := true))
    case Unlink(p) => Move(s, p, Unlinked).(path := None)
    case Bind(p, k) => Move(DoBind(s, p, k), p, Bound)
    case BindFails(p) => Move(s, p, Failing)
    case Permit(p) => Move(s, p, Serving)
    case PermitFails(p) => DoPermitFails(s, p)
    case Resign(p) => Put(s, p, s.procs[p].(phase := Resigned, elected := false))
    case Unlock(p, ok) => Move(s, p, Standing).(holder := if ok then None else s.holder)
    case Crash(p) => DoCrash(s, p)
    case Fork(p) => DoFork(s, p)
    case Meddle(p) => s.(path := None)
    case Squat(p, k) => DoBind(s, p, k)
    case Connect(l, n) => DoConnect(s, l, n)
    case Accept(l) => s.(dials := s.dials[l := s.dials[l].(accepted := true)])
    case Check(l) => DoCheck(s, l)
    case Hang(l) => s.(dials := s.dials[l := s.dials[l].(open := false, held := false)])
  }

  predicate Steps(s: State, st: Step, s': State) {
    Enabled(s, st) && s' == Next(s, st)
  }

  ghost predicate Run(steps: seq<Step>, trace: seq<State>) {
    && |trace| == |steps| + 1
    && trace[0] == Init()
    && forall i | 0 <= i < |steps| :: Steps(trace[i], steps[i], trace[i + 1])
  }

  // ── the invariant ──────────────────────────────────────────────────────────

  /** In possession of the lock. */
  predicate Holds(ph: Phase) {
    !ph.Standing?
  }

  predicate Listens(ph: Phase) {
    ph.Bound? || ph.Serving?
  }

  ghost predicate ProcOk(s: State, p: Pid) {
    p in s.procs ==>
      var q := s.procs[p];
      && (q.alive && q.role.Candidate? && Holds(q.phase) ==> s.holder == Some(p))
      && (q.elected ==> q.alive && q.role.Candidate? && Holds(q.phase) && !q.phase.Locked? && !q.phase.Resigned?)
      && (q.listener.Some? ==> q.alive && q.listener.value in s.socks && s.socks[q.listener.value].owner == p)
      && (q.role.Candidate? ==> (q.listener.Some? <==> q.alive && Listens(q.phase)))
  }

  ghost predicate HolderOk(s: State) {
    s.holder.Some? ==>
      s.holder.value in s.procs && s.procs[s.holder.value].alive && s.procs[s.holder.value].role.Candidate?
  }

  predicate Known(s: State) {
    && (forall k | k in s.socks :: s.socks[k].owner in s.procs)
    && (s.path.Some? ==> s.path.value in s.socks)
  }

  /** A connection its server still holds is on the server's present listener; one it
      does not, is open only by a child's descriptor, and had it been accepted its server
      is dead; only candidates pass the check. */
  ghost predicate DialOk(s: State, l: Link) {
    l in s.dials ==>
      var d := s.dials[l];
      && d.server in s.procs && d.sock in s.socks && s.socks[d.sock].owner == d.server
      && (d.held ==> d.open && s.procs[d.server].listener == Some(d.sock))
      && (d.open && !d.held ==> if d.accepted then d.kept else s.socks[d.sock].kept)
      && (d.open && !d.held && d.accepted ==> !s.procs[d.server].alive)
      && (d.held && d.accepted && s.procs[d.server].role.Candidate? ==> s.procs[d.server].phase.Serving?)
      && (d.checked ==> s.procs[d.server].role.Candidate?)
  }

  ghost predicate Inv(s: State) {
    && (forall p {:trigger ProcOk(s, p)} :: ProcOk(s, p))
    && (forall l {:trigger DialOk(s, l)} :: DialOk(s, l))
    && HolderOk(s) && Known(s)
  }

  /** What a step can need to know besides the process in question. */
  function Actor(st: Step): Option<Pid> {
    match st
    case Connect(_, _) => None
    case Accept(_) => None
    case Check(_) => None
    case Hang(_) => None
    case _ => Some(st.p)
  }

  /** Steps of the lock and of a candidate's own progress. */
  predicate IsLockStep(st: Step) {
    st.Spawn? || st.Acquire? || st.Announce? || st.Unlink? || st.BindFails? || st.Permit? || st.Resign? || st.Unlock?
  }

  ghost predicate Around(s: State, st: Step, p: Pid) {
    && ProcOk(s, p) && HolderOk(s) && Known(s)
    && (Actor(st).Some? ==> ProcOk(s, Actor(st).value))
  }

  lemma LockStepProc(s: State, st: Step, p: Pid)
    requires Around(s, st, p) && Enabled(s, st) && IsLockStep(st)
    ensures ProcOk(Next(s, st), p) && HolderOk(Next(s, st)) && Known(Next(s, st))
  {
  }

  lemma OtherStepProc(s: State, st: Step, p: Pid)
    requires Around(s, st, p) && Enabled(s, st) && !IsLockStep(st)
    ensures ProcOk(Next(s, st), p) && HolderOk(Next(s, st)) && Known(Next(s, st))
  {
  }

  lemma LockStepDial(s: State, st: Step, l: Link)
    requires Enabled(s, st) && IsLockStep(st) && DialOk(s, l)
    requires Actor(st).Some? ==> ProcOk(s, Actor(st).value)
    ensures DialOk(Next(s, st), l)
  {
  }

  predicate IsDialStep(st: Step) {
    st.Connect? || st.Accept? || st.Check? || st.Hang?
  }

  lemma DialStepDial(s: State, st: Step, l: Link)
    requires Enabled(s, st) && IsDialStep(st) && DialOk(s, l) && HolderOk(s) && Known(s)
    requires st.Check? && st.l in s.dials ==> ProcOk(s, s.dials[st.l].node)
    ensures DialOk(Next(s, st), l)
  {
  }

  lemma PermitFailsDial(s: State, p: Pid, l: Link)
    requires Enabled(s, PermitFails(p)) && DialOk(s, l) && ProcOk(s, p)
    ensures DialOk(DoPermitFails(s, p), l)
  {
  }

  lemma CrashDial(s: State, p: Pid, l: Link)
    requires Enabled(s, Crash(p)) && DialOk(s, l)
    ensures DialOk(DoCrash(s, p), l)
  {
  }

  lemma ForkDial(s: State, p: Pid, l: Link)
    requires Enabled(s, Fork(p)) && DialOk(s, l)
    ensures DialOk(DoFork(s, p), l)
  {
  }

  lemma BindDial(s: State, st: Step, l: Link)
    requires Enabled(s, st) && (st.Bind? || st.Squat?) && DialOk(s, l) && ProcOk(s, st.p)
    ensures DialOk(Next(s, st), l)
  {
  }

  lemma OtherStepDial(s: State, st: Step, l: Link)
    requires Enabled(s, st) && !IsLockStep(st) && DialOk(s, l) && HolderOk(s) && Known(s)
    requires Actor(st).Some? ==> ProcOk(s, Actor(st).value)
    requires st.Check? && st.l in s.dials ==> ProcOk(s, s.dials[st.l].node)
    ensures DialOk(Next(s, st), l)
  {
    hide Enabled, DialOk, ProcOk, HolderOk, Known, DoPermitFails, DoCrash, DoFork, DoBind, DoConnect, DoCheck;
    match st {
      case PermitFails(p) => PermitFailsDial(s, p, l);
      case Crash(p) => CrashDial(s, p, l);
      case Fork(p) => ForkDial(s, p, l);
      case Bind(_, _) | Squat(_, _) => BindDial(s, st, l);
      case Meddle(p) => MeddleDial(s, p, l);
      case _ => DialStepDial(s, st, l);
    }
  }

  lemma MeddleDial(s: State, p: Pid, l: Link)
    requires DialOk(s, l)
    ensures DialOk(s.(path := None), l)
  {
  }

  lemma KeepsInv(s: State, st: Step)
    requires Inv(s) && Enabled(s, st)
    ensures Inv(Next(s, st))
  {
    hide Next, Enabled, ProcOk, DialOk, HolderOk, Known, Actor, IsLockStep;
    assert ProcOk(s, 0) && (Actor(st).Some? ==> ProcOk(s, Actor(st).value));
    forall p ensures ProcOk(Next(s, st), p) {
      assert ProcOk(s, p);
      if IsLockStep(st) { LockStepProc(s, st, p); } else { OtherStepProc(s, st, p); }
    }
    forall l ensures DialOk(Next(s, st), l) {
      assert DialOk(s, l);
      if IsLockStep(st) { LockStepDial(s, st, l); } else {
        if st.Check? && st.l in s.dials { assert ProcOk(s, s.dials[st.l].node); }
        OtherStepDial(s, st, l);
      }
    }
    if IsLockStep(st) { LockStepProc(s, st, 0); } else { OtherStepProc(s, st, 0); }
  }

  lemma InitInv()
    ensures Inv(Init())
  {
  }

  lemma {:induction false} RunKeepsInv(steps: seq<Step>, trace: seq<State>, i: nat)
    requires Run(steps, trace) && i <= |steps|
    ensures Inv(trace[i])
  {
    hide Next, Enabled, Inv;
    if i == 0 {
      InitInv();
    } else {
      assert Steps(trace[i - 1], steps[i - 1], trace[i - 1 + 1]);
      RunKeepsInv(steps, trace, i - 1);
      KeepsInv(trace[i - 1], steps[i - 1]);
    }
  }

  // ── the theorems ───────────────────────────────────────────────────────────

  ghost predicate Reached(s: State) {
    exists steps, trace, i: nat :: Run(steps, trace) && i < |trace| && trace[i] == s
  }

  lemma ReachedInv(s: State)
    requires Reached(s)
    ensures Inv(s)
  {
    hide Inv;
    var steps, trace, i: nat :| Run(steps, trace) && i < |trace| && trace[i] == s;
    RunKeepsInv(steps, trace, i);
  }

  /** A node in session: it checked its peer, said HELLO, and nobody has hung up. */
  predicate InSession(s: State, l: Link) {
    l in s.dials && s.dials[l].checked && s.dials[l].open
  }

  /** A process that has ELECTED set holds the lock; so at most one has. */
  lemma ElectedHoldsLock(s: State, p: Pid)
    requires Reached(s) && p in s.procs && s.procs[p].elected
    ensures s.holder == Some(p) && s.procs[p].alive
  {
    ReachedInv(s);
    assert ProcOk(s, p);
  }

  /** Exactly when an accepted session is with the lock holder: as long as its server
      lives. Then the server still holds its end; and once it is dead, the session is
      open by a forked child's descriptor alone. */
  lemma SessionIsWithTheLiving(s: State, l: Link)
    requires Reached(s) && InSession(s, l) && s.dials[l].accepted
    ensures s.dials[l].server in s.procs
    ensures s.holder == Some(s.dials[l].server) <==> s.procs[s.dials[l].server].alive
    ensures s.dials[l].held <==> s.procs[s.dials[l].server].alive
    ensures !s.dials[l].held ==> s.dials[l].kept
  {
    ReachedInv(s);
    assert DialOk(s, l) && ProcOk(s, s.dials[l].server);
  }

  /** A connection its server has let go of is never held again, nor accepted. */
  lemma LetGoForGood(s: State, st: Step, l: Link)
    requires Enabled(s, st) && l in s.dials && !s.dials[l].held && !s.dials[l].accepted
    ensures l in Next(s, st).dials && !Next(s, st).dials[l].held && !Next(s, st).dials[l].accepted
  {
  }

  lemma {:induction false} NeverAccepted(steps: seq<Step>, trace: seq<State>, i: nat, j: nat, l: Link)
    requires Run(steps, trace) && i <= j <= |steps|
    requires l in trace[i].dials && !trace[i].dials[l].held && !trace[i].dials[l].accepted
    ensures l in trace[j].dials && !trace[j].dials[l].held && !trace[j].dials[l].accepted
  {
    hide Next, Enabled;
    if i < j {
      NeverAccepted(steps, trace, i, j - 1, l);
      assert Steps(trace[j - 1], steps[j - 1], trace[j - 1 + 1]);
      LetGoForGood(trace[j - 1], steps[j - 1], l);
    }
  }

  /** A session not accepted yet waits at the holder's listener, or at one its server has
      dropped and a forked child keeps: then it is not accepted in any later state of the
      run. */
  lemma PendingSession(steps: seq<Step>, trace: seq<State>, i: nat, j: nat, l: Link)
    requires Run(steps, trace) && i <= j <= |steps|
    requires InSession(trace[i], l) && !trace[i].dials[l].accepted
    ensures var s, d := trace[i], trace[i].dials[l];
            && (d.held ==> s.holder == Some(d.server))
            && (!d.held ==> d.sock in s.socks && s.socks[d.sock].kept)
            && (!d.held ==> l in trace[j].dials && !trace[j].dials[l].accepted)
  {
    assert Reached(trace[i]);
    if !trace[i].dials[l].held {
      NeverAccepted(steps, trace, i, j, l);
    }
    hide Run, Reached;
    ReachedInv(trace[i]);
    assert DialOk(trace[i], l) && ProcOk(trace[i], trace[i].dials[l].server);
  }

  /** No split brain: of any two accepted sessions, either both are with one process and
      it holds the lock, or one of them is with a dead process. */
  lemma NoSplitBrain(s: State, l: Link, l': Link)
    requires Reached(s) && InSession(s, l) && InSession(s, l') && s.dials[l].accepted && s.dials[l'].accepted
    ensures s.dials[l].server in s.procs && s.dials[l'].server in s.procs
    ensures s.procs[s.dials[l].server].alive && s.procs[s.dials[l'].server].alive <==>
            s.dials[l].server == s.dials[l'].server && s.holder == Some(s.dials[l].server)
  {
    SessionIsWithTheLiving(s, l);
    SessionIsWithTheLiving(s, l');
  }

  predicate NothingKept(s: State) {
    && (forall k | k in s.socks :: !s.socks[k].kept)
    && (forall l | l in s.dials :: !s.dials[l].kept)
  }

  lemma NoForkKeepsNothing(s: State, st: Step)
    requires NothingKept(s) && Enabled(s, st) && !st.Fork?
    ensures NothingKept(Next(s, st))
  {
  }

  lemma {:induction false} RunWithoutForks(steps: seq<Step>, trace: seq<State>, i: nat)
    requires Run(steps, trace) && i <= |steps| && forall j | 0 <= j < |steps| :: !steps[j].Fork?
    ensures NothingKept(trace[i])
  {
    hide Next, Enabled, NothingKept;
    if i == 0 {
      assert NothingKept(Init()) by { NothingAtFirst(); }
    } else {
      assert Steps(trace[i - 1], steps[i - 1], trace[i - 1 + 1]);
      RunWithoutForks(steps, trace, i - 1);
      NoForkKeepsNothing(trace[i - 1], steps[i - 1]);
    }
  }

  lemma NothingAtFirst()
    ensures NothingKept(Init())
  {
  }

  /** In runs where nobody forks, whatever crashes, resigns or squats, every session at
      any instant is with the process that holds the lock. */
  lemma WithoutForksOneRouter(steps: seq<Step>, trace: seq<State>, i: nat, l: Link)
    requires Run(steps, trace) && i <= |steps| && (forall j | 0 <= j < |steps| :: !steps[j].Fork?)
    requires InSession(trace[i], l)
    ensures trace[i].holder == Some(trace[i].dials[l].server)
  {
    RunWithoutForks(steps, trace, i);
    assert Reached(trace[i]);
    hide Run, Reached;
    ReachedInv(trace[i]);
    assert DialOk(trace[i], l);
    if trace[i].dials[l].accepted {
      SessionIsWithTheLiving(trace[i], l);
    } else {
      PendingSession(steps, trace, i, i, l);
    }
  }

  /** The comparison in `dial` is exact: a node goes on with another process if and only
      if that one holds the lock now, and with its own if and only if it has ELECTED set
      (asking the kernel, a process does not see its own lock). */
  lemma PeerCheckIsExact(s: State, l: Link)
    requires Reached(s) && Enabled(s, Check(l))
    ensures var d := s.dials[l];
            Next(s, Check(l)).dials[l].checked <==>
            if d.server != d.node then s.holder == Some(d.server)
            else d.node in s.procs && s.procs[d.node].elected
  {
    ReachedInv(s);
    assert DialOk(s, l) && ProcOk(s, s.dials[l].node);
    hide Inv, DialOk;
  }

  /** A node never goes on with a rogue. */
  lemma RogueIsNeverSpokenTo(s: State, l: Link)
    requires Reached(s) && l in s.dials && s.dials[l].server in s.procs && s.procs[s.dials[l].server].role.Rogue?
    ensures !s.dials[l].checked
  {
    ReachedInv(s);
    assert DialOk(s, l);
  }

  /** A router that bound its door serves until it dies; one that gives up has let go of
      its listener before the lock. */
  lemma BoundRoutersStay(s: State, st: Step, p: Pid)
    requires Reached(s) && Enabled(s, st) && At(s, p, Serving)
    ensures At(Next(s, st), p, Serving) || st == Crash(p)
    ensures st != Crash(p) ==> Next(s, st).holder == Some(p)
  {
    ReachedInv(s);
    assert ProcOk(s, p);
    if Actor(st).Some? { assert ProcOk(s, Actor(st).value); }
    hide Inv, Reached;
  }

  lemma ListenerGoesBeforeLock(s: State, p: Pid)
    requires Reached(s) && (At(s, p, Failing) || At(s, p, Resigned) || At(s, p, Standing))
    ensures s.procs[p].listener.None?
  {
    ReachedInv(s);
    assert ProcOk(s, p);
  }

  /** The lock changes hands only by the holder's own unlock or its death. */
  lemma LockIsKept(s: State, st: Step, p: Pid)
    requires Reached(s) && Enabled(s, st) && s.holder == Some(p) && Next(s, st).holder != Some(p)
    ensures st == Unlock(p, true) || st == Crash(p)
    ensures Next(s, st).holder.None?
  {
    ReachedInv(s);
    assert ProcOk(s, p);
    if Actor(st).Some? { assert ProcOk(s, Actor(st).value); }
    hide Inv, Reached;
  }

  lemma ReachedStep(s: State, st: Step)
    requires Reached(s) && Enabled(s, st)
    ensures Reached(Next(s, st))
  {
    var steps, trace, i: nat :| Run(steps, trace) && i < |trace| && trace[i] == s;
    var steps', trace' := steps[..i] + [st], trace[..i + 1] + [Next(s, st)];
    hide Next, Enabled;
    forall j | 0 <= j < |steps'| ensures Steps(trace'[j], steps'[j], trace'[j + 1]) {
      if j < i { assert Steps(trace[j], steps[j], trace[j + 1]); }
    }
    assert Run(steps', trace');
    assert trace'[i + 1] == Next(s, st);
  }

  lemma InitReached()
    ensures Reached(Init())
  {
    var steps, trace := [], [Init()];
    assert Run(steps, trace) && trace[0] == Init();
  }

  /** Process 1 serves on socket 0; process 2 stands by. */
  function OneServing(): State {
    State(map[1 := Proc(Candidate, true, Serving, true, Some(0)), 2 := Proc(Candidate, true, Standing, false, None)],
          Some(1), Some(0), map[0 := Socket(1, false)], map[])
  }

  /** Process 1 elected, nothing bound. */
  function OneElected(): State {
    State(map[1 := Proc(Candidate, true, Elected, true, None)], Some(1), None, map[], map[])
  }

  lemma ReachElected()
    ensures Reached(OneElected())
  {
    hide Reached;
    var s := Init();
    InitReached();
    ReachedStep(s, Spawn(1, Candidate)); s := Next(s, Spawn(1, Candidate));
    ReachedStep(s, Acquire(1)); s := Next(s, Acquire(1));
    ReachedStep(s, Announce(1)); s := Next(s, Announce(1));
    assert s == OneElected();
  }

  lemma ReachServing()
    ensures Reached(OneServing())
  {
    hide Reached;
    var s := OneElected();
    ReachElected();
    ReachedStep(s, Unlink(1)); s := Next(s, Unlink(1));
    ReachedStep(s, Bind(1, 0)); s := Next(s, Bind(1, 0));
    ReachedStep(s, Permit(1)); s := Next(s, Permit(1));
    ReachedStep(s, Spawn(2, Candidate)); s := Next(s, Spawn(2, Candidate));
    assert s == OneServing();
  }

  /** It does happen that the server is dead: the router forks without exec, then dies; the
      next router is elected, and a session stays with the dead one, held open by the
      child. */
  lemma ForkedChildPinsSession() returns (s: State)
    ensures Reached(s) && InSession(s, 7)
    ensures s.dials[7].server == 1 && 1 in s.procs && !s.procs[1].alive
    ensures s.holder == Some(2) && At(s, 2, Locked)
  {
    hide Reached;
    ReachServing();
    s := OneServing();
    ReachedStep(s, Connect(7, 2)); s := Next(s, Connect(7, 2));
    ReachedStep(s, Accept(7)); s := Next(s, Accept(7));
    ReachedStep(s, Check(7)); s := Next(s, Check(7));
    ReachedStep(s, Fork(1)); s := Next(s, Fork(1));
    ReachedStep(s, Crash(1)); s := Next(s, Crash(1));
    ReachedStep(s, Acquire(2)); s := Next(s, Acquire(2));
  }

  // ── the candidate ──────────────────────────────────────────────────────────

  /** What one call of fcntl(2) gives. */
  datatype Fcntl = Granted | Interrupted | Failed

  /** What the first call that is not interrupted gives. */
  function FirstAnswer(calls: seq<Fcntl>): Option<Fcntl> {
    if calls == [] then None
    else if calls[0].Interrupted? then FirstAnswer(calls[1..])
    else Some(calls[0])
  }

  /** `os::lock`: an interrupted call is made again, any other ends it. */
  method LockCall(calls: seq<Fcntl>) returns (r: Option<Fcntl>)
    ensures r == FirstAnswer(calls)
    ensures r.None? <==> forall i | 0 <= i < |calls| :: calls[i].Interrupted?
  {
    var i := 0;
    while i < |calls|
      invariant i <= |calls| && FirstAnswer(calls) == FirstAnswer(calls[i..])
      invariant forall j | 0 <= j < i :: calls[j].Interrupted?
    {
      if !calls[i].Interrupted? {
        return Some(calls[i]);
      }
      assert calls[i..][1..] == calls[i + 1..];
      i := i + 1;
    }
    return None;
  }

  /** What the system answers in one pass of the loop. */
  datatype Answers = Answers(granted: bool, dirOk: bool, bound: bool, modeSet: bool, unlocked: bool)

  /** What the others may have done meanwhile: anything that leaves this process be. */
  ghost predicate Meanwhile(p: Pid, s: State, s': State) {
    Reached(s') && p in s.procs && p in s'.procs && s'.procs[p] == s.procs[p]
  }

  /** Whoever has the lock may die, so a waiting candidate may be granted it. */
  lemma GrantMayCome(p: Pid, s: State)
    requires Reached(s) && At(s, p, Standing)
    ensures exists m :: Meanwhile(p, s, m) && Enabled(m, Acquire(p))
  {
    hide Reached;
    ReachedInv(s);
    if s.holder.Some? && s.holder.value != p {
      var q := s.holder.value;
      ReachedStep(s, Crash(q));
      assert Meanwhile(p, s, Next(s, Crash(q))) && Enabled(Next(s, Crash(q)), Acquire(p));
    } else {
      assert Meanwhile(p, s, s) && Enabled(s, Acquire(p));
    }
  }

  lemma {:induction false} FreshSock(socks: set<Sock>) returns (k: Sock)
    ensures forall j | j in socks :: j < k
    decreases |socks|
  {
    k := 0;
    if socks != {} {
      var j :| j in socks;
      var n := FreshSock(socks - {j});
      k := if n > j then n else j + 1;
      assert forall i | i in socks :: i == j || i in socks - {j};
    }
  }

  lemma SelfMeanwhile(p: Pid, s: State)
    requires Reached(s) && p in s.procs
    ensures Meanwhile(p, s, s)
  {
    hide Reached;
  }

  /** A step of a candidate after whatever the others did. */
  lemma StepsOn(p: Pid, s: State, m: State, st: Step)
    requires Meanwhile(p, s, m) && Enabled(m, st)
    ensures Reached(Next(m, st))
  {
    hide Reached, Next, Enabled;
    ReachedStep(m, st);
  }

  /** One process's embed thread: its ELECTED flag and whether it has a listener. The
      lock, the socket path and everybody else are the kernel's and the ghost machine's. */
  class Candidate {
    const p: Pid
    var elected: bool
    var listening: bool
    ghost var now: State

    ghost predicate Valid()
      reads this
    {
      && Reached(now) && p in now.procs && now.procs[p].alive && now.procs[p].role.Candidate?
      && elected == now.procs[p].elected && listening == now.procs[p].listener.Some?
    }

    ghost predicate Stands()
      reads this
    {
      Valid() && now.procs[p].phase.Standing? && !elected && !listening
    }

    constructor (p: Pid, ghost s: State)
      requires Reached(s) && p !in s.procs
      ensures Stands() && this.p == p && now == Next(s, Spawn(p, Candidate))
    {
      this.p, elected, listening, now := p, false, false, Next(s, Spawn(p, Role.Candidate));
      new;
      hide Reached;
      ReachedStep(s, Spawn(p, Role.Candidate));
    }

    /** `os::lock(f, true)` granted, then ELECTED. */
    method TakeSeat()
      requires Stands()
      modifies this`elected, this`now
      ensures Valid() && elected && !listening && now.procs[p].phase == Elected && now.holder == Some(p)
    {
      hide Reached;
      GrantMayCome(p, now);
      ghost var m :| Meanwhile(p, now, m) && Enabled(m, Acquire(p));
      StepsOn(p, now, m, Acquire(p));
      now := Next(m, Acquire(p));
      SelfMeanwhile(p, now);
      m :| Meanwhile(p, now, m);
      StepsOn(p, now, m, Announce(p));
      now := Next(m, Announce(p));
      elected := true;
      HoldsIts(now, p);
    }

    /** `Listener::bind`: whatever is at the path goes, the socket is bound and given its
        mode. The listener is kept only if all of it works. */
    method Bind(a: Answers) returns (ok: bool)
      requires Valid() && elected && !listening && now.procs[p].phase == Elected
      modifies this`listening, this`now
      ensures Valid() && elected && ok == (a.dirOk && a.bound && a.modeSet)
      ensures ok ==> listening && now.procs[p].phase == Serving && now.holder == Some(p)
      ensures !ok ==> !listening && now.procs[p].phase == Failing
    {
      hide Reached;
      SelfMeanwhile(p, now);
      ghost var m :| Meanwhile(p, now, m);
      if !a.dirOk {
        StepsOn(p, now, m, BindFails(p));
        now := Next(m, BindFails(p));
        return false;
      }
      StepsOn(p, now, m, Unlink(p));
      now := Next(m, Unlink(p));
      SelfMeanwhile(p, now);
      if !a.bound {
        m :| Meanwhile(p, now, m);
        StepsOn(p, now, m, BindFails(p));
        now := Next(m, BindFails(p));
        return false;
      }
      m :| Meanwhile(p, now, m) && m.path.None?;
      ghost var k := FreshSock(m.socks.Keys);
      StepsOn(p, now, m, Step.Bind(p, k));
      now := Next(m, Step.Bind(p, k));
      listening := true;
      ok := SetMode(a.modeSet);
    }

    /** A mode that cannot be set drops the listener again, forked children or not. */
    method SetMode(modeSet: bool) returns (ok: bool)
      requires Valid() && elected && listening && now.procs[p].phase == Bound
      modifies this`listening, this`now
      ensures Valid() && elected && ok == modeSet && listening == ok
      ensures now.procs[p].phase == (if ok then Serving else Failing) && (ok ==> now.holder == Some(p))
    {
      hide Reached, Dropped;
      SelfMeanwhile(p, now);
      ghost var m :| Meanwhile(p, now, m);
      ok := modeSet;
      if modeSet {
        StepsOn(p, now, m, Permit(p));
        now := Next(m, Permit(p));
        HoldsIts(now, p);
      } else {
        StepsOn(p, now, m, PermitFails(p));
        now := Next(m, PermitFails(p));
        listening := false;
      }
    }

    /** ELECTED cleared, then `os::lock(f, false)`, which may fail. */
    method GiveUpSeat(unlocked: bool)
      requires Valid() && elected && !listening && now.procs[p].phase == Failing
      modifies this`elected, this`now
      ensures Stands()
      ensures unlocked ==> now.holder.None?
    {
      hide Reached;
      SelfMeanwhile(p, now);
      ghost var m :| Meanwhile(p, now, m);
      StepsOn(p, now, m, Step.Resign(p));
      now := Next(m, Step.Resign(p));
      elected := false;
      SelfMeanwhile(p, now);
      m :| Meanwhile(p, now, m);
      StepsOn(p, now, m, Unlock(p, unlocked));
      now := Next(m, Unlock(p, unlocked));
    }

    /** `embed`'s loop, for as many passes as the system's answers last: it is left only
        serving, with the lock; every pass that fails ends standing again, with no
        listener and ELECTED cleared, whatever the others did meanwhile. */
    method Embed(answers: seq<Answers>) returns (serving: bool)
      requires Stands()
      modifies this`elected, this`listening, this`now
      ensures Valid() && elected == serving && listening == serving
      ensures serving ==> now.holder == Some(p) && now.procs[p].phase == Serving
      ensures !serving ==> Stands()
      ensures serving <==> exists a | a in answers :: a.granted && a.dirOk && a.bound && a.modeSet
    {
      serving := false;
      var i := 0;
      while i < |answers|
        invariant i <= |answers| && Stands()
        invariant forall j | 0 <= j < i ::
                    !(answers[j].granted && answers[j].dirOk && answers[j].bound && answers[j].modeSet)
      {
        var a := answers[i];
        if a.granted {
          TakeSeat();
          serving := Bind(a);
          if serving {
            return;
          }
          GiveUpSeat(a.unlocked);
        }
        i := i + 1;
      }
    }
  }

  lemma HoldsIts(s: State, p: Pid)
    requires Reached(s) && p in s.procs && s.procs[p].alive && s.procs[p].role.Candidate? && Holds(s.procs[p].phase)
    ensures s.holder == Some(p)
  {
    hide Reached;
    ReachedInv(s);
    assert ProcOk(s, p);
  }
}
