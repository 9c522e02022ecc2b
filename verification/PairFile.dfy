/** The pairing file: publication through a private temporary file, and concurrent
    loads, resets, failures and crashes over names and inodes. Nobody deletes the file,
    and a pid is used once. */
module PairFile {
  import opened Wrappers
  import opened Pairing

  type Ino = nat
  type Pid = nat
  type Task = nat

  /** What a published file holds. */
  function Text(p: Pairing): string {
    Code(p) + "\n"
  }

  lemma TextParses(p: Pairing)
    requires p.port != 0
    ensures Text(p) != "" && Parse(Text(p)) == Some(p)
  {
    CodeRoundTrip(p, "", "\n");
    assert "" + Code(p) + "\n" == Text(p);
  }

  // ── the directory ──────────────────────────────────────────────────────────

  /** Inodes and the names that matter: the final path and each process's `.pair.<pid>`. */
  datatype Fs = Fs(inodes: map<Ino, string>, final: Option<Ino>, tmps: map<Pid, Ino>)

  /** `create_private`: create or truncate. */
  function Create(fs: Fs, pid: Pid, newIno: Ino): Fs {
    if pid in fs.tmps then
      fs.(inodes := fs.inodes[fs.tmps[pid] := ""])
    else
      fs.(inodes := fs.inodes[newIno := ""], tmps := fs.tmps[pid := newIno])
  }

  function Zeros(n: nat): string {
    seq(n, i => '\0')
  }

  /** Writing at an offset: a gap reads as zeros, what lies beyond stays. */
  function Splice(text: string, at: nat, data: string): string {
    (if |text| < at then text + Zeros(at - |text|) else text[..at]) + data
    + (if |text| > at + |data| then text[at + |data|..] else "")
  }

  function WriteAt(fs: Fs, ino: Ino, at: nat, data: string): Fs {
    if ino in fs.inodes then fs.(inodes := fs.inodes[ino := Splice(fs.inodes[ino], at, data)]) else fs
  }

  /** `hard_link`: fails if the final path exists. */
  function Link(fs: Fs, pid: Pid): Option<Fs> {
    if pid in fs.tmps && fs.final.None? then Some(fs.(final := Some(fs.tmps[pid]))) else None
  }

  /** `rename`: replaces, and takes the temporary name away; but does nothing if both
      names are the same file's already. */
  function Rename(fs: Fs, pid: Pid): Option<Fs> {
    if pid !in fs.tmps then None
    else if fs.final == Some(fs.tmps[pid]) then Some(fs)
    else Some(fs.(final := Some(fs.tmps[pid]), tmps := fs.tmps - {pid}))
  }

  function Move(fs: Fs, pid: Pid, replace: bool): Option<Fs> {
    if replace then Rename(fs, pid) else Link(fs, pid)
  }

  /** `remove_file` on the temporary name. */
  function Remove(fs: Fs, pid: Pid): Fs {
    fs.(tmps := fs.tmps - {pid})
  }

  // ── calls ──────────────────────────────────────────────────────────────────

  /** What is left of a call to do. */
  datatype Op =
    | Look(mint: bool)      // read; a missing file is minted or is an error
    | Publish(replace: bool)

  const LOAD: seq<Op> := [Look(true)]
  const RESET: seq<Op> := [Look(true), Publish(true), Look(true)]

  /** Within an operation. */
  datatype Act =
    | Idle
    | Opened(ino: Ino, k: nat, got: string)  // reading what was version `k` when opened
    | Created(ino: Ino, p: Pairing, n: nat)  // `n` characters written to the temporary file
    | Written(ino: Ino, p: Pairing)          // all written and synced
    | Moved(ok: bool)                        // linked or renamed, or refused; not yet removed
    | Done(p: Pairing, k: nat, ended: nat)   // returned version `k`, when there were `ended`
    | Failed

  /** `since` counts the versions there had been when the call began, `own` those there
      had been once its own replacement was one of them. */
  datatype Caller = Caller(pid: Pid, reset: bool, todo: seq<Op>, act: Act, since: nat, own: nat)

  datatype State = State(
    fs: Fs,
    history: seq<Pairing>,     // what the final path has held, in order
    linked: map<Ino, Pairing>, // every inode it has named
    callers: map<Task, Caller>,
    dead: set<Pid>)

  function Init(): State {
    State(Fs(map[], None, map[]), [], map[], map[], {})
  }

  datatype Step =
    | Begin(t: Task, pid: Pid, reset: bool)
    | Open(t: Task)
    | Miss(t: Task)
    | ReadSome(t: Task, n: nat)
    | ReadEnd(t: Task)
    | CreateTmp(t: Task, p: Pairing, newIno: Ino)
    | WriteSome(t: Task, n: nat)
    | Sync(t: Task)
    | MoveTmp(t: Task)
    | MoveFails(t: Task)
    | RemoveTmp(t: Task)
    | RemoveFails(t: Task)
    | GiveUp(t: Task)  // a mint fails before its move: `load` reads all the same
    | Fail(t: Task)    // any other failure ends the call
    | Crash(pid: Pid)

  predicate Running(s: State, t: Task) {
    t in s.callers && s.callers[t].todo != [] && s.callers[t].pid !in s.dead
  }

  predicate Looks(s: State, t: Task) {
    Running(s, t) && s.callers[t].todo[0].Look?
  }

  predicate Publishes(s: State, t: Task) {
    Running(s, t) && s.callers[t].todo[0].Publish?
  }

  predicate Writing(a: Act) {
    a.Created? || a.Written?
  }

  predicate Enabled(s: State, st: Step) {
    match st
    case Begin(t, pid, _) => t !in s.callers && pid !in s.dead
    case Open(t) => Looks(s, t) && s.callers[t].act.Idle? && s.fs.final.Some?
    case Miss(t) => Looks(s, t) && s.callers[t].act.Idle? && s.fs.final.None?
    case ReadSome(t, n) =>
      Looks(s, t) && s.callers[t].act.Opened? && s.callers[t].act.ino in s.fs.inodes
      && |s.callers[t].act.got| < n <= |s.fs.inodes[s.callers[t].act.ino]|
    case ReadEnd(t) =>
      Looks(s, t) && s.callers[t].act.Opened? && s.callers[t].act.ino in s.fs.inodes
      && |s.fs.inodes[s.callers[t].act.ino]| <= |s.callers[t].act.got|
    case CreateTmp(t, p, newIno) =>
      Publishes(s, t) && s.callers[t].act.Idle? && p.port != 0 && newIno !in s.fs.inodes
    case WriteSome(t, n) =>
      Publishes(s, t) && s.callers[t].act.Created? && s.callers[t].act.n < n <= |Text(s.callers[t].act.p)|
    case Sync(t) => Publishes(s, t) && s.callers[t].act.Created? && s.callers[t].act.n == |Text(s.callers[t].act.p)|
    case MoveTmp(t) => Publishes(s, t) && s.callers[t].act.Written?
    case MoveFails(t) => Publishes(s, t) && s.callers[t].act.Written?
    case RemoveTmp(t) => Publishes(s, t) && s.callers[t].act.Moved?
    case RemoveFails(t) => Publishes(s, t) && s.callers[t].act.Moved?
    case GiveUp(t) =>
      Publishes(s, t) && !s.callers[t].todo[0].replace && (s.callers[t].act.Idle? || s.callers[t].act.Created?)
    case Fail(t) =>
      && Running(s, t)
      && (|| s.callers[t].act.Idle? || s.callers[t].act.Opened?
          || (Publishes(s, t) && s.callers[t].todo[0].replace && s.callers[t].act.Created?))
    case Crash(pid) => pid !in s.dead
  }

  function Set(s: State, t: Task, c: Caller): State {
    s.(callers := s.callers[t := c])
  }

  function Ended(c: Caller, a: Act): Caller {
    c.(todo := [], act := a)
  }

  function Further(c: Caller): Caller
    requires c.todo != []
  {
    c.(todo := c.todo[1..], act := Idle)
  }

  /** At the end of a file: what `read` makes of the text. */
  function AfterRead(c: Caller, versions: nat): Caller
    requires c.todo != [] && c.act.Opened?
  {
    match Parse(c.act.got)
    case None => Ended(c, Failed)
    case Some(p) => if |c.todo| == 1 then Ended(c, Done(p, c.act.k, versions)) else Further(c)
  }

  /** A refused link is forgiven; a refused rename is the call's failure. */
  function AfterPublish(c: Caller): Caller
    requires c.todo != [] && c.todo[0].Publish? && c.act.Moved?
  {
    if c.act.ok || !c.todo[0].replace then Further(c) else Ended(c, Failed)
  }

  function DoMove(s: State, t: Task): State
    requires Publishes(s, t) && s.callers[t].act.Written?
  {
    var c := s.callers[t];
    match Move(s.fs, c.pid, c.todo[0].replace)
    case None => Set(s, t, c.(act := Moved(false)))
    case Some(fs) =>
      var own := if c.todo[0].replace then |s.history| + 1 else c.own;
      Set(s, t, c.(act := Moved(true), own := own)).(
        fs := fs,
        history := s.history + [c.act.p],
        linked := s.linked[fs.final.value := c.act.p])
  }

  function Next(s: State, st: Step): State
    requires Enabled(s, st)
  {
    match st
    case Begin(t, pid, reset) => Set(s, t, Caller(pid, reset, if reset then RESET else LOAD, Idle, |s.history|, 0))
    case Open(t) => Set(s, t,
      s.callers[t].(act := Opened(s.fs.final.value, if s.history == [] then 0 else |s.history| - 1, "")))
    case Miss(t) =>
      var c := s.callers[t];
      Set(s, t, if c.todo[0].mint then c.(todo := [Publish(false), Look(false)] + c.todo[1..]) else Ended(c, Failed))
    case ReadSome(t, n) =>
      var a := s.callers[t].act;
      Set(s, t, s.callers[t].(act := a.(got := a.got + s.fs.inodes[a.ino][|a.got|..n])))
    case ReadEnd(t) => Set(s, t, AfterRead(s.callers[t], |s.history|))
    case CreateTmp(t, p, newIno) =>
      var fs := Create(s.fs, s.callers[t].pid, newIno);
      Set(s, t, s.callers[t].(act := Created(fs.tmps[s.callers[t].pid], p, 0))).(fs := fs)
    case WriteSome(t, n) =>
      var a := s.callers[t].act;
      Set(s, t, s.callers[t].(act := a.(n := n))).(fs := WriteAt(s.fs, a.ino, a.n, Text(a.p)[a.n..n]))
    case Sync(t) => Set(s, t, s.callers[t].(act := Written(s.callers[t].act.ino, s.callers[t].act.p)))
    case MoveTmp(t) => DoMove(s, t)
    case MoveFails(t) => Set(s, t, s.callers[t].(act := Moved(false)))
    case RemoveTmp(t) => Set(s, t, AfterPublish(s.callers[t])).(fs := Remove(s.fs, s.callers[t].pid))
    case RemoveFails(t) => Set(s, t, AfterPublish(s.callers[t]))
    case GiveUp(t) => Set(s, t, Further(s.callers[t]))
    case Fail(t) => Set(s, t, Ended(s.callers[t], Failed))
    case Crash(pid) => s.(dead := s.dead + {pid})
  }

  // ── runs ───────────────────────────────────────────────────────────────────

  predicate Steps(s: State, st: Step, s': State) {
    Enabled(s, st) && s' == Next(s, st)
  }

  ghost predicate Run(steps: seq<Step>, trace: seq<State>) {
    && |trace| == |steps| + 1
    && trace[0] == Init()
    && forall i | 0 <= i < |steps| :: Steps(trace[i], steps[i], trace[i + 1])
  }

  /** Between creating the temporary file and removing it. */
  predicate Publishing(a: Act) {
    Writing(a) || a.Moved?
  }

  /** Two tasks of one process, both publishing. */
  predicate Clash(s: State, t: Task, u: Task) {
    t in s.callers && u in s.callers && t != u && s.callers[t].pid == s.callers[u].pid
    && Publishing(s.callers[t].act) && Publishing(s.callers[u].act)
  }

  ghost predicate Alone(s: State, t: Task) {
    t in s.callers && forall u | u in s.callers && u != t && s.callers[u].pid == s.callers[t].pid ::
      !Publishing(s.callers[u].act)
  }

  /** What the file's safety rests on: a process publishes one code at a time, and its
      unlinks succeed. */
  ghost predicate Careful(s: State, st: Step) {
    match st
    case CreateTmp(t, _, _) => Alone(s, t)
    case RemoveFails(_) => false
    case _ => true
  }

  ghost predicate CarefulRun(steps: seq<Step>, trace: seq<State>) {
    Run(steps, trace) && forall i | 0 <= i < |steps| :: Careful(trace[i], steps[i])
  }

  // ── the invariant ──────────────────────────────────────────────────────────

  /** The final path names the newest version, and every inode it has named holds the
      whole text of its version. */
  ghost predicate FinalOk(s: State) {
    && (s.fs.final.None? <==> s.history == [])
    && (s.fs.final.Some? ==> s.fs.final.value in s.linked && s.linked[s.fs.final.value] == s.history[|s.history| - 1])
    && forall ino | ino in s.linked :: LinkedOk(s, ino)
  }

  predicate LinkedOk(s: State, ino: Ino) {
    ino in s.linked && s.linked[ino].port != 0 && ino in s.fs.inodes && s.fs.inodes[ino] == Text(s.linked[ino])
  }

  predicate Mover(s: State, t: Task, pid: Pid) {
    t in s.callers && s.callers[t].pid == pid && s.callers[t].act.Moved?
  }

  /** A temporary name is its process's own, and names a published inode only until the
      publisher removes it. */
  ghost predicate TmpsOk(s: State) {
    && (forall pid | pid in s.fs.tmps :: s.fs.tmps[pid] in s.fs.inodes)
    && (forall pid, q | pid in s.fs.tmps && q in s.fs.tmps && pid != q :: s.fs.tmps[pid] != s.fs.tmps[q])
    && (forall pid | pid in s.fs.tmps && s.fs.tmps[pid] in s.linked :: exists t :: Mover(s, t, pid))
  }

  ghost predicate NoClash(s: State) {
    forall t, u :: !Clash(s, t, u)
  }

  /** A version the call may return: one current when it began or newer, and no older
      than its own replacement. */
  predicate Recent(s: State, c: Caller, k: nat, p: Pairing) {
    k < |s.history| && s.history[k] == p && c.since <= k + 1 && c.own <= k + 1
  }

  /** A writer's inode is its process's temporary file, unpublished, with the first `n`
      characters in it. */
  predicate WriterOk(s: State, pid: Pid, ino: Ino, p: Pairing, n: nat) {
    && pid in s.fs.tmps && s.fs.tmps[pid] == ino && ino !in s.linked
    && p.port != 0 && n <= |Text(p)|
    && ino in s.fs.inodes && s.fs.inodes[ino] == Text(p)[..n]
  }

  predicate ActOk(s: State, c: Caller) {
    match c.act
    case Idle => true
    case Opened(ino, k, got) => ino in s.linked && Recent(s, c, k, s.linked[ino]) && got <= Text(s.linked[ino])
    case Created(ino, p, n) => WriterOk(s, c.pid, ino, p, n)
    case Written(ino, p) => WriterOk(s, c.pid, ino, p, |Text(p)|)
    case Moved(ok) => c.todo != [] && (ok && c.todo[0] == Publish(true) ==> c.since < c.own)
    case Done(p, k, ended) => Recent(s, c, k, p) && k < ended <= |s.history| && (c.reset ==> c.since <= k)
    case Failed => true
  }

  /** A call ends with a look; a reset with nothing left to replace has replaced. */
  predicate TodoOk(c: Caller) {
    && (c.act.Done? || c.act.Failed? <==> c.todo == [])
    && (c.todo != [] ==> c.todo[|c.todo| - 1].Look?)
    && (c.reset && c.todo != [] && Publish(true) !in c.todo ==> c.since < c.own)
  }

  predicate CallerOk(s: State, t: Task) {
    t in s.callers ==>
      var c := s.callers[t];
      c.since <= |s.history| && c.own <= |s.history| && TodoOk(c) && ActOk(s, c)
  }

  ghost predicate Inv(s: State) {
    FinalOk(s) && TmpsOk(s) && NoClash(s) && forall t :: CallerOk(s, t)
  }

  /** Another caller's invariant stands when versions are only added and its own
      temporary file is left alone. */
  lemma Undisturbed(s: State, s': State, u: Task)
    requires CallerOk(s, u) && u in s.callers && u in s'.callers && s'.callers[u] == s.callers[u]
    requires s.history <= s'.history
    requires forall ino | ino in s.linked :: ino in s'.linked && s'.linked[ino] == s.linked[ino]
    requires Writing(s.callers[u].act) ==>
               var a := s.callers[u].act;
               && s.callers[u].pid in s.fs.tmps && s.callers[u].pid in s'.fs.tmps
               && s'.fs.tmps[s.callers[u].pid] == s.fs.tmps[s.callers[u].pid]
               && a.ino in s.fs.inodes && a.ino in s'.fs.inodes && s'.fs.inodes[a.ino] == s.fs.inodes[a.ino]
               && a.ino !in s'.linked
    ensures CallerOk(s', u)
  {
    hide Text;
  }

  /** A step that only moves one caller on. */
  predicate Local(s: State, t: Task, c: Caller, s': State) {
    s' == Set(s, t, c) && (t in s.callers ==> s.callers[t].pid == c.pid)
  }

  lemma LocalKeeps(s: State, t: Task, c: Caller, s': State)
    requires Inv(s) && Local(s, t, c, s') && CallerOk(s', t)
    requires Publishing(c.act) ==> t in s.callers && Publishing(s.callers[t].act)
    requires t in s.callers && s.callers[t].act.Moved? && !c.act.Moved? ==>
             c.pid !in s.fs.tmps || s.fs.tmps[c.pid] !in s.linked
    ensures Inv(s')
  {
    hide Text, Recent;
    forall u ensures CallerOk(s', u) {
      if u in s.callers && u != t {
        Undisturbed(s, s', u);
      }
    }
    forall u, v ensures !Clash(s', u, v) {
      assert !Clash(s, u, v);
    }
    forall pid | pid in s'.fs.tmps && s'.fs.tmps[pid] in s'.linked ensures exists v :: Mover(s', v, pid) {
      var v :| Mover(s, v, pid);
      assert Mover(s', v, pid);
    }
    forall ino | ino in s'.linked ensures LinkedOk(s', ino) {
      assert LinkedOk(s, ino);
    }
  }

  lemma NonEmptyTail(todo: seq<Op>)
    requires todo != [] && todo[|todo| - 1].Look? && todo[0].Publish?
    ensures |todo| > 1 && todo[1..][|todo| - 2].Look?
    ensures todo[0] != Publish(true) ==> (Publish(true) in todo[1..] <==> Publish(true) in todo)
  {
    assert todo == [todo[0]] + todo[1..];
  }

  lemma OpenKeeps(s: State, t: Task)
    requires Inv(s) && Enabled(s, Open(t))
    ensures Inv(Next(s, Open(t)))
  {
    var s' := Next(s, Open(t));
    assert CallerOk(s, t);
    LocalKeeps(s, t, s'.callers[t], s');
  }

  lemma MissKeeps(s: State, t: Task)
    requires Inv(s) && Enabled(s, Miss(t))
    ensures Inv(Next(s, Miss(t)))
  {
    var s' := Next(s, Miss(t));
    var c := s.callers[t];
    assert CallerOk(s, t);
    assert c.todo == [c.todo[0]] + c.todo[1..];
    LocalKeeps(s, t, s'.callers[t], s');
  }

  lemma ReadSomeKeeps(s: State, t: Task, n: nat)
    requires Inv(s) && Enabled(s, ReadSome(t, n))
    ensures Inv(Next(s, ReadSome(t, n)))
  {
    var s' := Next(s, ReadSome(t, n));
    var a := s.callers[t].act;
    assert CallerOk(s, t) && LinkedOk(s, a.ino);
    hide Text, Recent;
    assert s'.callers[t].act.got == Text(s.linked[a.ino])[..n];
    LocalKeeps(s, t, s'.callers[t], s');
  }

  /** Every read that reaches the end has the whole code of its version. */
  lemma ReadsWhole(s: State, t: Task)
    requires Inv(s) && Enabled(s, ReadEnd(t))
    ensures s.callers[t].act.k < |s.history|
    ensures Parse(s.callers[t].act.got) == Some(s.history[s.callers[t].act.k])
  {
    var a := s.callers[t].act;
    assert CallerOk(s, t) && LinkedOk(s, a.ino);
    var p := s.linked[a.ino];
    assert a.got == Text(p);
    TextParses(p);
  }

  lemma LookTail(todo: seq<Op>)
    requires |todo| > 1 && todo[|todo| - 1].Look? && todo[0].Look?
    ensures todo[1..][|todo| - 2].Look? && (Publish(true) in todo[1..] <==> Publish(true) in todo)
  {
    assert todo == [todo[0]] + todo[1..];
  }

  lemma ReadEndKeeps(s: State, t: Task)
    requires Inv(s) && Enabled(s, ReadEnd(t))
    ensures Inv(Next(s, ReadEnd(t)))
  {
    ReadsWhole(s, t);
    var s' := Next(s, ReadEnd(t));
    var c := s.callers[t];
    assert CallerOk(s, t);
    hide Text, Parse, FinalOk, TmpsOk, NoClash;
    if |c.todo| > 1 {
      LookTail(c.todo);
    }
    LocalKeeps(s, t, s'.callers[t], s');
  }

  lemma SyncKeeps(s: State, t: Task)
    requires Inv(s) && Enabled(s, Sync(t))
    ensures Inv(Next(s, Sync(t)))
  {
    var s' := Next(s, Sync(t));
    assert CallerOk(s, t);
    hide Text;
    LocalKeeps(s, t, s'.callers[t], s');
  }

  lemma RefusedKeeps(s: State, t: Task, s': State)
    requires Inv(s) && Publishes(s, t) && s.callers[t].act.Written?
             && s' == Set(s, t, s.callers[t].(act := Moved(false)))
    ensures Inv(s')
  {
    assert CallerOk(s, t);
    hide Text;
    LocalKeeps(s, t, s'.callers[t], s');
  }

  lemma GiveUpKeeps(s: State, t: Task)
    requires Inv(s) && Enabled(s, GiveUp(t))
    ensures Inv(Next(s, GiveUp(t)))
  {
    var s' := Next(s, GiveUp(t));
    assert CallerOk(s, t);
    NonEmptyTail(s.callers[t].todo);
    hide Text;
    LocalKeeps(s, t, s'.callers[t], s');
  }

  lemma FailKeeps(s: State, t: Task)
    requires Inv(s) && Enabled(s, Fail(t))
    ensures Inv(Next(s, Fail(t)))
  {
    var s' := Next(s, Fail(t));
    assert CallerOk(s, t);
    hide Text;
    LocalKeeps(s, t, s'.callers[t], s');
  }

  lemma BeginKeeps(s: State, t: Task, pid: Pid, reset: bool)
    requires Inv(s) && Enabled(s, Begin(t, pid, reset))
    ensures Inv(Next(s, Begin(t, pid, reset)))
  {
    var s' := Next(s, Begin(t, pid, reset));
    assert RESET[1] == Publish(true);
    LocalKeeps(s, t, s'.callers[t], s');
  }

  lemma CrashKeeps(s: State, pid: Pid)
    requires Inv(s) && Enabled(s, Crash(pid))
    ensures Inv(Next(s, Crash(pid)))
  {
    hide Text, Recent;
    var s' := Next(s, Crash(pid));
    forall u ensures CallerOk(s', u) {
      assert CallerOk(s, u);
      if u in s.callers {
        Undisturbed(s, s', u);
      }
    }
    forall u, v ensures !Clash(s', u, v) {
      assert !Clash(s, u, v);
    }
    forall pid | pid in s'.fs.tmps && s'.fs.tmps[pid] in s'.linked ensures exists v :: Mover(s', v, pid) {
      var v :| Mover(s, v, pid);
      assert Mover(s', v, pid);
    }
    forall ino | ino in s'.linked ensures LinkedOk(s', ino) {
      assert LinkedOk(s, ino);
    }
  }

  // ── steps that change files ────────────────────────────────────────────────

  /** Only a mover's temporary name is published, so a lone idle task's is not. */
  lemma LoneTmpUnpublished(s: State, t: Task)
    requires Inv(s) && Alone(s, t) && !Publishing(s.callers[t].act)
    ensures s.callers[t].pid in s.fs.tmps ==> s.fs.tmps[s.callers[t].pid] !in s.linked
  {
    var pid := s.callers[t].pid;
    if pid in s.fs.tmps && s.fs.tmps[pid] in s.linked {
      var u :| Mover(s, u, pid);
      assert Publishing(s.callers[u].act);
    }
  }

  /** Process `q`'s temporary file is as it was, and not published meanwhile. */
  predicate SameTmp(s: State, s': State, q: Pid) {
    && q in s.fs.tmps && q in s'.fs.tmps && s'.fs.tmps[q] == s.fs.tmps[q]
    && s.fs.tmps[q] in s.fs.inodes && s.fs.tmps[q] in s'.fs.inodes
    && s'.fs.inodes[s.fs.tmps[q]] == s.fs.inodes[s.fs.tmps[q]]
    && (s.fs.tmps[q] in s'.linked ==> s.fs.tmps[q] in s.linked)
  }

  /** A step of task `t` that touches no other process's temporary file and adds
      versions at most. */
  ghost predicate OwnFiles(s: State, t: Task, s': State) {
    && t in s.callers && t in s'.callers
       && s' == Set(s, t, s'.callers[t]).(fs := s'.fs, history := s'.history, linked := s'.linked)
    && s'.callers[t].pid == s.callers[t].pid
    && s.history <= s'.history
    && (forall ino | ino in s.linked :: ino in s'.linked && s'.linked[ino] == s.linked[ino])
    && forall q | q in s.fs.tmps && q != s.callers[t].pid :: SameTmp(s, s', q)
  }

  lemma OthersKeep(s: State, t: Task, s': State)
    requires Inv(s) && Alone(s, t) && OwnFiles(s, t, s') && CallerOk(s', t) && FinalOk(s') && TmpsOk(s')
    ensures Inv(s')
  {
    hide Text, Recent, FinalOk, TmpsOk;
    forall u ensures CallerOk(s', u) {
      if u in s.callers && u != t {
        assert CallerOk(s, u);
        assert Writing(s.callers[u].act) ==> SameTmp(s, s', s.callers[u].pid);
        Undisturbed(s, s', u);
      }
    }
    forall u, v ensures !Clash(s', u, v) {
      assert !Clash(s, u, v);
    }
  }

  /** Movers of other processes are movers still. */
  lemma OtherMovers(s: State, t: Task, s': State)
    requires TmpsOk(s) && OwnFiles(s, t, s')
    ensures forall q | q in s.fs.tmps && s.fs.tmps[q] in s.linked && q != s.callers[t].pid ::
              exists v :: Mover(s', v, q)
  {
    hide SameTmp;
    forall q | q in s.fs.tmps && s.fs.tmps[q] in s.linked && q != s.callers[t].pid ensures exists v :: Mover(s', v, q) {
      var v :| Mover(s, v, q);
      assert Mover(s', v, q);
    }
  }

  lemma PublisherAlone(s: State, t: Task)
    requires Inv(s) && t in s.callers && Publishing(s.callers[t].act)
    ensures Alone(s, t)
  {
    hide FinalOk, TmpsOk, CallerOk;
    forall u | u in s.callers && u != t && s.callers[u].pid == s.callers[t].pid ensures !Publishing(s.callers[u].act) {
      assert !Clash(s, t, u);
    }
  }

  lemma TmpsApart(s: State, pid: Pid, q: Pid)
    requires TmpsOk(s) && pid in s.fs.tmps && q in s.fs.tmps && pid != q
    ensures s.fs.tmps[pid] in s.fs.inodes && s.fs.tmps[pid] != s.fs.tmps[q]
  {
  }

  /** Temporary names kept or taken away, with a mover for each that is published. */
  lemma FewerTmps(s: State, s': State)
    requires TmpsOk(s)
    requires forall pid | pid in s'.fs.tmps :: pid in s.fs.tmps && s'.fs.tmps[pid] == s.fs.tmps[pid]
    requires forall ino | ino in s.fs.inodes :: ino in s'.fs.inodes
    requires forall pid | pid in s'.fs.tmps && s'.fs.tmps[pid] in s'.linked :: exists t :: Mover(s', t, pid)
    ensures TmpsOk(s')
  {
    hide Mover;
  }

  lemma CreatedTmps(s: State, t: Task, p: Pairing, newIno: Ino, s': State)
    requires FinalOk(s) && TmpsOk(s) && Enabled(s, CreateTmp(t, p, newIno)) && s' == Next(s, CreateTmp(t, p, newIno))
    requires s.callers[t].pid in s.fs.tmps ==> s.fs.tmps[s.callers[t].pid] !in s.linked
    ensures OwnFiles(s, t, s') && TmpsOk(s') && FinalOk(s')
  {
    hide Text, TmpsOk;
    var pid := s.callers[t].pid;
    assert OwnFiles(s, t, s') by {
      forall q | q in s.fs.tmps && q != pid ensures SameTmp(s, s', q) {
        TmpsIn(s, q);
        if pid in s.fs.tmps {
          TmpsApart(s, q, pid);
        }
      }
    }
    OtherMovers(s, t, s');
    forall i | i in s.linked ensures LinkedOk(s', i) && i != s'.fs.tmps[pid] {
      assert LinkedOk(s, i);
    }
    hide OwnFiles, LinkedOk;
    forall q | q in s'.fs.tmps ensures s'.fs.tmps[q] in s'.fs.inodes {
      if q in s.fs.tmps {
        TmpsIn(s, q);
      }
    }
    forall q, r | q in s'.fs.tmps && r in s'.fs.tmps && q != r ensures s'.fs.tmps[q] != s'.fs.tmps[r] {
      if q in s.fs.tmps && r in s.fs.tmps {
        TmpsApart(s, q, r);
      } else if q in s.fs.tmps {
        TmpsIn(s, q);
      } else {
        TmpsIn(s, r);
      }
    }
    TmpsFrom(s');
  }

  lemma TmpsFrom(s: State)
    requires forall pid | pid in s.fs.tmps :: s.fs.tmps[pid] in s.fs.inodes
    requires forall pid, q | pid in s.fs.tmps && q in s.fs.tmps && pid != q :: s.fs.tmps[pid] != s.fs.tmps[q]
    requires forall pid | pid in s.fs.tmps && s.fs.tmps[pid] in s.linked :: exists t :: Mover(s, t, pid)
    ensures TmpsOk(s)
  {
  }

  lemma TmpsIn(s: State, pid: Pid)
    requires TmpsOk(s) && pid in s.fs.tmps
    ensures s.fs.tmps[pid] in s.fs.inodes
  {
  }

  lemma CreateKeeps(s: State, t: Task, p: Pairing, newIno: Ino)
    requires Inv(s) && Enabled(s, CreateTmp(t, p, newIno)) && Alone(s, t)
    ensures Inv(Next(s, CreateTmp(t, p, newIno)))
  {
    var s' := Next(s, CreateTmp(t, p, newIno));
    LoneTmpUnpublished(s, t);
    CreatedTmps(s, t, p, newIno, s');
    hide Text, Recent, FinalOk, TmpsOk, NoClash, OwnFiles, Alone;
    assert CallerOk(s, t) && Text(p)[..0] == "";
    OthersKeep(s, t, s');
  }

  /** Writing on where the text already written ends extends it. */
  lemma SpliceExtends(text: string, a: nat, b: nat)
    requires a <= b <= |text|
    ensures Splice(text[..a], a, text[a..b]) == text[..b]
  {
    assert text[..a][..a] + text[a..b] == text[..b];
  }

  /** One temporary file written on. */
  lemma WrittenOn(s: State, t: Task, s': State)
    requires FinalOk(s) && TmpsOk(s) && t in s.callers && s.callers[t].pid in s.fs.tmps
    requires t in s'.callers && s'.callers[t].pid == s.callers[t].pid
    requires s' == Set(s, t, s'.callers[t]).(fs := s.fs.(inodes := s'.fs.inodes))
    requires var ino := s.fs.tmps[s.callers[t].pid];
             ino in s'.fs.inodes && ino !in s.linked
             && s'.fs.inodes == s.fs.inodes[ino := s'.fs.inodes[ino]]
    ensures OwnFiles(s, t, s') && TmpsOk(s') && FinalOk(s')
  {
    hide Text, TmpsOk;
    var pid := s.callers[t].pid;
    assert OwnFiles(s, t, s') by {
      forall q | q in s.fs.tmps && q != pid ensures SameTmp(s, s', q) {
        TmpsApart(s, q, pid);
      }
    }
    OtherMovers(s, t, s');
    forall i | i in s.linked ensures LinkedOk(s', i) {
      assert LinkedOk(s, i);
    }
    hide OwnFiles, LinkedOk;
    FewerTmps(s, s');
  }

  lemma WriteKeeps(s: State, t: Task, n: nat)
    requires Inv(s) && Enabled(s, WriteSome(t, n))
    ensures Inv(Next(s, WriteSome(t, n)))
  {
    var s' := Next(s, WriteSome(t, n));
    var c := s.callers[t];
    assert CallerOk(s, t);
    SpliceExtends(Text(c.act.p), c.act.n, n);
    PublisherAlone(s, t);
    hide Text, Recent, Splice, FinalOk, TmpsOk, NoClash, OwnFiles, Alone;
    WrittenOn(s, t, s');
    OthersKeep(s, t, s');
  }

  /** A move that succeeds: the writer's inode is now what the final path names. */
  predicate MovesOn(s: State, t: Task, s': State) {
    && Publishes(s, t) && s.callers[t].act.Written?
    && Move(s.fs, s.callers[t].pid, s.callers[t].todo[0].replace).Some?
    && s' == DoMove(s, t)
    && WriterOk(s, s.callers[t].pid, s.callers[t].act.ino, s.callers[t].act.p, |Text(s.callers[t].act.p)|)
  }

  lemma MovedFinal(s: State, t: Task, s': State)
    requires FinalOk(s) && MovesOn(s, t, s')
    ensures FinalOk(s')
  {
    hide Text;
    forall i | i in s'.linked ensures LinkedOk(s', i) {
      assert i != s.callers[t].act.ino ==> LinkedOk(s, i);
    }
  }

  lemma MovedTmps(s: State, t: Task, s': State)
    requires TmpsOk(s) && MovesOn(s, t, s')
    ensures OwnFiles(s, t, s') && TmpsOk(s')
  {
    hide Text, TmpsOk;
    var pid := s.callers[t].pid;
    assert OwnFiles(s, t, s') by {
      forall q | q in s.fs.tmps && q != pid ensures SameTmp(s, s', q) {
        TmpsApart(s, q, pid);
      }
    }
    OtherMovers(s, t, s');
    assert Mover(s', t, pid);
    hide OwnFiles;
    FewerTmps(s, s');
  }

  lemma MovedKeeps(s: State, t: Task, s': State)
    requires Inv(s) && MovesOn(s, t, s')
    ensures Inv(s')
  {
    PublisherAlone(s, t);
    MovedFinal(s, t, s');
    MovedTmps(s, t, s');
    hide FinalOk, TmpsOk, NoClash, Text, OwnFiles, Alone;
    assert CallerOk(s, t);
    OthersKeep(s, t, s');
  }

  lemma MoveKeeps(s: State, t: Task)
    requires Inv(s) && Enabled(s, MoveTmp(t))
    ensures Inv(Next(s, MoveTmp(t)))
  {
    var s' := Next(s, MoveTmp(t));
    if Move(s.fs, s.callers[t].pid, s.callers[t].todo[0].replace).None? {
      hide Inv, Move;
      RefusedKeeps(s, t, s');
    } else {
      assert CallerOk(s, t);
      MovedKeeps(s, t, s');
    }
  }

  lemma RemovedTmps(s: State, t: Task, s': State)
    requires FinalOk(s) && TmpsOk(s) && t in s.callers && t in s'.callers && s'.callers[t].pid == s.callers[t].pid
    requires s' == Set(s, t, s'.callers[t]).(fs := Remove(s.fs, s.callers[t].pid))
    ensures OwnFiles(s, t, s') && TmpsOk(s') && FinalOk(s')
  {
    hide Text, TmpsOk;
    assert OwnFiles(s, t, s') by {
      forall q | q in s.fs.tmps && q != s.callers[t].pid ensures SameTmp(s, s', q) {
        TmpsIn(s, q);
      }
    }
    OtherMovers(s, t, s');
    forall i | i in s.linked ensures LinkedOk(s', i) {
      assert LinkedOk(s, i);
    }
    hide OwnFiles, LinkedOk;
    FewerTmps(s, s');
  }

  lemma RemoveKeeps(s: State, t: Task)
    requires Inv(s) && Enabled(s, RemoveTmp(t))
    ensures Inv(Next(s, RemoveTmp(t)))
  {
    var s' := Next(s, RemoveTmp(t));
    assert CallerOk(s, t);
    NonEmptyTail(s.callers[t].todo);
    PublisherAlone(s, t);
    hide Text, Recent, FinalOk, TmpsOk, NoClash, OwnFiles, Alone;
    RemovedTmps(s, t, s');
    OthersKeep(s, t, s');
  }

  lemma StepKeeps(s: State, st: Step)
    requires Inv(s) && Enabled(s, st) && Careful(s, st)
    ensures Inv(Next(s, st))
  {
    match st
    case Begin(t, pid, reset) => BeginKeeps(s, t, pid, reset);
    case Open(t) => OpenKeeps(s, t);
    case Miss(t) => MissKeeps(s, t);
    case ReadSome(t, n) => ReadSomeKeeps(s, t, n);
    case ReadEnd(t) => ReadEndKeeps(s, t);
    case CreateTmp(t, p, newIno) => CreateKeeps(s, t, p, newIno);
    case WriteSome(t, n) => WriteKeeps(s, t, n);
    case Sync(t) => SyncKeeps(s, t);
    case MoveTmp(t) => MoveKeeps(s, t);
    case MoveFails(t) => RefusedKeeps(s, t, Next(s, st));
    case RemoveTmp(t) => RemoveKeeps(s, t);
    case RemoveFails(_) => assert false;
    case GiveUp(t) => GiveUpKeeps(s, t);
    case Fail(t) => FailKeeps(s, t);
    case Crash(pid) => CrashKeeps(s, pid);
  }

  lemma {:induction false} RunKeepsInv(steps: seq<Step>, trace: seq<State>, i: nat)
    requires CarefulRun(steps, trace) && i < |trace|
    ensures Inv(trace[i])
  {
    if i > 0 {
      RunKeepsInv(steps, trace, i - 1);
      assert Steps(trace[i - 1], steps[i - 1], trace[i]);
      StepKeeps(trace[i - 1], steps[i - 1]);
    }
  }

  // ── theorems over whole runs ───────────────────────────────────────────────

  /** Nothing published is taken back: versions, published inodes and finished calls stay. */
  ghost predicate Grows(s: State, s': State) {
    && s.history <= s'.history
    && (forall ino | ino in s.linked :: ino in s'.linked && s'.linked[ino] == s.linked[ino])
    && forall t | t in s.callers :: CallerGrows(s, s', t)
  }

  predicate CallerGrows(s: State, s': State, t: Task) {
    && t in s.callers && t in s'.callers && s'.callers[t].since == s.callers[t].since
    && s'.callers[t].reset == s.callers[t].reset
    && (s.callers[t].todo == [] ==> s'.callers[t] == s.callers[t])
  }

  lemma MoveGrows(s: State, t: Task)
    requires Inv(s) && Enabled(s, MoveTmp(t))
    ensures Grows(s, DoMove(s, t)) && |DoMove(s, t).history| <= |s.history| + 1
  {
    var s' := DoMove(s, t);
    assert CallerOk(s, t);
    hide Text, FinalOk, TmpsOk, NoClash, Recent;
    assert forall u | u in s.callers :: CallerGrows(s, s', u);
    if Move(s.fs, s.callers[t].pid, s.callers[t].todo[0].replace).Some? {
      assert MovesOn(s, t, s');
      hide Inv, DoMove, WriterOk, Move, SameTmp, CallerGrows, Enabled;
      MovedTmps(s, t, s');
    }
  }

  lemma StepGrows(s: State, st: Step)
    requires Inv(s) && Enabled(s, st)
    ensures Grows(s, Next(s, st)) && |Next(s, st).history| <= |s.history| + 1
    ensures forall t | t in Next(s, st).callers && t !in s.callers :: Next(s, st).callers[t].since == |s.history|
  {
    hide Text, Parse, Inv, Create, WriteAt;
    if st.MoveTmp? {
      MoveGrows(s, st.t);
      hide Grows, Move;
    }
  }

  /** Calls that begin later have seen at least these versions. */
  predicate LaterSees(s: State, s': State) {
    forall t | t in s'.callers && t !in s.callers :: s'.callers[t].since >= |s.history|
  }

  lemma GrowsOn(s: State, m: State, s': State)
    requires Grows(s, m) && Grows(m, s') && LaterSees(s, m)
    requires forall t | t in s'.callers && t !in m.callers :: s'.callers[t].since == |m.history|
    ensures Grows(s, s') && LaterSees(s, s')
  {
    forall t | t in s.callers ensures CallerGrows(s, s', t) {
      assert CallerGrows(s, m, t) && CallerGrows(m, s', t);
    }
    forall t | t in s'.callers && t !in s.callers ensures s'.callers[t].since >= |s.history| {
      if t in m.callers {
        assert CallerGrows(m, s', t);
      }
    }
  }

  lemma GrowsAtFirst(s: State)
    ensures Grows(s, s) && LaterSees(s, s)
  {
  }

  lemma NextGrows(steps: seq<Step>, trace: seq<State>, i: nat)
    requires CarefulRun(steps, trace) && 0 < i < |trace|
    ensures Grows(trace[i - 1], trace[i]) && |trace[i].history| <= |trace[i - 1].history| + 1
    ensures forall t | t in trace[i].callers && t !in trace[i - 1].callers ::
            trace[i].callers[t].since == |trace[i - 1].history|
  {
    RunKeepsInv(steps, trace, i - 1);
    assert Steps(trace[i - 1], steps[i - 1], trace[i]);
    hide Next, Enabled, Inv, CarefulRun, Grows;
    StepGrows(trace[i - 1], steps[i - 1]);
  }

  lemma {:induction false} RunGrows(steps: seq<Step>, trace: seq<State>, i: nat, j: nat)
    requires CarefulRun(steps, trace) && i <= j < |trace|
    ensures Grows(trace[i], trace[j]) && LaterSees(trace[i], trace[j])
  {
    hide *;
    if i == j {
      GrowsAtFirst(trace[i]);
    } else {
      RunGrows(steps, trace, i, j - 1);
      NextGrows(steps, trace, j);
      GrowsOn(trace[i], trace[j - 1], trace[j]);
    }
  }

  /** The inode at the final path is never written again. */
  lemma NeverWrittenAgain(steps: seq<Step>, trace: seq<State>, i: nat, j: nat)
    requires CarefulRun(steps, trace) && i <= j < |trace| && trace[i].fs.final.Some?
    ensures var ino := trace[i].fs.final.value;
            ino in trace[i].fs.inodes && ino in trace[j].fs.inodes && trace[j].fs.inodes[ino] == trace[i].fs.inodes[ino]
  {
    RunGrows(steps, trace, i, j);
    RunKeepsInv(steps, trace, i);
    RunKeepsInv(steps, trace, j);
    hide CarefulRun, Text;
    assert LinkedOk(trace[i], trace[i].fs.final.value) && LinkedOk(trace[j], trace[i].fs.final.value);
  }

  /** What a reader of the final path would make of it now. */
  function Current(s: State): Option<Pairing> {
    if s.fs.final.Some? && s.fs.final.value in s.fs.inodes then Parse(s.fs.inodes[s.fs.final.value]) else None
  }

  /** The final path always holds a complete code, the newest version. */
  lemma CurrentIsNewest(s: State)
    requires Inv(s)
    ensures Current(s) == if s.history == [] then None else Some(s.history[|s.history| - 1])
  {
    if s.fs.final.Some? {
      assert LinkedOk(s, s.fs.final.value);
      var p := s.history[|s.history| - 1];
      TextParses(p);
    }
  }

  /** Versions come one at a time. */
  lemma {:induction false} WhenCurrent(steps: seq<Step>, trace: seq<State>, b: nat, i: nat, k: nat) returns (m: nat)
    requires CarefulRun(steps, trace) && b <= i < |trace|
    requires |trace[b].history| <= k + 1 <= |trace[i].history|
    ensures b <= m <= i && |trace[m].history| == k + 1
  {
    hide *;
    m := i;
    if |trace[i].history| != k + 1 && b < i {
      NextGrows(steps, trace, i);
      m := WhenCurrent(steps, trace, b, i - 1, k);
    }
  }

  lemma VersionThen(steps: seq<Step>, trace: seq<State>, m: nat, i: nat)
    requires CarefulRun(steps, trace) && m <= i < |trace| && trace[m].history != []
    ensures |trace[m].history| <= |trace[i].history|
    ensures Current(trace[m]) == Some(trace[i].history[|trace[m].history| - 1])
  {
    RunGrows(steps, trace, m, i);
    RunKeepsInv(steps, trace, m);
    hide CarefulRun, Inv, Current;
    CurrentIsNewest(trace[m]);
  }

  predicate Returned(s: State, t: Task, p: Pairing) {
    t in s.callers && s.callers[t].act.Done? && s.callers[t].act.p == p
  }

  /** Every code a `load` or a `reset` returns is whole, and was at the final path at
      some moment of the call: between any state before it began and any after it
      returned. */
  lemma ReturnsWhatWasCurrent(steps: seq<Step>, trace: seq<State>, b: nat, i: nat, t: Task, p: Pairing)
    requires CarefulRun(steps, trace) && b <= i < |trace|
    requires t !in trace[b].callers && Returned(trace[i], t, p)
    ensures exists m | b <= m <= i :: Current(trace[m]) == Some(p)
  {
    RunGrows(steps, trace, b, i);
    RunKeepsInv(steps, trace, i);
    assert CallerOk(trace[i], t);
    var k := trace[i].callers[t].act.k;
    hide *;
    var m := WhenCurrent(steps, trace, b, i, k);
    VersionThen(steps, trace, m, i);
    assert Current(trace[m]) == Some(p);
  }

  /** No inversion: a call that begins after another has returned does not return an
      older version; a reset then returns a newer one. */
  lemma NoInversion(steps: seq<Step>, trace: seq<State>, i: nat, j: nat, t: Task, u: Task)
    requires CarefulRun(steps, trace) && i <= j < |trace|
    requires t in trace[i].callers && trace[i].callers[t].act.Done? && u !in trace[i].callers
    requires u in trace[j].callers && trace[j].callers[u].act.Done?
    ensures trace[i].callers[t].act.k <= trace[j].callers[u].act.k
    ensures trace[j].callers[u].reset ==> trace[i].callers[t].act.k < trace[j].callers[u].act.k
  {
    RunGrows(steps, trace, i, j);
    RunKeepsInv(steps, trace, i);
    RunKeepsInv(steps, trace, j);
    hide CarefulRun;
    assert CallerOk(trace[i], t) && CallerOk(trace[j], u);
  }

  /** No read of a pairing file finds a broken one. */
  lemma NoReadIsTorn(steps: seq<Step>, trace: seq<State>, i: nat, t: Task)
    requires CarefulRun(steps, trace) && i < |trace| && Enabled(trace[i], ReadEnd(t))
    ensures Parse(trace[i].callers[t].act.got).Some?
  {
    RunKeepsInv(steps, trace, i);
    ReadsWhole(trace[i], t);
  }

  ghost predicate NoResets(steps: seq<Step>) {
    forall i | 0 <= i < |steps| :: steps[i].Begin? ==> !steps[i].reset
  }

  predicate Mild(s: State) {
    |s.history| <= 1 && forall t | t in s.callers :: Publish(true) !in s.callers[t].todo
  }

  lemma MildCaller(c: Caller)
    requires c.todo != [] && Publish(true) !in c.todo
    ensures !(c.todo[0] == Publish(true)) && Publish(true) !in c.todo[1..]
    ensures Publish(true) !in [Publish(false), Look(false)] + c.todo[1..]
  {
    assert c.todo == [c.todo[0]] + c.todo[1..];
  }

  lemma StepMild(s: State, st: Step)
    requires Inv(s) && Mild(s) && Enabled(s, st) && (st.Begin? ==> !st.reset)
    ensures Mild(Next(s, st))
  {
    if !st.Begin? && !st.Crash? {
      MildCaller(s.callers[st.t]);
    }
    if st.MoveTmp? {
      hide TmpsOk, NoClash, CallerOk, Text;
    } else {
      hide Text, Parse, Inv, Create, WriteAt, Remove;
    }
  }

  lemma InitMild()
    ensures Mild(Init())
  {
  }

  lemma {:induction false} RunMild(steps: seq<Step>, trace: seq<State>, i: nat)
    requires CarefulRun(steps, trace) && NoResets(steps) && i < |trace|
    ensures Mild(trace[i])
  {
    hide Inv, Mild, Next, Enabled, Careful;
    if i == 0 {
      InitMild();
    } else {
      assert Steps(trace[i - 1], steps[i - 1], trace[i - 1 + 1]);
      assert steps[i - 1].Begin? ==> !steps[i - 1].reset;
      RunKeepsInv(steps, trace, i - 1);
      RunMild(steps, trace, i - 1);
      hide CarefulRun, NoResets, Run;
      StepMild(trace[i - 1], steps[i - 1]);
    }
  }

  lemma ReturnedVersion(steps: seq<Step>, trace: seq<State>, i: nat, t: Task, p: Pairing)
    requires CarefulRun(steps, trace) && i < |trace| && Returned(trace[i], t, p)
    ensures p in trace[i].history
  {
    RunKeepsInv(steps, trace, i);
    assert CallerOk(trace[i], t);
  }

  /** With no resets, all successful loads of a run agree: losing a mint race is fine. */
  lemma LoadsAgree(steps: seq<Step>, trace: seq<State>, i: nat, j: nat, t: Task, u: Task, p: Pairing, q: Pairing)
    requires CarefulRun(steps, trace) && NoResets(steps) && i <= j < |trace|
    requires Returned(trace[i], t, p) && Returned(trace[j], u, q)
    ensures p == q
  {
    ReturnedVersion(steps, trace, i, t, p);
    ReturnedVersion(steps, trace, j, u, q);
    RunGrows(steps, trace, i, j);
    RunMild(steps, trace, j);
    hide CarefulRun, NoResets;
  }

  // ── exactly which steps write a published inode ─────────────────────────────

  /** The step changes what inode `ino` holds. */
  predicate Changes(s: State, st: Step, ino: Ino)
    requires Enabled(s, st) && ino in s.fs.inodes
  {
    ino !in Next(s, st).fs.inodes || Next(s, st).fs.inodes[ino] != s.fs.inodes[ino]
  }

  /** In any state, an inode with something in it is changed by a step if and only if the
      step creates a temporary file whose name already names that inode, or writes
      something else to it by a descriptor still open on it. */
  lemma WhatChangesAnInode(s: State, st: Step, ino: Ino)
    requires Enabled(s, st) && ino in s.fs.inodes && s.fs.inodes[ino] != ""
    ensures Changes(s, st, ino) <==>
              || (st.CreateTmp? && s.callers[st.t].pid in s.fs.tmps && s.fs.tmps[s.callers[st.t].pid] == ino)
              || (st.WriteSome?
                  && var a := s.callers[st.t].act;
                  a.ino == ino && Splice(s.fs.inodes[ino], a.n, Text(a.p)[a.n..st.n]) != s.fs.inodes[ino])
  {
    hide Text, Splice, Parse;
  }

  /** In a state of a careful run, creating a temporary file would empty a published inode
      if and only if the process's temporary name still names one; and no write could
      touch one at all. */
  lemma WhatTearsAPublishedFile(s: State, st: Step, ino: Ino)
    requires Inv(s) && Enabled(s, st) && ino in s.linked
    ensures ino in s.fs.inodes
    ensures Changes(s, st, ino) <==>
              st.CreateTmp? && s.callers[st.t].pid in s.fs.tmps && s.fs.tmps[s.callers[st.t].pid] == ino
  {
    assert LinkedOk(s, ino);
    TextParses(s.linked[ino]);
    if st.WriteSome? {
      assert CallerOk(s, st.t);
    }
    hide Inv, Text, Splice, Changes, Enabled;
    WhatChangesAnInode(s, st, ino);
  }

  /** A writer's text is lost to another task's new temporary file if and only if the two
      are of one process: they share the name. */
  lemma SharedNameLosesText(s: State, t: Task, u: Task, p: Pairing, newIno: Ino)
    requires Inv(s) && Enabled(s, CreateTmp(t, p, newIno))
    requires u in s.callers && Writing(s.callers[u].act)
    requires s.callers[u].act.Written? || s.callers[u].act.n > 0
    ensures s.callers[u].act.ino in s.fs.inodes
    ensures Changes(s, CreateTmp(t, p, newIno), s.callers[u].act.ino) <==> s.callers[t].pid == s.callers[u].pid
  {
    assert CallerOk(s, u);
    TextParses(s.callers[u].act.p);
    assert s.callers[t].pid in s.fs.tmps && s.callers[t].pid != s.callers[u].pid ==>
             s.fs.tmps[s.callers[t].pid] != s.fs.tmps[s.callers[u].pid];
    hide Inv, Text, Changes, Enabled;
    WhatChangesAnInode(s, CreateTmp(t, p, newIno), s.callers[u].act.ino);
  }

  lemma EmptyIsNoCode()
    ensures Parse("").None?
  {
    assert Trim("") == "";
  }

  /** What a written temporary file holds once another task has made its own. */
  lemma AfterNewTmp(s: State, t: Task, u: Task, p: Pairing, newIno: Ino)
    requires Inv(s) && Enabled(s, CreateTmp(u, p, newIno)) && Enabled(s, MoveTmp(t))
    ensures var m, c := Next(s, CreateTmp(u, p, newIno)), s.callers[t];
            && Enabled(m, MoveTmp(t)) && m.callers[t] == c && m.fs.final == s.fs.final && m.history == s.history
            && c.pid in m.fs.tmps && m.fs.tmps[c.pid] in m.fs.inodes
            && m.fs.inodes[m.fs.tmps[c.pid]] == (if c.pid == s.callers[u].pid then "" else Text(c.act.p))
            && s.fs.final != Some(m.fs.tmps[c.pid])
  {
    assert CallerOk(s, t);
    var c := s.callers[t];
    assert Text(c.act.p)[..|Text(c.act.p)|] == Text(c.act.p);
    assert s.callers[u].pid in s.fs.tmps && c.pid != s.callers[u].pid ==>
             s.fs.tmps[s.callers[u].pid] != s.fs.tmps[c.pid];
    hide Text, Parse, CallerOk, NoClash;
  }

  /** A task about to move its whole code into place publishes no code at all if and only
      if another task of its own process makes a temporary file first: theirs is the same
      name. Tasks of other processes may make theirs at any moment. */
  lemma NewTmpSpoilsAMoveExactly(s: State, t: Task, u: Task, p: Pairing, newIno: Ino)
    requires Inv(s) && Enabled(s, CreateTmp(u, p, newIno)) && Enabled(s, MoveTmp(t))
    requires s.callers[t].todo[0].replace || s.fs.final.None?
    ensures var m := Next(s, CreateTmp(u, p, newIno));
            && Enabled(m, MoveTmp(t))
            && var s' := Next(m, MoveTmp(t));
            && s'.history == s.history + [s.callers[t].act.p]
            && Current(s') == if s.callers[t].pid == s.callers[u].pid then None else Some(s.callers[t].act.p)
  {
    AfterNewTmp(s, t, u, p, newIno);
    assert CallerOk(s, t);
    TextParses(s.callers[t].act.p);
    EmptyIsNoCode();
    var m := Next(s, CreateTmp(u, p, newIno));
    hide Inv, CallerOk, Text, Parse, Enabled;
    assert Publishes(m, t) && m.callers[t].act.Written? && Next(m, MoveTmp(t)) == DoMove(m, t) by { MoveIs(m, t); }
    hide Next;
  }

  lemma MoveIs(s: State, t: Task)
    requires Enabled(s, MoveTmp(t))
    ensures Publishes(s, t) && s.callers[t].act.Written? && Next(s, MoveTmp(t)) == DoMove(s, t)
  {
  }

  // ── what a careful run rules out ───────────────────────────────────────────

  function Last(trace: seq<State>): State
    requires trace != []
  {
    trace[|trace| - 1]
  }

  predicate UnlinksSucceed(steps: seq<Step>) {
    forall st | st in steps :: !st.RemoveFails?
  }

  /** Only the other half of a careful run. */
  ghost predicate OneAtATime(steps: seq<Step>, trace: seq<State>) {
    |steps| < |trace| && forall i | 0 <= i < |steps| :: steps[i].CreateTmp? ==> Alone(trace[i], steps[i].t)
  }

  lemma CarefulIsBoth(steps: seq<Step>, trace: seq<State>)
    requires Run(steps, trace)
    ensures CarefulRun(steps, trace) <==> OneAtATime(steps, trace) && UnlinksSucceed(steps)
  {
    hide Next, Enabled, Alone;
    if CarefulRun(steps, trace) {
      forall i | 0 <= i < |steps| ensures steps[i].CreateTmp? ==> Alone(trace[i], steps[i].t) {
        assert Careful(trace[i], steps[i]);
      }
      forall i | 0 <= i < |steps| ensures !steps[i].RemoveFails? {
        assert Careful(trace[i], steps[i]);
      }
    }
  }

  /** A reader has come to the end of the pairing file and has no code; the final path
      holds none, though versions have been published. */
  predicate Torn(s: State, t: Task) {
    && Enabled(s, ReadEnd(t)) && Parse(s.callers[t].act.got).None?
    && s.history != [] && s.fs.final.Some? && Current(s).None?
  }

  lemma TornIsCareless(steps: seq<Step>, trace: seq<State>, i: nat, t: Task)
    requires Run(steps, trace) && i < |trace| && Torn(trace[i], t)
    ensures !CarefulRun(steps, trace)
  {
    hide Run, Enabled;
    if CarefulRun(steps, trace) {
      NoReadIsTorn(steps, trace, i, t);
    }
  }

  lemma Then(steps: seq<Step>, trace: seq<State>, st: Step) returns (steps': seq<Step>, trace': seq<State>)
    requires Run(steps, trace) && Enabled(Last(trace), st)
    ensures Run(steps', trace') && Last(trace') == Next(Last(trace), st)
    ensures UnlinksSucceed(steps) && !st.RemoveFails? ==> UnlinksSucceed(steps')
    ensures OneAtATime(steps, trace) && (st.CreateTmp? ==> Alone(Last(trace), st.t)) ==> OneAtATime(steps', trace')
  {
    hide Enabled, Next, Alone;
    steps', trace' := steps + [st], trace + [Next(Last(trace), st)];
    forall i | 0 <= i < |steps'| ensures Steps(trace'[i], steps'[i], trace'[i + 1]) {
      assert i < |steps| ==> Steps(trace[i], steps[i], trace[i + 1]);
    }
  }

  /** A task that has found no file and must mint. */
  predicate Minting(s: State, t: Task, pid: Pid) {
    t in s.callers && s.callers[t] == Caller(pid, false, [Publish(false), Look(false)], Idle, 0, 0)
  }

  lemma Mints(steps: seq<Step>, trace: seq<State>, t: Task, pid: Pid) returns (steps': seq<Step>, trace': seq<State>)
    requires Run(steps, trace)
    requires var s := Last(trace);
             t !in s.callers && s.dead == {} && s.fs.final.None? && s.history == []
    ensures Run(steps', trace') && (UnlinksSucceed(steps) ==> UnlinksSucceed(steps'))
    ensures OneAtATime(steps, trace) ==> OneAtATime(steps', trace')
    ensures var s := Last(trace); var s' := Last(trace'); Minting(s', t, pid) && s' == Set(s, t, s'.callers[t])
  {
    hide Run, OneAtATime, Alone, UnlinksSucceed;
    var n, u := Then(steps, trace, Begin(t, pid, false));
    steps', trace' := Then(n, u, Miss(t));
    assert LOAD[1..] == [] && [Publish(false), Look(false)] + LOAD[1..] == [Publish(false), Look(false)];
  }

  lemma WritesAll(steps: seq<Step>, trace: seq<State>, t: Task, pid: Pid, p: Pairing, ino: Ino)
    returns (steps': seq<Step>, trace': seq<State>)
    requires Run(steps, trace) && p.port != 0
    requires var s := Last(trace); Minting(s, t, pid) && s.dead == {} && ino !in s.fs.inodes && pid !in s.fs.tmps
    ensures Run(steps', trace') && (UnlinksSucceed(steps) ==> UnlinksSucceed(steps'))
    ensures OneAtATime(steps, trace) && Alone(Last(trace), t) ==> OneAtATime(steps', trace')
    ensures var s := Last(trace); var s' := Last(trace');
            && s' == Set(s, t, s.callers[t].(act := Written(ino, p))).(fs := s'.fs)
            && s'.fs.tmps == s.fs.tmps[pid := ino] && s'.fs.final == s.fs.final
            && s'.fs.inodes == s.fs.inodes[ino := Text(p)]
  {
    SpliceExtends(Text(p), 0, |Text(p)|);
    assert Text(p)[..0] == "" && Text(p)[..|Text(p)|] == Text(p);
    hide Code, Text, Run, OneAtATime, Alone, UnlinksSucceed, Splice;
    var n1, u1 := Then(steps, trace, CreateTmp(t, p, ino));
    var n2, u2 := Then(n1, u1, WriteSome(t, |Text(p)|));
    steps', trace' := Then(n2, u2, Sync(t));
  }

  lemma ReadsEmpty(steps: seq<Step>, trace: seq<State>, t: Task, pid: Pid)
    returns (steps': seq<Step>, trace': seq<State>)
    requires Run(steps, trace)
    requires var s := Last(trace);
             && t !in s.callers && s.dead == {} && s.history != [] && s.fs.final.Some?
             && s.fs.final.value in s.fs.inodes && s.fs.inodes[s.fs.final.value] == ""
    ensures Run(steps', trace') && (UnlinksSucceed(steps) ==> UnlinksSucceed(steps'))
    ensures OneAtATime(steps, trace) ==> OneAtATime(steps', trace')
    ensures Torn(Last(trace'), t)
  {
    hide Run, OneAtATime, UnlinksSucceed, Alone;
    var n1, u1 := Then(steps, trace, Begin(t, pid, false));
    steps', trace' := Then(n1, u1, Open(t));
    assert Parse("").None?;
    hide Parse;
  }

  /** Creating the temporary file anew empties whatever its name still names. */
  lemma Truncates(steps: seq<Step>, trace: seq<State>, t: Task, q: Pairing, ino: Ino)
    returns (steps': seq<Step>, trace': seq<State>)
    requires Run(steps, trace) && q.port != 0
    requires var s := Last(trace);
             Publishes(s, t) && s.callers[t].act.Idle? && s.callers[t].pid in s.fs.tmps && ino !in s.fs.inodes
    ensures Run(steps', trace') && (UnlinksSucceed(steps) ==> UnlinksSucceed(steps'))
    ensures OneAtATime(steps, trace) && Alone(Last(trace), t) ==> OneAtATime(steps', trace')
    ensures var s := Last(trace); var s' := Last(trace'); var i := s.fs.tmps[s.callers[t].pid];
            s' == Set(s, t, s.callers[t].(act := Created(i, q, 0))).(fs := s.fs.(inodes := s.fs.inodes[i := ""]))
  {
    hide Run, OneAtATime, Alone;
    steps', trace' := Then(steps, trace, CreateTmp(t, q, ino));
  }

  lemma Links(steps: seq<Step>, trace: seq<State>, t: Task) returns (steps': seq<Step>, trace': seq<State>)
    requires Run(steps, trace)
    requires var s := Last(trace);
             Publishes(s, t) && s.callers[t].act.Written? && !s.callers[t].todo[0].replace && s.fs.final.None?
               && s.callers[t].pid in s.fs.tmps
    ensures Run(steps', trace') && (UnlinksSucceed(steps) ==> UnlinksSucceed(steps'))
    ensures OneAtATime(steps, trace) ==> OneAtATime(steps', trace')
    ensures var s := Last(trace); var s' := Last(trace');
            && s'.callers == s.callers[t := s.callers[t].(act := Moved(true))] && s'.dead == s.dead
            && s'.fs == s.fs.(final := Some(s.fs.tmps[s.callers[t].pid]))
               && s'.history == s.history + [s.callers[t].act.p]
  {
    hide Run, OneAtATime, Alone;
    steps', trace' := Then(steps, trace, MoveTmp(t));
  }

  /** Two publishers in one process share one temporary name: the second truncates what
      the first then links, and a reader finds an empty file. Every unlink succeeds. */
  lemma TwoPublishersTear(p: Pairing, q: Pairing) returns (steps: seq<Step>, trace: seq<State>)
    requires p.port != 0 && q.port != 0
    ensures Run(steps, trace) && UnlinksSucceed(steps) && !OneAtATime(steps, trace)
    ensures Torn(Last(trace), 2)
  {
    assert Run([], [Init()]) && UnlinksSucceed([]);
    hide Text, Parse, Run, UnlinksSucceed, OneAtATime, Enabled, Next, DoMove, Alone, Torn;
    steps, trace := Mints([], [Init()], 0, 1);
    steps, trace := Mints(steps, trace, 1, 1);
    steps, trace := WritesAll(steps, trace, 0, 1, p, 7);
    steps, trace := Truncates(steps, trace, 1, q, 8);
    steps, trace := Links(steps, trace, 0);
    steps, trace := ReadsEmpty(steps, trace, 2, 2);
    Blame(steps, trace, 2);
  }

  lemma Blame(steps: seq<Step>, trace: seq<State>, t: Task)
    requires Run(steps, trace) && Torn(Last(trace), t)
    ensures !(OneAtATime(steps, trace) && UnlinksSucceed(steps))
  {
    CarefulIsBoth(steps, trace);
    hide Torn, OneAtATime, UnlinksSucceed, CarefulRun;
    TornIsCareless(steps, trace, |trace| - 1, t);
  }

  lemma Unlinks(steps: seq<Step>, trace: seq<State>, t: Task) returns (steps': seq<Step>, trace': seq<State>)
    requires Run(steps, trace)
    requires Publishes(Last(trace), t) && Last(trace).callers[t].act == Moved(true)
    ensures Run(steps', trace') && (OneAtATime(steps, trace) ==> OneAtATime(steps', trace'))
    ensures Last(trace') == Set(Last(trace), t, Further(Last(trace).callers[t]))
  {
    hide Run, OneAtATime, Alone;
    steps', trace' := Then(steps, trace, RemoveFails(t));
  }

  lemma ResetOpens(steps: seq<Step>, trace: seq<State>, t: Task, pid: Pid)
    returns (steps': seq<Step>, trace': seq<State>)
    requires Run(steps, trace)
    requires var s := Last(trace); t !in s.callers && s.dead == {} && s.fs.final.Some?
    ensures Run(steps', trace') && (OneAtATime(steps, trace) ==> OneAtATime(steps', trace'))
    ensures var s := Last(trace); var s' := Last(trace');
            exists k :: s' == Set(s, t, Caller(pid, true, RESET, Opened(s.fs.final.value, k, ""), |s.history|, 0))
  {
    hide Run, OneAtATime, Alone;
    var n1, u1 := Then(steps, trace, Begin(t, pid, true));
    steps', trace' := Then(n1, u1, Open(t));
  }

  lemma ReadsOn(steps: seq<Step>, trace: seq<State>, t: Task, p: Pairing)
    returns (steps': seq<Step>, trace': seq<State>)
    requires Run(steps, trace) && p.port != 0
    requires var s := Last(trace);
             && Looks(s, t) && s.callers[t].act.Opened? && s.callers[t].act.got == "" && |s.callers[t].todo| > 1
             && s.callers[t].act.ino in s.fs.inodes && s.fs.inodes[s.callers[t].act.ino] == Text(p)
    ensures Run(steps', trace') && (OneAtATime(steps, trace) ==> OneAtATime(steps', trace'))
    ensures Last(trace') == Set(Last(trace), t, Further(Last(trace).callers[t]))
  {
    TextParses(p);
    hide Parse, Text, Run, OneAtATime, Alone;
    steps', trace' := ReadsText(steps, trace, t, Text(p));
    steps', trace' := Then(steps', trace', ReadEnd(t));
  }

  lemma ReadsText(steps: seq<Step>, trace: seq<State>, t: Task, text: string)
    returns (steps': seq<Step>, trace': seq<State>)
    requires Run(steps, trace) && text != ""
    requires var s := Last(trace);
             && Looks(s, t) && s.callers[t].act.Opened? && s.callers[t].act.got == ""
             && s.callers[t].act.ino in s.fs.inodes && s.fs.inodes[s.callers[t].act.ino] == text
    ensures Run(steps', trace') && (OneAtATime(steps, trace) ==> OneAtATime(steps', trace'))
    ensures Last(trace') ==
            Set(Last(trace), t, Last(trace).callers[t].(act := Last(trace).callers[t].act.(got := text)))
  {
    assert "" + text[0..|text|] == text;
    hide Run, OneAtATime, Alone;
    steps', trace' := Then(steps, trace, ReadSome(t, |text|));
  }

  /** The first half of a reset: it reads the code there is. */
  lemma ResetReads(steps: seq<Step>, trace: seq<State>, t: Task, pid: Pid, p: Pairing)
    returns (steps': seq<Step>, trace': seq<State>)
    requires Run(steps, trace) && p.port != 0
    requires var s := Last(trace);
             && t !in s.callers && s.dead == {} && s.fs.final.Some? && s.fs.final.value in s.fs.inodes
             && s.fs.inodes[s.fs.final.value] == Text(p)
    ensures Run(steps', trace') && (OneAtATime(steps, trace) ==> OneAtATime(steps', trace'))
    ensures var s := Last(trace); var s' := Last(trace');
            s' == Set(s, t, Caller(pid, true, [Publish(true), Look(true)], Idle, |s.history|, 0))
  {
    hide Text, Run, OneAtATime;
    assert RESET[1..] == [Publish(true), Look(true)];
    steps', trace' := ResetOpens(steps, trace, t, pid);
    steps', trace' := ReadsOn(steps', trace', t, p);
  }

  /** A temporary name left behind by a failed unlink still names the published inode:
      the process's next publication truncates it, and a reader finds an empty file. No
      two tasks of a process publish at once. */
  lemma FailedUnlinkTears(p: Pairing, q: Pairing) returns (steps: seq<Step>, trace: seq<State>)
    requires p.port != 0 && q.port != 0
    ensures Run(steps, trace) && OneAtATime(steps, trace) && !UnlinksSucceed(steps)
    ensures Torn(Last(trace), 2)
  {
    assert Run([], [Init()]) && OneAtATime([], [Init()]);
    hide Text, Parse, Run, UnlinksSucceed, OneAtATime, Enabled, Next, DoMove, Torn;
    steps, trace := Mints([], [Init()], 0, 1);
    steps, trace := WritesAll(steps, trace, 0, 1, p, 7);
    steps, trace := Links(steps, trace, 0);
    steps, trace := Unlinks(steps, trace, 0);
    steps, trace := ResetReads(steps, trace, 1, 1, p);
    steps, trace := Truncates(steps, trace, 1, q, 8);
    steps, trace := ReadsEmpty(steps, trace, 2, 2);
    Blame(steps, trace, 2);
  }
}
