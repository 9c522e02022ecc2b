/** One process's handles on lock files, and the record locks the kernel keeps for it.
    POSIX.1-2017 (fcntl() and close()): closing any descriptor of a file drops all the
    process's record locks on that file. Any number of threads ask for the handle at
    once, in steps, under one mutex. Paths vary because the runtime directory is read
    from the environment anew by every call. */
module LockFiles {
  import opened Wrappers

  type Path = string
  type Fd = nat
  type Thread = nat

  /** The thread `embed` started; every other one only asks who holds the lock. */
  const EMBED: Thread := 0

  /** Where the embed thread stands, and on which path. */
  datatype Seat = Standing | Locked(path: Path) | Elected(path: Path) | Resigned(path: Path)

  /** Where a thread is in `lock_file`. */
  datatype Stage =
    | Out
    | Looking(path: Path)         // holding the mutex
    | Missing(path: Path)         // no handle kept for the path
    | Opened(path: Path, fd: Fd)  // opened, not kept yet
    | Has(path: Path, fd: Fd)     // returned with the handle, the mutex released

  datatype State = State(
    files: seq<(Path, Fd)>,       // FILES
    mutex: Option<Thread>,        // who holds it
    threads: map<Thread, Stage>,
    fds: map<Fd, Path>,           // the process's open descriptors on lock files
    locks: set<Path>,             // files the process holds a record lock on
    seat: Seat)

  function Init(): State {
    State([], None, map[], map[], {}, Standing)
  }

  function Find(files: seq<(Path, Fd)>, path: Path): Option<Fd> {
    if files == [] then None
    else if files[0].0 == path then Some(files[0].1)
    else Find(files[1..], path)
  }

  // ── the kernel ─────────────────────────────────────────────────────────────

  function KernelOpen(s: State, path: Path, fd: Fd): State {
    s.(fds := s.fds[fd := path])
  }

  /** Closing any descriptor of a file drops every lock on it. */
  function KernelClose(s: State, fd: Fd): State
    requires fd in s.fds
  {
    s.(fds := s.fds - {fd}, locks := s.locks - {s.fds[fd]})
  }

  // ── steps ──────────────────────────────────────────────────────────────────

  datatype Step =
    | Enter(t: Thread, path: Path)
    | Search(t: Thread)
    | OpenFails(t: Thread)        // the directory is refused or the open fails
    | Open(t: Thread, fd: Fd)
    | Keep(t: Thread)
    | Ask(t: Thread)              // F_GETLK: changes nothing
    | Take(granted: bool)         // the embed thread's F_SETLKW
    | SetElected
    | ClearElected
    | Drop                        // the embed thread's unlock
    | Close(fd: Fd)               // some thread closes a descriptor: the code never does

  function At(s: State, t: Thread): Stage {
    if t in s.threads then s.threads[t] else Out
  }

  predicate Enabled(s: State, st: Step) {
    match st
    case Enter(t, _) => At(s, t).Out? && s.mutex.None? && (t == EMBED ==> s.seat.Standing? || s.seat.Resigned?)
    case Search(t) => At(s, t).Looking?
    case OpenFails(t) => At(s, t).Missing?
    case Open(t, fd) => At(s, t).Missing? && fd !in s.fds
    case Keep(t) => At(s, t).Opened?
    case Ask(t) => At(s, t).Has? && t != EMBED
    case Take(_) => At(s, EMBED).Has? && s.seat.Standing?
    case SetElected => s.seat.Locked?
    case ClearElected => s.seat.Elected?
    case Drop => At(s, EMBED).Has? && s.seat.Resigned?
    case Close(fd) => fd in s.fds
  }

  function Go(s: State, t: Thread, stage: Stage): State {
    s.(threads := s.threads[t := stage])
  }

  function DoSearch(s: State, t: Thread): State
    requires At(s, t).Looking?
  {
    var path := At(s, t).path;
    match Find(s.files, path)
    case Some(fd) => Go(s, t, Has(path, fd)).(mutex := None)
    case None => Go(s, t, Missing(path))
  }

  function Next(s: State, st: Step): State
    requires Enabled(s, st)
  {
    match st
    case Enter(t, path) => Go(s, t, Looking(path)).(mutex := Some(t))
    case Search(t) => DoSearch(s, t)
    case OpenFails(t) =>
      Go(s, t, Out).(mutex := None, seat := if t == EMBED then Standing else s.seat)
    case Open(t, fd) => Go(KernelOpen(s, At(s, t).path, fd), t, Opened(At(s, t).path, fd))
    case Keep(t) =>
      var a := At(s, t);
      Go(s, t, Has(a.path, a.fd)).(files := s.files + [(a.path, a.fd)], mutex := None)
    case Ask(t) => Go(s, t, Out)
    case Take(granted) =>
      var path := At(s, EMBED).path;
      if granted then Go(s, EMBED, Out).(locks := s.locks + {path}, seat := Locked(path)) else Go(s, EMBED, Out)
    case SetElected => s.(seat := Elected(s.seat.path))
    case ClearElected => s.(seat := Resigned(s.seat.path))
    case Drop => Go(s, EMBED, Out).(locks := s.locks - {At(s, EMBED).path}, seat := Standing)
    case Close(fd) => KernelClose(s, fd)
  }

  predicate Steps(s: State, st: Step, s': State) {
    Enabled(s, st) && s' == Next(s, st)
  }

  ghost predicate Run(steps: seq<Step>, trace: seq<State>) {
    && |trace| == |steps| + 1
    && trace[0] == Init()
    && forall i {:trigger steps[i]} | 0 <= i < |steps| :: Steps(trace[i], steps[i], trace[i + 1])
  }

  /** A run of the code: no handle on a lock file is ever closed. */
  ghost predicate Careful(steps: seq<Step>, trace: seq<State>) {
    Run(steps, trace) && forall i | 0 <= i < |steps| :: !steps[i].Close?
  }

  // ── the invariant ──────────────────────────────────────────────────────────

  predicate InMutex(g: Stage) {
    g.Looking? || g.Missing? || g.Opened?
  }

  /** A thread inside has the mutex; what it has found missing is missing still, and what
      it has opened is open and nobody else's. */
  predicate ThreadOk(s: State, t: Thread) {
    var g := At(s, t);
    && (InMutex(g) ==> s.mutex == Some(t))
    && (g.Missing? || g.Opened? ==> Find(s.files, g.path).None?)
    && (g.Opened? || g.Has? ==> g.fd in s.fds && s.fds[g.fd] == g.path)
    && (g.Has? ==> Find(s.files, g.path) == Some(g.fd))
  }

  /** An open descriptor is the one kept for its path, or just opened under the mutex. */
  ghost predicate FdOk(s: State, fd: Fd) {
    fd in s.fds ==>
      || Find(s.files, s.fds[fd]) == Some(fd)
      || (s.mutex.Some? && At(s, s.mutex.value) == Opened(s.fds[fd], fd))
  }

  /** A kept handle is open on its path. */
  predicate KeptOk(s: State, path: Path) {
    var h := Find(s.files, path);
    h.Some? ==> h.value in s.fds && s.fds[h.value] == path
  }

  ghost predicate Inv(s: State) {
    && (forall t :: ThreadOk(s, t))
    && (forall fd :: FdOk(s, fd))
    && (forall path :: KeptOk(s, path))
    && (!s.seat.Standing? ==> s.seat.path in s.locks)
  }

  lemma {:induction false} FindAfter(files: seq<(Path, Fd)>, path: Path, fd: Fd, q: Path)
    ensures Find(files + [(path, fd)], q) ==
            if Find(files, q).Some? then Find(files, q) else if q == path then Some(fd) else None
  {
    if files != [] {
      assert (files + [(path, fd)])[1..] == files[1..] + [(path, fd)];
      FindAfter(files[1..], path, fd, q);
    }
  }

  lemma KeepKeeps(s: State, t: Thread)
    requires Inv(s) && Enabled(s, Keep(t))
    ensures Inv(Next(s, Keep(t)))
  {
    var s', a := Next(s, Keep(t)), At(s, t);
    assert ThreadOk(s, t);
    forall q ensures Find(s'.files, q) == if q == a.path then Some(a.fd) else Find(s.files, q) {
      FindAfter(s.files, a.path, a.fd, q);
    }
    hide Find;
    forall u ensures ThreadOk(s', u) {
      assert ThreadOk(s, u);
    }
    forall fd ensures FdOk(s', fd) {
      assert FdOk(s, fd);
    }
    forall q ensures KeptOk(s', q) {
      assert KeptOk(s, q);
    }
  }

  lemma KeepsInv(s: State, st: Step)
    requires Inv(s) && Enabled(s, st) && !st.Close?
    ensures Inv(Next(s, st))
  {
    if st.Keep? {
      KeepKeeps(s, st.t);
    } else {
      var s' := Next(s, st);
      var t := if st.Enter? || st.Search? || st.OpenFails? || st.Open? || st.Ask? then st.t else EMBED;
      hide Find;
      assert ThreadOk(s, t) && (s.mutex.Some? ==> ThreadOk(s, s.mutex.value));
      forall u ensures ThreadOk(s', u) {
        assert ThreadOk(s, u);
        if st.Search? {
          assert KeptOk(s, At(s, t).path);
        }
      }
      forall fd ensures FdOk(s', fd) {
        assert FdOk(s, fd);
      }
      forall path ensures KeptOk(s', path) {
        assert KeptOk(s, path);
      }
    }
  }

  lemma {:induction false} RunKeepsInv(steps: seq<Step>, trace: seq<State>, i: nat)
    requires Careful(steps, trace) && i <= |steps|
    ensures Inv(trace[i])
  {
    if i > 0 {
      assert Steps(trace[i - 1], steps[i - 1], trace[i - 1 + 1]);
      hide Next, Enabled, Inv;
      RunKeepsInv(steps, trace, i - 1);
      KeepsInv(trace[i - 1], steps[i - 1]);
    }
  }

  // ── the theorems ───────────────────────────────────────────────────────────

  /** One descriptor for each path: it is the kept one, or the one being kept under the
      mutex, and never both. */
  lemma OnePerPath(s: State, fd: Fd, fd': Fd)
    requires Inv(s) && fd in s.fds && fd' in s.fds && s.fds[fd] == s.fds[fd']
    ensures fd == fd'
  {
    assert FdOk(s, fd) && FdOk(s, fd');
    if s.mutex.Some? {
      assert ThreadOk(s, s.mutex.value);
    }
  }

  /** In every interleaving of any number of threads, a process has at most one descriptor
      on each lock file, whoever got it got the same, and ELECTED is set only while the
      process holds the lock it was elected on. */
  lemma OneHandlePerPath(steps: seq<Step>, trace: seq<State>, i: nat, t: Thread, u: Thread)
    requires Careful(steps, trace) && i <= |steps|
    ensures forall fd, fd' | fd in trace[i].fds && fd' in trace[i].fds && trace[i].fds[fd] == trace[i].fds[fd'] ::
            fd == fd'
    ensures At(trace[i], t).Has? && At(trace[i], u).Has? && At(trace[i], t).path == At(trace[i], u).path ==>
              At(trace[i], t).fd == At(trace[i], u).fd
    ensures trace[i].seat.Elected? ==> trace[i].seat.path in trace[i].locks
  {
    RunKeepsInv(steps, trace, i);
    forall fd, fd' | fd in trace[i].fds && fd' in trace[i].fds && trace[i].fds[fd] == trace[i].fds[fd']
      ensures fd == fd'
    {
      OnePerPath(trace[i], fd, fd');
    }
    assert ThreadOk(trace[i], t) && ThreadOk(trace[i], u);
  }

  /** The embed thread lets go of the lock on `path`, having resigned. */
  predicate LetsGo(s: State, st: Step, path: Path) {
    st.Drop? && s.seat.Resigned? && At(s, EMBED).Has? && At(s, EMBED).path == path
  }

  lemma OnlyDropLetsGo(s: State, st: Step, path: Path)
    requires Enabled(s, st) && !st.Close? && path in s.locks && path !in Next(s, st).locks
    ensures LetsGo(s, st, path)
  {
  }

  /** A lock held at one moment and not at a later one was let go by the embed thread in
      between, having resigned: whatever the other threads did, it was not lost. */
  lemma {:induction false} LockIsNotLost(steps: seq<Step>, trace: seq<State>, i: nat, j: nat, path: Path)
    requires Careful(steps, trace) && i <= j <= |steps|
    requires path in trace[i].locks && path !in trace[j].locks
    ensures exists m | i <= m < j :: LetsGo(trace[m], steps[m], path)
  {
    assert Steps(trace[j - 1], steps[j - 1], trace[j - 1 + 1]);
    hide Next, Enabled, LetsGo;
    if path in trace[j - 1].locks {
      OnlyDropLetsGo(trace[j - 1], steps[j - 1], path);
      assert LetsGo(trace[j - 1], steps[j - 1], path);
    } else {
      LockIsNotLost(steps, trace, i, j - 1, path);
    }
  }

  /** Why no handle is ever closed. Whatever descriptor is closed, in whatever thread, the
      process loses a lock exactly if it holds the one on that very file; and if it was
      elected on it, ELECTED is still set. */
  lemma ClosingLosesTheLock(s: State, fd: Fd)
    requires Enabled(s, Close(fd))
    ensures var s' := Next(s, Close(fd));
            && (s'.locks != s.locks <==> s.fds[fd] in s.locks)
            && s'.seat == s.seat
            && (Inv(s) && s.seat.Elected? ==> (s'.seat.path !in s'.locks <==> s.fds[fd] == s.seat.path))
  {
  }

  /** So asking who holds the lock by opening the file afresh and closing it again would
      lose the lock exactly when this process is the one that holds it. */
  lemma AskingAfreshLosesTheLock(s: State, path: Path, fd: Fd)
    requires Inv(s) && fd !in s.fds
    ensures var s' := KernelClose(KernelOpen(s, path, fd), fd);
            && s'.fds == s.fds && s'.seat == s.seat
            && (s'.locks != s.locks <==> path in s.locks)
            && (s.seat == Elected(path) ==> s.seat.path in s.locks && s'.seat.path !in s'.locks)
  {
    var s' := KernelClose(KernelOpen(s, path, fd), fd);
    assert s.fds[fd := path] - {fd} == s.fds;
  }

  // ── the object ─────────────────────────────────────────────────────────────

  /** The process's table, as its threads lock it. */
  class Files {
    var files: seq<(Path, Fd)>
    var fds: map<Fd, Path>

    constructor ()
      ensures files == [] && fds == map[]
    {
      files, fds := [], map[];
    }

    /** `lock_file`, the whole of it under the FILES mutex; `newFd` is the descriptor the
        kernel would give, or none if the directory is refused or the open fails. A path
        once given a handle has that one for good. */
    method Handle(path: Path, newFd: Option<Fd>) returns (fd: Option<Fd>)
      modifies this
      ensures fd == if Find(old(files), path).Some? then Find(old(files), path) else newFd
      ensures forall q :: Find(files, q) == if q == path then fd else Find(old(files), q)
      ensures fds == if Find(old(files), path).None? && newFd.Some? then old(fds)[newFd.value := path] else old(fds)
    {
      var i := 0;
      while i < |files|
        invariant 0 <= i <= |files|
        invariant Find(files, path) == Find(files[i..], path)
      {
        if files[i].0 == path {
          return Some(files[i].1);
        }
        assert files[i..][1..] == files[i + 1..];
        i := i + 1;
      }
      if newFd.None? {
        return None;
      }
      forall q {
        FindAfter(files, path, newFd.value, q);
      }
      fds := fds[newFd.value := path];
      files := files + [(path, newFd.value)];
      return newFd;
    }
  }
}
