/** A node's one outstanding call: callers, the reconnect loop and arriving frames
    over one shared `Inner`. Every step is one lock section or one task's own work
    between two awaits; timeouts strike at any await. */
module NodeCalls {
  import opened Wrappers

  type Call = nat
  /** Who must answer: a node id, or the router. */
  type Who = string

  /** How a call ended. An answer carries the call it was given for, if any: a frame
      nobody asked for answers none. */
  datatype Outcome = Answered(to: Option<Call>) | NoRoute(to: Option<Call>) | Changed | TimedOut

  /** Where a caller stands in `ask`. */
  datatype Phase =
    | Queued                  // awaiting its turn
    | InTurn                  // awaiting a router
    | SawUp                   // woken, the slot not set yet
    | Armed                   // the slot set, the request not sent
    | Unsent                  // nobody to send to
    | Awaiting                // sent; awaiting the answer
    | Finished(outcome: Outcome)

  datatype Caller = Caller(
    who: Who,
    phase: Phase,
    sent: bool,               // its request went to a router
    mail: Option<Outcome>)    // what its reply channel holds

  /** The reconnect loop. */
  datatype Loop =
    | Away                    // dialling or sleeping
    | Live                    // in `session`
    | Over                    // session returned, `tx` still there
    | TxGone                  // `tx` taken, `up` still set
    | Down                    // about to take the slot

  datatype Slot = Slot(who: Who, call: Call)

  datatype State = State(
    loop: Loop,
    tx: bool,                 // `tx` holds the session's writer
    up: bool,
    waiting: Option<Slot>,
    turn: Option<Call>,
    callers: map<Call, Caller>,
    answered: set<Call>)      // calls whose answer has arrived, wanted or not

  function Init(): State {
    State(Away, false, false, None, None, map[], {})
  }

  datatype Step =
    | Ask(k: Call, who: Who)
    | TakeTurn(k: Call)
    | SeeUp(k: Call)
    | Arm(k: Call)
    | Send(k: Call, ok: bool) // the writer may have gone with the session
    | Disarm(k: Call)
    | Abandon(k: Call)        // the timeout drops the call
    | Wake(k: Call)
    | Connect
    | Welcome
    | Receive(tag: Option<Call>, who: Who, noRoute: bool)
    | Drop
    | TakeTx
    | SayDown
    | Flush

  predicate At(s: State, k: Call, p: Phase) {
    k in s.callers && s.callers[k].phase == p
  }

  /** A frame answering call `k` can arrive once, after `k` was sent, from the node
      asked; any other frame answers nothing. */
  predicate Arrives(s: State, tag: Option<Call>, who: Who) {
    tag.Some? ==>
      && tag.value in s.callers && s.callers[tag.value].sent && tag.value !in s.answered
      && s.callers[tag.value].who == who
  }

  predicate Enabled(s: State, st: Step) {
    match st
    case Ask(k, _) => k !in s.callers
    case TakeTurn(k) => At(s, k, Queued) && s.turn.None?
    case SeeUp(k) => At(s, k, InTurn) && s.up
    case Arm(k) => At(s, k, SawUp)
    case Send(k, ok) => At(s, k, Armed) && (ok ==> s.tx)
    case Disarm(k) => At(s, k, Unsent)
    case Abandon(k) => At(s, k, Queued) || At(s, k, InTurn) || At(s, k, Awaiting)
    case Wake(k) => At(s, k, Awaiting) && s.callers[k].mail.Some?
    case Connect => s.loop.Away?
    case Welcome => s.loop.Live?
    case Receive(tag, who, _) => s.loop.Live? && Arrives(s, tag, who)
    case Drop => s.loop.Live?
    case TakeTx => s.loop.Over?
    case SayDown => s.loop.TxGone?
    case Flush => s.loop.Down?
  }

  function Set(s: State, k: Call, c: Caller): State {
    s.(callers := s.callers[k := c])
  }

  function Move(s: State, k: Call, p: Phase): State
    requires k in s.callers
  {
    Set(s, k, s.callers[k].(phase := p))
  }

  /** The call's future ends: its turn passes on, its receiver is dropped. */
  function Finish(s: State, k: Call, o: Outcome): State
    requires k in s.callers
  {
    Move(s, k, Finished(o)).(turn := if s.turn == Some(k) then None else s.turn)
  }

  /** `reply.send`: the slot's sender is used up; a dropped receiver loses the value. */
  function Post(s: State, o: Outcome): State {
    match s.waiting
    case None => s
    case Some(slot) =>
      var s' := s.(waiting := None);
      if slot.call in s.callers && !s.callers[slot.call].phase.Finished?
      then Set(s', slot.call, s.callers[slot.call].(mail := Some(o)))
      else s'
  }

  /** `settle`: only the answer of the node asked is handed over. */
  function Settle(s: State, who: Who, o: Outcome): State {
    if s.waiting.Some? && s.waiting.value.who == who then Post(s, o) else s
  }

  function Answer(tag: Option<Call>, noRoute: bool): Outcome {
    if noRoute then NoRoute(tag) else Answered(tag)
  }

  function DoReceive(s: State, tag: Option<Call>, who: Who, noRoute: bool): State {
    var m := if tag.Some? then s.(answered := s.answered + {tag.value}) else s;
    Settle(m, who, Answer(tag, noRoute))
  }

  function Next(s: State, st: Step): State
    requires Enabled(s, st)
  {
    match st
    case Ask(k, who) => Set(s, k, Caller(who, Queued, false, None))
    case TakeTurn(k) => Move(s, k, InTurn).(turn := Some(k))
    case SeeUp(k) => Move(s, k, SawUp)
    case Arm(k) => Move(s, k, Armed).(waiting := Some(Slot(s.callers[k].who, k)))
    case Send(k, ok) => if ok then Set(s, k, s.callers[k].(phase := Awaiting, sent := true)) else Move(s, k, Unsent)
    case Disarm(k) => Finish(s.(waiting := None), k, Changed)
    case Abandon(k) => Finish(s, k, TimedOut)
    case Wake(k) => Finish(s, k, s.callers[k].mail.value)
    case Connect => s.(loop := Live)
    case Welcome => s.(tx := true, up := true)
    case Receive(tag, who, noRoute) => DoReceive(s, tag, who, noRoute)
    case Drop => s.(loop := Over)
    case TakeTx => s.(loop := TxGone, tx := false)
    case SayDown => s.(loop := Down, up := false)
    case Flush => Post(s, Changed).(loop := Away)
  }

  ghost predicate Run(steps: seq<Step>, trace: seq<State>) {
    && |trace| == |steps| + 1
    && trace[0] == Init()
    && forall i | 0 <= i < |steps| :: Steps(trace[i], steps[i], trace[i + 1])
  }

  predicate Steps(s: State, st: Step, s': State) {
    Enabled(s, st) && s' == Next(s, st)
  }

  // ── the invariant ──────────────────────────────────────────────────────────

  /** In possession of the turn. */
  predicate Holds(p: Phase) {
    p.InTurn? || p.SawUp? || p.Armed? || p.Unsent? || p.Awaiting?
  }

  /** Past setting the slot. */
  predicate Placed(p: Phase) {
    p.Armed? || p.Unsent? || p.Awaiting?
  }

  ghost predicate CallerOk(s: State, k: Call) {
    k in s.callers ==>
      var c := s.callers[k];
      && (Holds(c.phase) <==> s.turn == Some(k))
      && (Placed(c.phase) ==> s.waiting == (if c.mail.None? then Some(Slot(c.who, k)) else None))
      && (c.mail.Some? ==> Placed(c.phase) || c.phase.Finished?)
      && (c.phase.Awaiting? ==> c.sent)
      && (c.sent ==> c.phase.Awaiting? || c.phase.Finished?)
  }

  /** The slot's call has not been answered, and either waits or was abandoned. */
  ghost predicate SlotOk(s: State) {
    s.waiting.Some? ==>
      var k := s.waiting.value.call;
      && k in s.callers && s.callers[k].who == s.waiting.value.who && s.callers[k].mail.None?
      && (Placed(s.callers[k].phase) || s.callers[k].phase == Finished(TimedOut))
  }

  ghost predicate LoopOk(s: State) {
    && (s.tx ==> s.loop.Live? || s.loop.Over?)
    && (s.turn.Some? ==> s.turn.value in s.callers)
  }

  /** A call awaiting its answer with its sender still in the slot has a session, or a
      cleanup that has not reached the slot. */
  ghost predicate NoStrand(s: State) {
    s.waiting.Some? && At(s, s.waiting.value.call, Awaiting) ==> !s.loop.Away?
  }

  ghost predicate Inv(s: State) {
    && (forall k {:trigger CallerOk(s, k)} :: CallerOk(s, k))
    && SlotOk(s) && LoopOk(s) && NoStrand(s)
  }

  /** The caller a step belongs to. */
  function Actor(st: Step): Option<Call> {
    match st
    case Ask(k, _) => Some(k)
    case TakeTurn(k) => Some(k)
    case SeeUp(k) => Some(k)
    case Arm(k) => Some(k)
    case Send(k, _) => Some(k)
    case Disarm(k) => Some(k)
    case Abandon(k) => Some(k)
    case Wake(k) => Some(k)
    case _ => None
  }

  predicate IsCallerStep(st: Step) {
    Actor(st).Some?
  }

  /** What one step can need to know of the callers. */
  ghost predicate Local(s: State, st: Step, k: Call) {
    && CallerOk(s, k)
    && (s.turn.Some? ==> CallerOk(s, s.turn.value))
    && (s.waiting.Some? ==> CallerOk(s, s.waiting.value.call))
    && (Actor(st).Some? ==> CallerOk(s, Actor(st).value))
  }

  /** The steps of a call up to setting the slot. */
  predicate IsEarly(st: Step) {
    st.Ask? || st.TakeTurn? || st.SeeUp? || st.Arm?
  }

  lemma EarlyStepKeeps(s: State, st: Step, k: Call)
    requires Local(s, st, k) && SlotOk(s) && LoopOk(s) && Enabled(s, st) && IsEarly(st)
    ensures CallerOk(Next(s, st), k)
  {
    hide Post, DoReceive, Arrives;
  }

  lemma LateStepKeeps(s: State, st: Step, k: Call)
    requires Local(s, st, k) && SlotOk(s) && LoopOk(s) && Enabled(s, st) && IsCallerStep(st) && !IsEarly(st)
    ensures CallerOk(Next(s, st), k)
  {
    hide Post, DoReceive, Arrives;
  }

  lemma CallerStepKeeps(s: State, st: Step, k: Call)
    requires Local(s, st, k) && SlotOk(s) && LoopOk(s) && Enabled(s, st) && IsCallerStep(st)
    ensures CallerOk(Next(s, st), k)
  {
    hide Next, Enabled, Local, CallerOk, SlotOk, LoopOk;
    if IsEarly(st) { EarlyStepKeeps(s, st, k); } else { LateStepKeeps(s, st, k); }
  }

  lemma PostKeeps(s: State, o: Outcome, k: Call)
    requires CallerOk(s, k) && SlotOk(s) && LoopOk(s)
    requires s.waiting.Some? ==> CallerOk(s, s.waiting.value.call)
    ensures CallerOk(Post(s, o), k) && SlotOk(Post(s, o)) && LoopOk(Post(s, o)) && Post(s, o).waiting.None?
    ensures Post(s, o).tx == s.tx && Post(s, o).loop == s.loop && Post(s, o).turn == s.turn
  {
  }

  lemma ReceiveKeeps(s: State, st: Step, k: Call)
    requires st.Receive? && Local(s, st, k) && SlotOk(s) && LoopOk(s) && NoStrand(s)
    ensures CallerOk(DoReceive(s, st.tag, st.who, st.noRoute), k) && SlotOk(DoReceive(s, st.tag, st.who, st.noRoute))
            && LoopOk(DoReceive(s, st.tag, st.who, st.noRoute)) && NoStrand(DoReceive(s, st.tag, st.who, st.noRoute))
  {
    var m := if st.tag.Some? then s.(answered := s.answered + {st.tag.value}) else s;
    assert CallerOk(m, k) && SlotOk(m) && LoopOk(m) && (m.waiting.Some? ==> CallerOk(m, m.waiting.value.call));
    hide CallerOk, SlotOk, LoopOk, Post;
    PostKeeps(m, Answer(st.tag, st.noRoute), k);
  }

  lemma LoopStepKeeps(s: State, st: Step, k: Call)
    requires Local(s, st, k) && SlotOk(s) && LoopOk(s) && NoStrand(s) && Enabled(s, st) && !IsCallerStep(st)
    ensures CallerOk(Next(s, st), k) && SlotOk(Next(s, st)) && LoopOk(Next(s, st)) && NoStrand(Next(s, st))
  {
    hide Post, DoReceive, Arrives;
    if st.Receive? {
      ReceiveKeeps(s, st, k);
    } else if st.Flush? {
      PostKeeps(s, Changed, k);
    }
  }

  lemma EarlyStepSlot(s: State, st: Step, k: Call)
    requires Local(s, st, k) && SlotOk(s) && LoopOk(s) && NoStrand(s) && Enabled(s, st) && IsEarly(st)
    ensures SlotOk(Next(s, st)) && LoopOk(Next(s, st)) && NoStrand(Next(s, st))
  {
    hide Post, DoReceive, Arrives;
  }

  lemma LateStepSlot(s: State, st: Step, k: Call)
    requires Local(s, st, k) && SlotOk(s) && LoopOk(s) && NoStrand(s) && Enabled(s, st)
    requires IsCallerStep(st) && !IsEarly(st)
    ensures SlotOk(Next(s, st)) && LoopOk(Next(s, st)) && NoStrand(Next(s, st))
  {
    hide Post, DoReceive, Arrives;
  }

  lemma CallerStepSlot(s: State, st: Step, k: Call)
    requires Local(s, st, k) && SlotOk(s) && LoopOk(s) && NoStrand(s) && Enabled(s, st) && IsCallerStep(st)
    ensures SlotOk(Next(s, st)) && LoopOk(Next(s, st)) && NoStrand(Next(s, st))
  {
    hide Next, Enabled, Local, CallerOk, SlotOk, LoopOk, NoStrand;
    if IsEarly(st) { EarlyStepSlot(s, st, k); } else { LateStepSlot(s, st, k); }
  }

  lemma KeepsInv(s: State, st: Step)
    requires Inv(s) && Enabled(s, st)
    ensures Inv(Next(s, st))
  {
    hide Next, Enabled, CallerOk, SlotOk, LoopOk, NoStrand, IsCallerStep, Actor;
    forall k ensures CallerOk(Next(s, st), k) {
      assert CallerOk(s, k);
      if IsCallerStep(st) { CallerStepKeeps(s, st, k); } else { LoopStepKeeps(s, st, k); }
    }
    assert CallerOk(s, 0);
    if IsCallerStep(st) { CallerStepSlot(s, st, 0); } else { LoopStepKeeps(s, st, 0); }
  }

  lemma {:induction false} RunKeepsInv(steps: seq<Step>, trace: seq<State>, i: nat)
    requires Run(steps, trace) && i <= |steps|
    ensures Inv(trace[i])
  {
    hide Next, Enabled, Inv;
    if i == 0 {
      InitInv();
    } else {
      assert Steps(trace[i - 1], steps[i - 1], trace[i - 1 + 1]);
      RunKeepsInv(steps, trace, i - 1);
      KeepsInv(trace[i - 1], steps[i - 1]);
    }
  }

  lemma InitInv()
    ensures Inv(Init())
  {
  }

  // ── the theorems ───────────────────────────────────────────────────────────

  ghost predicate Reached(s: State) {
    exists steps, trace, i: nat :: Run(steps, trace) && i < |trace| && trace[i] == s
  }

  lemma ReachedInv(s: State)
    requires Reached(s)
    ensures Inv(s)
  {
    hide Inv;
    var steps, trace, i: nat :| Run(steps, trace) && i < |trace| && trace[i] == s;
    RunKeepsInv(steps, trace, i);
  }

  /** No call is stranded: one that awaits its answer has it in its channel already,
      or has its sender in the slot while a session is up or a cleanup still to reach
      the slot; and that cleanup then tells it. */
  lemma NoStrandedCall(s: State, k: Call)
    requires Reached(s) && At(s, k, Awaiting)
    ensures s.callers[k].mail.Some? || (s.waiting == Some(Slot(s.callers[k].who, k)) && !s.loop.Away?)
    ensures s.waiting == Some(Slot(s.callers[k].who, k)) && s.loop.Down? ==>
            Next(s, Flush).callers[k].mail == Some(Changed)
  {
    ReachedInv(s);
    assert CallerOk(s, k);
  }

  /** A slot overwritten by a new call belonged to an abandoned one. */
  lemma OverwritesOnlyAbandoned(s: State, k: Call)
    requires Reached(s) && Enabled(s, Arm(k)) && s.waiting.Some?
    ensures var j := s.waiting.value.call; j != k && j in s.callers && s.callers[j].phase == Finished(TimedOut)
  {
    ReachedInv(s);
    assert CallerOk(s, k) && CallerOk(s, s.waiting.value.call);
  }

  /** One call at a time: whoever is between its turn and its end is alone there. */
  lemma OneCallAtATime(s: State, j: Call, k: Call)
    requires Reached(s) && j in s.callers && k in s.callers && Holds(s.callers[j].phase) && Holds(s.callers[k].phase)
    ensures j == k
  {
    ReachedInv(s);
    assert CallerOk(s, j) && CallerOk(s, k);
  }

  /** A frame settles at most one call, one that asked the frame's sender and has not
      ended. */
  lemma FrameSettlesOne(s: State, tag: Option<Call>, who: Who, noRoute: bool, j: Call)
    requires Reached(s) && Enabled(s, Receive(tag, who, noRoute)) && j in s.callers
    requires Next(s, Receive(tag, who, noRoute)).callers[j] != s.callers[j]
    ensures s.waiting == Some(Slot(who, j)) && s.callers[j].who == who && !s.callers[j].phase.Finished?
    ensures Next(s, Receive(tag, who, noRoute)).waiting.None?
    ensures forall k | k in s.callers && k != j :: Next(s, Receive(tag, who, noRoute)).callers[k] == s.callers[k]
  {
    ReachedInv(s);
  }

  /** A call ends once. */
  lemma OneOutcome(s: State, st: Step, k: Call)
    requires Enabled(s, st) && k in s.callers && s.callers[k].phase.Finished?
    ensures k in Next(s, st).callers && Next(s, st).callers[k].phase == s.callers[k].phase
  {
    hide Arrives;
  }

  lemma ReachedStep(s: State, st: Step)
    requires Reached(s) && Enabled(s, st)
    ensures Reached(Next(s, st))
  {
    var steps, trace, i: nat :| Run(steps, trace) && i < |trace| && trace[i] == s;
    var steps', trace' := steps[..i] + [st], trace[..i + 1] + [Next(s, st)];
    hide Next, Enabled;
    forall j | 0 <= j < |steps'| ensures Steps(trace'[j], steps'[j], trace'[j + 1]) {
      if j < i { assert Steps(trace[j], steps[j], trace[j + 1]); }
    }
    assert Run(steps', trace');
    assert trace'[i + 1] == Next(s, st);
  }

  lemma InitReached()
    ensures Reached(Init())
  {
    var steps, trace := [], [Init()];
    assert Run(steps, trace) && trace[0] == Init();
  }

  // ── whose answer a call gets ───────────────────────────────────────────────

  /** Another call to the node `k` asks was sent and its answer can still arrive. */
  predicate Outstanding(s: State, k: Call, j: Call) {
    && j != k && j in s.callers && k in s.callers
    && s.callers[j].sent && s.callers[j].who == s.callers[k].who && j !in s.answered
  }

  /** What a call has got so far: how it ended, or what waits in its channel. */
  function Gotten(c: Caller): Option<Outcome> {
    if c.phase.Finished? then Some(c.phase.outcome) else c.mail
  }

  /** The step hands call `k` the frame tagged `tag`. */
  predicate Fed(s: State, st: Step, k: Call, tag: Option<Call>) {
    && st.Receive? && st.tag == tag && Arrives(s, tag, st.who)
    && k in s.callers && s.callers[k].who == st.who && s.waiting == Some(Slot(st.who, k))
  }

  /** What posting does to each call. */
  lemma PostGives(s: State, o: Outcome, k: Call)
    requires SlotOk(s)
    ensures k in s.callers <==> k in Post(s, o).callers
    ensures k in s.callers ==>
              var c := s.callers[k];
              Post(s, o).callers[k] ==
              if s.waiting.Some? && s.waiting.value.call == k && !c.phase.Finished? then c.(mail := Some(o)) else c
    ensures Post(s, o).waiting.None? && Post(s, o).tx == s.tx && Post(s, o).up == s.up
  {
  }

  /** What an arriving frame does to each call. */
  predicate FedTo(s: State, s': State, tag: Option<Call>, who: Who, noRoute: bool, k: Call) {
    && (k in s.callers <==> k in s'.callers)
    && (k in s.callers ==>
          var c := s.callers[k];
          s'.callers[k] ==
          if s.waiting == Some(Slot(who, k)) && !c.phase.Finished? then c.(mail := Some(Answer(tag, noRoute))) else c)
  }

  lemma SlotWaits(s: State)
    requires Inv(s)
    ensures SlotOk(s)
  {
  }

  lemma ReceiveFrame(s: State, tag: Option<Call>, who: Who, noRoute: bool)
    requires SlotOk(s)
    ensures var s' := DoReceive(s, tag, who, noRoute);
            && s'.waiting == (if s.waiting.Some? && s.waiting.value.who == who then None else s.waiting)
            && s'.tx == s.tx && s'.up == s.up
  {
  }

  lemma ReceiveGives(s: State, tag: Option<Call>, who: Who, noRoute: bool, k: Call)
    requires SlotOk(s)
    ensures FedTo(s, DoReceive(s, tag, who, noRoute), tag, who, noRoute, k)
  {
    var m := if tag.Some? then s.(answered := s.answered + {tag.value}) else s;
    PostGives(m, Answer(tag, noRoute), k);
    hide Post;
  }

  /** The only step that gives a call an answer feeds it one. */
  lemma GottenMoves(s: State, st: Step, k: Call, o: Outcome)
    requires Inv(s) && Enabled(s, st) && k in Next(s, st).callers && Gotten(Next(s, st).callers[k]) == Some(o)
    requires o.Answered? || o.NoRoute?
    ensures (k in s.callers && Gotten(s.callers[k]) == Some(o)) || Fed(s, st, k, o.to)
    ensures k in s.callers && Next(s, st).callers[k].who == s.callers[k].who
  {
    if st.Receive? {
      ReceiveGives(s, st.tag, st.who, st.noRoute, k);
      hide Inv, DoReceive, CallerOk, NoStrand, LoopOk;
    } else if st.Flush? {
      PostGives(s, Changed, k);
      hide Inv, Post, CallerOk, NoStrand, LoopOk;
    } else {
      hide Inv, Fed, Arrives, DoReceive, Post;
    }
  }

  /** In every run, the answer a call got is the answer to itself unless it was handed
      another frame while it waited; and then it is that frame's. */
  lemma {:induction false} AnswerWasFed(steps: seq<Step>, trace: seq<State>, i: nat, k: Call, o: Outcome)
    requires Run(steps, trace) && i < |trace| && k in trace[i].callers
    requires Gotten(trace[i].callers[k]) == Some(o) && (o.Answered? || o.NoRoute?)
    ensures exists m | 0 <= m < i :: Fed(trace[m], steps[m], k, o.to)
  {
    if i > 0 {
      assert Steps(trace[i - 1], steps[i - 1], trace[i]);
      RunKeepsInv(steps, trace, i - 1);
      hide Inv, Next, Enabled, Fed, Gotten, Run;
      GottenMoves(trace[i - 1], steps[i - 1], k, o);
      if !Fed(trace[i - 1], steps[i - 1], k, o.to) {
        AnswerWasFed(steps, trace, i - 1, k, o);
      }
    }
  }

  /** `trace` goes on from `s`, step by step. */
  ghost predicate Path(s: State, steps: seq<Step>, trace: seq<State>) {
    && |trace| == |steps| + 1 && trace[0] == s
    && forall i {:trigger steps[i]} | 0 <= i < |steps| :: Steps(trace[i], steps[i], trace[i + 1])
  }

  /** No frame that nobody asked for comes from `who`. */
  predicate AsAsked(steps: seq<Step>, who: Who) {
    forall i | 0 <= i < |steps| :: !(steps[i].Receive? && steps[i].tag.None? && steps[i].who == who)
  }

  /** The call ended with an answer, and not the one to itself. */
  predicate Misanswered(s: State, k: Call) {
    && k in s.callers && s.callers[k].phase.Finished?
    && var o := s.callers[k].phase.outcome; (o.Answered? || o.NoRoute?) && o.to != Some(k)
  }

  /** Nothing that can still arrive for `k` is another call's, and nothing that did was. */
  ghost predicate Safe(s: State, k: Call, who: Who) {
    && k in s.callers && s.callers[k].who == who && (Placed(s.callers[k].phase) || s.callers[k].phase.Finished?)
    && (Placed(s.callers[k].phase) ==> forall j :: !Outstanding(s, k, j))
    && var g := Gotten(s.callers[k]); g.Some? && (g.value.Answered? || g.value.NoRoute?) ==> g.value.to == Some(k)
  }

  lemma ArmedIsSafe(s: State, k: Call)
    requires Inv(s) && Enabled(s, Arm(k)) && forall j :: !Outstanding(s, k, j)
    ensures Safe(Next(s, Arm(k)), k, s.callers[k].who)
  {
    assert CallerOk(s, k);
    hide Inv, CallerOk;
    var s' := Next(s, Arm(k));
    forall j ensures !Outstanding(s', k, j) {
      assert !Outstanding(s, k, j);
    }
  }

  /** While a call is placed it has the turn, so nobody else sends: what is outstanding
      only shrinks. */
  lemma OutstandingShrinks(s: State, st: Step, k: Call, j: Call)
    requires Inv(s) && Enabled(s, st) && k in s.callers && Placed(s.callers[k].phase)
    requires Outstanding(Next(s, st), k, j)
    ensures Outstanding(s, k, j)
  {
    assert CallerOk(s, k) && CallerOk(s, j);
    if st.Receive? {
      ReceiveGives(s, st.tag, st.who, st.noRoute, j);
      ReceiveGives(s, st.tag, st.who, st.noRoute, k);
      ReceiveAnswers(s, st.tag, st.who, st.noRoute);
      hide Inv, DoReceive, CallerOk;
    } else if st.Flush? {
      PostGives(s, Changed, j);
      PostGives(s, Changed, k);
      PostAnswers(s, Changed);
      hide Inv, Post, CallerOk;
    } else {
      hide Inv, Post, DoReceive, Arrives, SlotOk, LoopOk, NoStrand;
    }
  }

  lemma PostAnswers(s: State, o: Outcome)
    ensures Post(s, o).answered == s.answered
  {
  }

  lemma ReceiveAnswers(s: State, tag: Option<Call>, who: Who, noRoute: bool)
    ensures s.answered <= DoReceive(s, tag, who, noRoute).answered
  {
  }

  /** A placed call stays placed or ends, and keeps whom it asked. */
  lemma PlacedMoves(s: State, st: Step, k: Call)
    requires Inv(s) && Enabled(s, st) && k in s.callers
    requires Placed(s.callers[k].phase) || s.callers[k].phase.Finished?
    ensures k in Next(s, st).callers && Next(s, st).callers[k].who == s.callers[k].who
    ensures Placed(Next(s, st).callers[k].phase) || Next(s, st).callers[k].phase.Finished?
    ensures s.callers[k].phase.Finished? ==> Next(s, st).callers[k].phase == s.callers[k].phase
  {
    if st.Receive? {
      ReceiveGives(s, st.tag, st.who, st.noRoute, k);
      hide Inv, DoReceive, CallerOk;
    } else if st.Flush? {
      PostGives(s, Changed, k);
      hide Inv, Post, CallerOk;
    } else {
      hide Inv, Post, DoReceive, Arrives;
    }
  }

  lemma StaysSafe(s: State, st: Step, k: Call, who: Who)
    requires Inv(s) && Enabled(s, st) && Safe(s, k, who) && AsAsked([st], who)
    ensures Safe(Next(s, st), k, who)
  {
    var s' := Next(s, st);
    assert [st][0] == st;
    PlacedMoves(s, st, k);
    hide Inv, Next, Enabled, Gotten;
    if s'.callers[k].phase.Finished? {
    } else {
      assert Placed(s.callers[k].phase);
      forall j ensures !Outstanding(s', k, j) {
        if Outstanding(s', k, j) {
          OutstandingShrinks(s, st, k, j);
          assert false;
        }
      }
    }
    SafeGets(s, st, k, who);
  }

  lemma FedOwnOrOutstanding(s: State, st: Step, k: Call, tag: Option<Call>)
    ensures Fed(s, st, k, tag) && tag.Some? ==> tag.value == k || Outstanding(s, k, tag.value)
  {
  }

  lemma SafeGets(s: State, st: Step, k: Call, who: Who)
    requires Inv(s) && Enabled(s, st) && Safe(s, k, who) && k in Next(s, st).callers && AsAsked([st], who)
    ensures var g := Gotten(Next(s, st).callers[k]);
            g.Some? && (g.value.Answered? || g.value.NoRoute?) ==> g.value.to == Some(k)
  {
    var g := Gotten(Next(s, st).callers[k]);
    assert [st][0] == st;
    if g.Some? && (g.value.Answered? || g.value.NoRoute?) {
      GottenMoves(s, st, k, g.value);
      PlacedMoves(s, st, k);
      hide Inv, Next, Enabled;
      FedOwnOrOutstanding(s, st, k, g.value.to);
    }
  }

  /** The session `k` was armed in is ending, and with it the call. */
  predicate Doomed(s: State, k: Call) {
    && k in s.callers
    && var c := s.callers[k];
    || (Placed(c.phase) && (c.mail == Some(Changed) || (c.mail.None? && !s.loop.Live? && !s.loop.Away?)))
    || (c.phase.Finished? && (c.phase.outcome.Changed? || c.phase.outcome.TimedOut?))
  }

  lemma StaysDoomed(s: State, st: Step, k: Call)
    requires Inv(s) && Enabled(s, st) && Doomed(s, k)
    ensures Doomed(Next(s, st), k)
  {
    assert CallerOk(s, k) && SlotOk(s);
    if st.Receive? {
      ReceiveGives(s, st.tag, st.who, st.noRoute, k);
      ReceiveFrame(s, st.tag, st.who, st.noRoute);
      hide Inv, DoReceive;
    } else if st.Flush? {
      PostGives(s, Changed, k);
      hide Inv, Post;
    } else {
      hide Inv, Post, DoReceive, Arrives;
    }
  }

  lemma {:induction false} PathInv(s: State, steps: seq<Step>, trace: seq<State>, i: nat)
    requires Reached(s) && Path(s, steps, trace) && i < |trace|
    ensures Inv(trace[i])
  {
    hide Next, Enabled, Inv, Reached;
    if i == 0 {
      ReachedInv(s);
    } else {
      assert Steps(trace[i - 1], steps[i - 1], trace[i - 1 + 1]);
      PathInv(s, steps, trace, i - 1);
      KeepsInv(trace[i - 1], steps[i - 1]);
    }
  }

  lemma {:induction false} PathSafe(s: State, steps: seq<Step>, trace: seq<State>, k: Call, i: nat)
    requires Reached(s) && Path(s, steps, trace) && 0 < i < |trace|
    requires steps[0] == Arm(k) && Enabled(s, Arm(k)) && forall j :: !Outstanding(s, k, j)
    requires AsAsked(steps, s.callers[k].who)
    ensures Safe(trace[i], k, s.callers[k].who)
  {
    assert Steps(trace[i - 1], steps[i - 1], trace[i - 1 + 1]);
    PathInv(s, steps, trace, i - 1);
    hide Next, Inv, Reached, Safe, Outstanding;
    if i == 1 {
      ArmedIsSafe(s, k);
    } else {
      PathSafe(s, steps, trace, k, i - 1);
      hide Enabled;
      assert AsAsked([steps[i - 1]], s.callers[k].who);
      StaysSafe(trace[i - 1], steps[i - 1], k, s.callers[k].who);
    }
  }

  lemma ArmedIsDoomed(s: State, k: Call)
    requires Inv(s) && Enabled(s, Arm(k)) && !s.loop.Live? && !s.loop.Away?
    ensures Doomed(Next(s, Arm(k)), k)
  {
    assert CallerOk(s, k);
  }

  lemma {:induction false} PathDoomed(s: State, steps: seq<Step>, trace: seq<State>, k: Call, i: nat)
    requires Reached(s) && Path(s, steps, trace) && 0 < i < |trace|
    requires steps[0] == Arm(k) && Enabled(s, Arm(k)) && !s.loop.Live? && !s.loop.Away?
    ensures Doomed(trace[i], k)
  {
    assert Steps(trace[i - 1], steps[i - 1], trace[i - 1 + 1]);
    PathInv(s, steps, trace, i - 1);
    hide Next, Inv, Reached, Doomed;
    if i == 1 {
      ArmedIsDoomed(s, k);
    } else {
      PathDoomed(s, steps, trace, k, i - 1);
      hide Enabled;
      StaysDoomed(trace[i - 1], steps[i - 1], k);
    }
  }

  /** In every run: if no earlier call to the same node was still unanswered when a call
      was armed, and the node then sends nothing it was not asked for, the answer the
      call ends with, if it ends with one, is its own. */
  lemma AnswerIsForItsCall(steps: seq<Step>, trace: seq<State>, m: nat, i: nat, k: Call)
    requires Run(steps, trace) && m < i < |trace| && steps[m] == Arm(k)
    requires k in trace[m].callers && forall j :: !Outstanding(trace[m], k, j)
    requires AsAsked(steps[m..i], trace[m].callers[k].who)
    ensures !Misanswered(trace[i], k)
  {
    var s, path, states := trace[m], steps[m..i], trace[m..i + 1];
    hide Next, Enabled, Outstanding;
    assert Steps(trace[m], steps[m], trace[m + 1]);
    forall n | 0 <= n < |path| ensures Steps(states[n], path[n], states[n + 1]) {
      assert Steps(trace[m + n], steps[m + n], trace[m + n + 1]);
    }
    assert Path(s, path, states) && Reached(s);
    hide Run, Reached, Path, AsAsked;
    PathSafe(s, path, states, k, i - m);
    hide Placed;
  }

  /** From here the call can end with another call's answer, though nothing comes from the
      node that it was not asked for. */
  ghost predicate CanBeMisanswered(s: State, k: Call) {
    exists steps, trace :: EndsMisanswered(s, k, steps, trace)
  }

  ghost predicate EndsMisanswered(s: State, k: Call, steps: seq<Step>, trace: seq<State>) {
    && Path(s, steps, trace) && steps != [] && steps[0] == Arm(k)
    && k in s.callers && AsAsked(steps, s.callers[k].who) && Misanswered(trace[|steps|], k)
  }

  lemma Then(s: State, steps: seq<Step>, trace: seq<State>, st: Step) returns (steps': seq<Step>, trace': seq<State>)
    requires Path(s, steps, trace) && Enabled(trace[|steps|], st)
    ensures Path(s, steps', trace') && steps' == steps + [st] && trace'[|steps'|] == Next(trace[|steps|], st)
  {
    hide Enabled, Next;
    steps', trace' := steps + [st], trace + [Next(trace[|steps|], st)];
    forall i | 0 <= i < |steps'| ensures Steps(trace'[i], steps'[i], trace'[i + 1]) {
      assert i < |steps| ==> Steps(trace[i], steps[i], trace[i + 1]);
    }
  }

  /** A call armed with the session up. */
  lemma ArmsLive(s: State, k: Call) returns (steps: seq<Step>, trace: seq<State>)
    requires Inv(s) && Enabled(s, Arm(k)) && (s.loop.Live? || s.loop.Away?)
    ensures Path(s, steps, trace) && steps != [] && steps[0] == Arm(k) && AsAsked(steps, s.callers[k].who)
    ensures var armed := Caller(s.callers[k].who, Armed, false, None);
            trace[|steps|] == s.(loop := Live, tx := true, up := true, waiting := Some(Slot(s.callers[k].who, k)),
                                 callers := s.callers[k := armed])
  {
    assert CallerOk(s, k);
    hide Inv, CallerOk;
    steps, trace := [], [s];
    steps, trace := Then(s, steps, trace, Arm(k));
    if s.loop.Away? {
      steps, trace := Then(s, steps, trace, Connect);
    }
    steps, trace := Then(s, steps, trace, Welcome);
  }

  /** And then the late answer settles it, before or after its request went out. */
  lemma LateAnswerSettles(s: State, k: Call, j: Call)
    requires Reached(s) && Enabled(s, Arm(k)) && (s.loop.Live? || s.loop.Away?) && Outstanding(s, k, j)
    ensures CanBeMisanswered(s, k)
  {
    hide Reached, Path;
    ReachedInv(s);
    var steps, trace := ArmsLive(s, k);
    var who := s.callers[k].who;
    hide Inv, Path;
    steps, trace := Then(s, steps, trace, Receive(Some(j), who, false));
    steps, trace := Then(s, steps, trace, Send(k, true));
    steps, trace := Then(s, steps, trace, Wake(k));
    assert EndsMisanswered(s, k, steps, trace);
  }

  /** Exactly when a call about to be armed can be answered with another's answer: the
      session it is armed in is not already ending, and an earlier call to the same node
      is still unanswered. */
  lemma CanBeMisansweredExactly(s: State, k: Call)
    requires Reached(s) && Enabled(s, Arm(k))
    ensures CanBeMisanswered(s, k) <==> (s.loop.Live? || s.loop.Away?) && exists j :: Outstanding(s, k, j)
  {
    hide Reached, Outstanding, Enabled, Misanswered, Path, AsAsked, Next, Safe, Doomed;
    if CanBeMisanswered(s, k) {
      var steps, trace :| EndsMisanswered(s, k, steps, trace);
      PathLength(s, steps, trace);
      if !s.loop.Live? && !s.loop.Away? {
        PathDoomed(s, steps, trace, k, |steps|);
        DoomedIsNot(trace[|steps|], k);
      } else if forall j :: !Outstanding(s, k, j) {
        PathSafe(s, steps, trace, k, |steps|);
        SafeIsNot(trace[|steps|], k, s.callers[k].who);
      }
    } else if s.loop.Live? || s.loop.Away? {
      forall j ensures !Outstanding(s, k, j) {
        if Outstanding(s, k, j) {
          LateAnswerSettles(s, k, j);
          assert false;
        }
      }
    }
  }

  lemma PathLength(s: State, steps: seq<Step>, trace: seq<State>)
    requires Path(s, steps, trace)
    ensures |trace| == |steps| + 1
  {
  }

  lemma SafeIsNot(s: State, k: Call, who: Who)
    requires Safe(s, k, who)
    ensures !Misanswered(s, k)
  {
  }

  lemma DoomedIsNot(s: State, k: Call)
    requires Doomed(s, k)
    ensures !Misanswered(s, k)
  {
  }

  /** What a frame makes of a waiting call: it wakes to that frame. */
  ghost predicate CanEndWith(s: State, k: Call, tag: Option<Call>) {
    exists who, noRoute ::
      && Enabled(s, Receive(tag, who, noRoute))
      && var m := Next(s, Receive(tag, who, noRoute));
      && Enabled(m, Wake(k)) && Next(m, Wake(k)).callers[k].phase == Finished(Answer(tag, noRoute))
  }

  /** While a call awaits its answer in a live session, an answer to another call can
      end it next if and only if that one is outstanding at the same node: what was
      once late and has arrived since does no harm. */
  lemma MisansweredExactlyWhenOutstanding(s: State, k: Call, j: Call)
    requires Reached(s) && At(s, k, Awaiting) && s.callers[k].mail.None? && s.loop.Live? && j != k
    ensures CanEndWith(s, k, Some(j)) <==> Outstanding(s, k, j)
  {
    ReachedInv(s);
    hide Reached, NoStrand, LoopOk;
    assert CallerOk(s, k);
    hide Inv, CallerOk;
    if Outstanding(s, k, j) {
      assert Enabled(s, Receive(Some(j), s.callers[k].who, false));
      assert Next(Next(s, Receive(Some(j), s.callers[k].who, false)), Wake(k)).callers[k].phase ==
        Finished(Answer(Some(j), false));
    }
  }

  /** A first call in its turn, a router connected. */
  function OneInTurn(who: Who): State {
    State(Live, true, true, None, Some(1), map[1 := Caller(who, InTurn, false, None)], {})
  }

  lemma ReachInTurn(who: Who)
    ensures Reached(OneInTurn(who))
  {
    hide Reached;
    var s := Init();
    InitReached();
    ReachedStep(s, Ask(1, who)); s := Next(s, Ask(1, who));
    ReachedStep(s, TakeTurn(1)); s := Next(s, TakeTurn(1));
    ReachedStep(s, Connect); s := Next(s, Connect);
    ReachedStep(s, Welcome); s := Next(s, Welcome);
    assert s == OneInTurn(who);
  }

  /** A first call sent, then timed out. */
  function OneAbandoned(who: Who): State {
    State(Live, true, true, Some(Slot(who, 1)), None, map[1 := Caller(who, Finished(TimedOut), true, None)], {})
  }

  lemma AbandonOne(who: Who)
    ensures Reached(OneAbandoned(who))
  {
    hide Reached;
    var s := OneInTurn(who);
    ReachInTurn(who);
    ReachedStep(s, SeeUp(1)); s := Next(s, SeeUp(1));
    ReachedStep(s, Arm(1)); s := Next(s, Arm(1));
    ReachedStep(s, Send(1, true)); s := Next(s, Send(1, true));
    ReachedStep(s, Abandon(1)); s := Next(s, Abandon(1));
    assert s == OneAbandoned(who);
  }

  /** It does happen: the second of two calls to one node ends with the answer to the
      first, which had timed out. */
  lemma LateAnswerSettlesNextCall(who: Who) returns (s: State)
    ensures Reached(s) && s.callers.Keys == {1, 2}
    ensures s.callers[1].who == who && s.callers[2].who == who
    ensures s.callers[1].phase == Finished(TimedOut)
    ensures s.callers[2].phase == Finished(Answered(Some(1)))
  {
    hide Reached;
    AbandonOne(who);
    s := OneAbandoned(who);
    ReachedStep(s, Ask(2, who)); s := Next(s, Ask(2, who));
    ReachedStep(s, TakeTurn(2)); s := Next(s, TakeTurn(2));
    ReachedStep(s, SeeUp(2)); s := Next(s, SeeUp(2));
    ReachedStep(s, Arm(2)); s := Next(s, Arm(2));
    ReachedStep(s, Send(2, true)); s := Next(s, Send(2, true));
    ReachedStep(s, Receive(Some(1), who, false)); s := Next(s, Receive(Some(1), who, false));
    ReachedStep(s, Wake(2)); s := Next(s, Wake(2));
  }

  // ── the object ─────────────────────────────────────────────────────────────

  /** The reply channels say what the machine's callers have got and which have ended. */
  ghost predicate Channels(s: State, mail: map<Call, Outcome>, dropped: set<Call>) {
    forall k | k in s.callers ::
      && (k in dropped <==> s.callers[k].phase.Finished?)
      && s.callers[k].mail == (if k in mail then Some(mail[k]) else None)
  }

  /** A value posted to whoever is in the slot, if that one still listens. */
  lemma ChannelPosted(s: State, s': State, mail: map<Call, Outcome>, dropped: set<Call>, hit: Option<Call>, o: Outcome)
    requires Channels(s, mail, dropped) && (hit.Some? ==> hit.value in s.callers)
    requires s'.callers.Keys == s.callers.Keys
    requires forall k | k in s.callers ::
               var c := s.callers[k];
               s'.callers[k] == if hit == Some(k) && !c.phase.Finished? then c.(mail := Some(o)) else c
    ensures Channels(s', if hit.Some? && hit.value !in dropped then mail[hit.value := o] else mail, dropped)
  {
  }

  /** The call in the slot, if it asked `who`. */
  function Hit(waiting: Option<Slot>, who: Who): Option<Call> {
    if waiting.Some? && waiting.value.who == who then Some(waiting.value.call) else None
  }

  lemma SettleStep(s: State, mail: map<Call, Outcome>, dropped: set<Call>, tag: Option<Call>, who: Who, noRoute: bool)
    requires Reached(s) && Channels(s, mail, dropped) && Enabled(s, Receive(tag, who, noRoute))
    ensures var s', hit := Next(s, Receive(tag, who, noRoute)), Hit(s.waiting, who);
            && Reached(s') && s'.tx == s.tx && s'.up == s.up
            && s'.waiting == (if hit.Some? then None else s.waiting)
            && var heard := hit.Some? && hit.value !in dropped;
               Channels(s', if heard then mail[hit.value := Answer(tag, noRoute)] else mail, dropped)
  {
    hide Reached, Arrives, Inv, Channels;
    ReachedInv(s);
    ReachedStep(s, Receive(tag, who, noRoute));
    SlotWaits(s);
    var s' := DoReceive(s, tag, who, noRoute);
    forall k ensures FedTo(s, s', tag, who, noRoute, k) {
      ReceiveGives(s, tag, who, noRoute, k);
    }
    ReceiveFrame(s, tag, who, noRoute);
    hide DoReceive, Answer;
    ChannelPosted(s, s', mail, dropped, Hit(s.waiting, who), Answer(tag, noRoute));
  }

  /** `Inner` as the code keeps it: no callers, only the writer, the flag, the slot and
      the reply channels. Whose call is where is the ghost machine's to know. */
  class Inner {
    var tx: bool
    var up: bool
    var waiting: Option<(Who, Call)>
    var mail: map<Call, Outcome> // what was put into each reply channel
    var dropped: set<Call>       // channels whose receiver is gone
    ghost var now: State

    ghost predicate Valid()
      reads this
    {
      && Reached(now)
      && tx == now.tx && up == now.up
      && waiting == (if now.waiting.None? then None else Some((now.waiting.value.who, now.waiting.value.call)))
      && Channels(now, mail, dropped)
    }

    constructor ()
      ensures Valid() && now == Init()
    {
      tx, up, waiting, mail, dropped, now := false, false, None, map[], {}, Init();
      new;
      InitReached();
    }

    /** `ask`: the slot takes the call. Whoever's sender it held has stopped listening. */
    method Arm(k: Call, who: Who)
      requires Valid() && At(now, k, SawUp) && now.callers[k].who == who
      modifies this
      ensures Valid() && now == Next(old(now), Step.Arm(k))
      ensures waiting == Some((who, k)) && k !in mail
      ensures old(waiting).Some? ==> old(waiting).value.1 in dropped
      ensures tx == old(tx) && up == old(up) && mail == old(mail) && dropped == old(dropped)
    {
      hide Reached;
      ReachedInv(now);
      ReachedStep(now, Step.Arm(k));
      assert CallerOk(now, k);
      if now.waiting.Some? {
        OverwritesOnlyAbandoned(now, k);
      }
      hide Inv, CallerOk;
      waiting := Some((who, k));
      now := Next(now, Step.Arm(k));
    }

    /** `ask`: the request goes out exactly if there is a writer and it still takes. */
    method Send(k: Call, takes: bool) returns (sent: bool)
      requires Valid() && At(now, k, Armed)
      modifies this`now
      ensures Valid() && sent == (tx && takes)
      ensures now == Next(old(now), Step.Send(k, sent))
      ensures sent ==> !now.loop.Away? && !now.loop.TxGone? && !now.loop.Down?
    {
      hide Reached;
      ReachedInv(now);
      hide CallerOk, SlotOk, NoStrand;
      sent := tx && takes;
      ReachedStep(now, Step.Send(k, sent));
      now := Next(now, Step.Send(k, sent));
    }

    /** `ask`: nobody to send to. What is taken out of the slot is this call's own. */
    method Disarm(k: Call)
      requires Valid() && At(now, k, Unsent)
      modifies this
      ensures Valid() && now == Next(old(now), Step.Disarm(k))
      ensures old(waiting).Some? ==> old(waiting).value.1 == k
      ensures waiting.None? && dropped == old(dropped) + {k}
      ensures tx == old(tx) && up == old(up) && mail == old(mail)
    {
      hide Reached;
      ReachedInv(now);
      ReachedStep(now, Step.Disarm(k));
      assert CallerOk(now, k);
      hide Inv, CallerOk;
      waiting := None;
      dropped := dropped + {k};
      now := Next(now, Step.Disarm(k));
    }

    /** `settle`: the frame reaches the call in the slot exactly if it comes from the node
        that one asked; a channel nobody listens to loses it. */
    method Settle(tag: Option<Call>, who: Who, noRoute: bool)
      requires Valid() && Enabled(now, Step.Receive(tag, who, noRoute))
      modifies this
      ensures Valid() && now == Next(old(now), Step.Receive(tag, who, noRoute))
      ensures tx == old(tx) && up == old(up) && dropped == old(dropped)
      ensures var hit := old(waiting).Some? && old(waiting).value.0 == who;
              && waiting == (if hit then None else old(waiting))
              && mail == (if hit && old(waiting).value.1 !in dropped
                          then old(mail)[old(waiting).value.1 := Answer(tag, noRoute)] else old(mail))
    {
      SettleStep(now, mail, dropped, tag, who, noRoute);
      hide Reached, Channels, Next, Enabled, Answer;
      ghost var next := Next(now, Step.Receive(tag, who, noRoute));
      if waiting.Some? && waiting.value.0 == who {
        var k := waiting.value.1;
        waiting := None;
        if k !in dropped {
          mail := mail[k := Answer(tag, noRoute)];
        }
      }
      now := next;
    }

    /** The reconnect loop's last cleanup: a call still waiting is told, and only then. */
    method Flush()
      requires Valid() && now.loop.Down?
      modifies this
      ensures Valid() && now == Next(old(now), Step.Flush)
      ensures tx == old(tx) && up == old(up) && dropped == old(dropped) && waiting.None?
      ensures mail == if old(waiting).Some? && old(waiting).value.1 !in dropped
                      then old(mail)[old(waiting).value.1 := Changed] else old(mail)
      ensures forall k | At(now, k, Awaiting) :: k in mail
    {
      hide Reached;
      ReachedInv(now);
      ReachedStep(now, Step.Flush);
      forall k | At(Next(now, Step.Flush), k, Awaiting) ensures Next(now, Step.Flush).callers[k].mail.Some? {
        assert CallerOk(now, k);
      }
      forall k {
        PostGives(now, Changed, k);
      }
      hide Inv, CallerOk, NoStrand, LoopOk, Post, SlotOk;
      if waiting.Some? {
        var k := waiting.value.1;
        waiting := None;
        if k !in dropped {
          mail := mail[k := Changed];
        }
      }
      now := Next(now, Step.Flush);
    }
  }
}
