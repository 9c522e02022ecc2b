/** What a node that asks for the others is told: one snapshot of the registry, exactly when
    it fits the wire. */
module Listings {
  import opened Wrappers
  import opened Bytes
  import opened Utf8
  import opened Frames
  import opened Streams
  import opened Bodies
  import opened Ids
  import opened DoorRules
  import opened Router
  import opened RegistryInv
  import opened Delivery
  import opened RouterTheorems

  // ── the frame ──────────────────────────────────────────────────────────────

  /** The PROVIDERS reply to node `to`. */
  function Listing(to: Str, es: seq<Entry>): Frame {
    RouterFrame(PROVIDERS, to, EncodeProviders(es))
  }

  /** What the asker makes of a message: a list of nodes, or nothing. */
  function Understood(b: seq<Byte>): Option<seq<Entry>> {
    match Decode(b)
    case Err(_) => None
    case Ok(f) => if DecodeProviders(f.payload).Ok? then Some(DecodeProviders(f.payload).value) else None
  }

  /** The asker learns what was listed if and only if its count and every length in it fit
      16 bits and the whole frame fits the limit; past the limit the reply is refused,
      and the stream it came by with it. */
  lemma {:induction false} ListingIsUnderstood(to: Str, es: seq<Entry>, rest: seq<Byte>)
    requires |to| <= 41
    ensures var f := Listing(to, es);
            && (Understood(Encode(f)) == Some(es) <==> ProvidersFit(es) && BodySize(f) <= MAX_FRAME)
            && (BodySize(f) > MAX_FRAME ==> Decode(Encode(f)).Err?)
            && (BodySize(f) <= MAX_FRAME ==> ReadFrame(Encode(f) + rest) == Read.Got(f, rest))
            && (MAX_FRAME < BodySize(f) < TWO32 ==> ReadFrame(Encode(f) + rest).Bad?)
  {
    var f := Listing(to, es);
    LocalName();
    assert Fits(f) <==> BodySize(f) <= MAX_FRAME;
    assert Sized(f) <==> BodySize(f) < TWO32;
    DecodeEncode(f);
    ProvidersRoundTrip(es);
    hide Encode, Decode, ReadFrame, EncodeProviders, DecodeProviders, ProvidersFit, Fits, Sized;
    if BodySize(f) < TWO32 {
      assert Sized(f);
      ReadEncoding(f, rest);
    }
  }

  function Repeated<T>(x: T, n: nat): (xs: seq<T>)
    ensures |xs| == n && forall i | 0 <= i < n :: xs[i] == x
  {
    seq(n, i => x)
  }

  lemma {:induction false} RepeatedSize(x: Str, n: nat)
    ensures |PutAll(PutStr, Repeated(x, n))| == n * (|x| + 2)
  {
    if n > 0 {
      RepeatedSize(x, n - 1);
      assert Repeated(x, n)[1..] == Repeated(x, n - 1);
    }
  }

  /** A node that serves `n` things with names of `m` bytes each. */
  function Busy(name: Str, n: nat): Descriptor {
    Descriptor(1, [], Repeated(name, n), [])
  }

  lemma {:induction false} BusySize(name: Str, n: nat)
    ensures |PutDescriptor(Busy(name, n))| == 7 + n * (|name| + 2)
  {
    RepeatedSize(name, n);
  }

  /** Two nodes, each with a HELLO the router accepts, whose listing nobody can read: the
      whole of it fits its widths and not the frame limit. */
  lemma {:induction false} ListingCanOverflow(name: Str, a: Str, b: Str, to: Str)
    requires |name| == 2000 && |a| < TWO16 && |b| < TWO16 && |to| <= 41
    ensures var d := Busy(name, 20000);
            var es := [Entry(a, d), Entry(b, d)];
            && DecodeHello(EncodeHello(d)) == Ok(d) && |EncodeHello(d)| < MAX_FRAME
            && ProvidersFit(es) && Decode(Encode(Listing(to, es))).Err? && Understood(Encode(Listing(to, es))).None?
  {
    var d := Busy(name, 20000);
    var es := [Entry(a, d), Entry(b, d)];
    BusySize(name, 20000);
    hide PutDescriptor;
    assert DescriptorFits(d) && ProvidersFit(es);
    HelloRoundTrip(d);
    assert es[1..] == [Entry(b, d)] && es[1..][1..] == [];
    assert |PutAll(PutEntry, es)| > MAX_FRAME by {
      assert PutAll(PutEntry, es) == PutEntry(es[0]) + PutAll(PutEntry, es[1..]);
      assert PutAll(PutEntry, es[1..]) == PutEntry(es[1]) + PutAll(PutEntry, es[1..][1..]);
    }
    assert |EncodeProviders(es)| > MAX_FRAME;
    hide EncodeProviders, DecodeHello, ProvidersFit, Encode, Decode, DescriptorFits, Understood;
    ListingIsUnderstood(to, es, []);
    UnreadNotUnderstood(Encode(Listing(to, es)));
  }

  lemma UnreadNotUnderstood(b: seq<Byte>)
    requires Decode(b).Err?
    ensures Understood(b).None?
  {
  }

  // ── the snapshot ───────────────────────────────────────────────────────────

  lemma {:induction false} DistinctIds(es: seq<Entry>)
    requires forall i, j | 0 <= i < j < |es| :: es[i].id != es[j].id
    ensures |EntryIds(es)| == |es|
  {
    if es != [] {
      var n := |es| - 1;
      DistinctIds(es[..n]);
      assert forall i | 0 <= i < n :: es[..n][i] == es[i];
      assert EntryIds(es) == EntryIds(es[..n]) + {es[n].id};
    }
  }

  /** A listing has each matching peer once, with its descriptor, and nobody else. */
  lemma ListingIsExact(peers: map<Str, Peer>, filter: Str, es: seq<Entry>)
    requires IsListing(peers, filter, es)
    ensures |es| == |Matching(peers, filter)|
    ensures forall x :: x in Matching(peers, filter) <==> x in peers && Entry(x, peers[x].desc) in es
  {
    DistinctIds(es);
    forall x ensures x in Matching(peers, filter) <==> x in peers && Entry(x, peers[x].desc) in es {
      if x in EntryIds(es) {
        var e :| e in es && e.id == x;
      }
    }
  }

  /** The list a task owes goes out once, to the holder of its id if that one still takes
      frames, and to nobody else. */
  lemma ReplyIsQueued(host: Host, s: State, c: Conn)
    requires Reached(host, s) && c in s.tasks && s.tasks[c].phase.Listed?
    ensures var s', x, es := DoReply(s, c), s.tasks[c].id, s.tasks[c].phase.entries;
            && (Routes(s, x) ==>
                  && s.peers[x].conn in s.tasks && s.tasks[s.peers[x].conn].id == x
                  && s.peers[x].conn in s'.tasks
                  && s'.tasks[s.peers[x].conn].queue ==
                     s.tasks[s.peers[x].conn].queue + [Item(Listing(x, es), FromRouter)])
            && forall d | d in s.tasks && !(Routes(s, x) && d == s.peers[x].conn) ::
                 d in s'.tasks && s'.tasks[d].queue == s.tasks[d].queue
  {
    hide Reached, EncodeProviders, Inv, FramesOk, PeersOk;
    var x, es := s.tasks[c].id, s.tasks[c].phase.entries;
    ReachedInv(host, s);
    PeersFrom(s);
    var m := Move(s, c, Relaying);
    PutNamed(s, c, m.tasks[c]);
    assert Routes(s, x) ==> s.tasks[s.peers[x].conn].id == x;
    hide PeersNamed;
    SendTells(m, x, PROVIDERS, EncodeProviders(es));
    hide SendTo;
  }

  /** Step `m` of the run listed `es`, by the registry of that moment, for a connection
      with id `x`. */
  ghost predicate ListedAt(steps: seq<Router.Step>, trace: seq<State>, m: nat, x: Str, es: seq<Entry>) {
    && m < |steps| && m < |trace| && steps[m].List? && steps[m].entries == es
    && steps[m].c in trace[m].tasks && trace[m].tasks[steps[m].c].id == x
    && IsListing(trace[m].peers, DecodeBrandFilter(steps[m].frame.payload), es)
  }

  /** Task `c` owed its list before, or takes it in this step. */
  ghost predicate ListsNow(s: State, st: Router.Step, s': State, c: Conn) {
    c in s'.tasks && s'.tasks[c].phase.Listed? ==>
      && c in s.tasks && s'.tasks[c].id == s.tasks[c].id
      && (|| s.tasks[c].phase == s'.tasks[c].phase
          || (st.List? && st.c == c && s'.tasks[c].phase.entries == st.entries
              && IsListing(s.peers, DecodeBrandFilter(st.frame.payload), st.entries)))
  }

  lemma MovedLists(s: State, st: Router.Step)
    requires Enabled(s, st) && IsCalm(st) && Moved(s, st).phase.Listed?
    ensures st.c in s.tasks && Moved(s, st).id == s.tasks[st.c].id
    ensures
      || Moved(s, st).phase == s.tasks[st.c].phase
      || (st.List? && Moved(s, st).phase.entries == st.entries
          && IsListing(s.peers, DecodeBrandFilter(st.frame.payload), st.entries))
  {
    hide OnWire, Originates, IsBrowserHello, IsListing, DecodeBrandFilter, Routes;
  }

  lemma CalmLists(s: State, st: Router.Step, c: Conn)
    requires Enabled(s, st) && IsCalm(st)
    ensures ListsNow(s, st, Next(s, st), c)
  {
    hide Enabled, Next, Moved, IsCalm, IsListing, DecodeBrandFilter;
    CalmMoves(s, st);
    if c in s.tasks && Next(s, st).tasks[c].phase.Listed? {
      if c == st.c {
        MovedLists(s, st);
      } else {
        assert Same(s.tasks[c], Next(s, st).tasks[c]);
      }
    }
  }

  lemma GreetLists(s: State, st: Router.Step, c: Conn, door: bool, f: Frame, d: Conn)
    requires c !in s.tasks
    ensures ListsNow(s, st, DoGreet(s, c, door, f), d)
  {
    hide Greeting, IsListing, DecodeBrandFilter;
  }

  lemma TicketLists(s: State, st: Router.Step, c: Conn, d: Conn)
    requires c in s.tasks
    ensures ListsNow(s, st, DoTicket(s, c), d)
  {
    hide IsListing, DecodeBrandFilter;
  }

  lemma InsertLists(s: State, st: Router.Step, c: Conn, d: Conn)
    requires c in s.tasks
    ensures ListsNow(s, st, DoInsert(s, c), d)
  {
    hide RouterFrame, Ascii, Tenure, Token, IsListing, DecodeBrandFilter;
  }

  lemma SignalLists(s: State, st: Router.Step, c: Conn, d: Conn)
    requires c in s.tasks && s.tasks[c].phase.Inserted?
    ensures ListsNow(s, st, DoSignal(s, c), d)
  {
    hide IsListing, DecodeBrandFilter;
  }

  lemma WithdrawLists(s: State, st: Router.Step, c: Conn, d: Conn)
    requires c in s.tasks
    ensures ListsNow(s, st, DoWithdraw(s, c), d)
  {
    hide Token, IsListing, DecodeBrandFilter;
  }

  lemma ListsStep(s: State, st: Router.Step, c: Conn)
    requires Enabled(s, st)
    ensures ListsNow(s, st, Next(s, st), c)
  {
    hide ListsNow, DoGreet, DoTicket, DoInsert, DoSignal, DoWithdraw, OnWire, IsBrowserHello, IsListing, Readable;
    match st {
      case Greet(d, door, f) => GreetLists(s, st, d, door, f, c);
      case Ticket(d) => TicketLists(s, st, d, c);
      case Insert(d) => InsertLists(s, st, d, c);
      case Signal(d) => SignalLists(s, st, d, c);
      case Withdraw(d) => WithdrawLists(s, st, d, c);
      case _ =>
        hide Next, Enabled;
        CalmLists(s, st, c);
    }
  }

  lemma {:induction false} WasListed(host: Host, steps: seq<Router.Step>, trace: seq<State>, i: nat, c: Conn)
    requires Run(host, steps, trace) && i < |trace| && c in trace[i].tasks && trace[i].tasks[c].phase.Listed?
    ensures exists m | 0 <= m < i :: ListedAt(steps, trace, m, trace[i].tasks[c].id, trace[i].tasks[c].phase.entries)
  {
    hide Next, Enabled, IsListing, DecodeBrandFilter, ListedAt;
    if i > 0 {
      assert Steps(trace[i - 1], steps[i - 1], trace[i]);
      ListsStep(trace[i - 1], steps[i - 1], c);
      if trace[i - 1].tasks[c].phase == trace[i].tasks[c].phase {
        WasListed(host, steps, trace, i - 1, c);
      } else {
        ListedNow(steps, trace, i - 1, trace[i].tasks[c].id, trace[i].tasks[c].phase.entries);
      }
    }
  }

  lemma ListedNow(steps: seq<Router.Step>, trace: seq<State>, m: nat, x: Str, es: seq<Entry>)
    requires m < |steps| && m < |trace| && steps[m].List? && steps[m].entries == es
    requires steps[m].c in trace[m].tasks && trace[m].tasks[steps[m].c].id == x
    requires IsListing(trace[m].peers, DecodeBrandFilter(steps[m].frame.payload), es)
    ensures ListedAt(steps, trace, m, x, es)
  {
  }

  /** Every PROVIDERS frame the router ever queues carries the listing of the registry of
      one earlier moment, under the filter asked for, and goes to the id that asked. */
  lemma {:induction false} ListingsAreSnapshots(host: Host, steps: seq<Router.Step>, trace: seq<State>,
      i: nat, c: Conn, k: nat, f: Frame)
    requires Run(host, steps, trace) && i < |trace| && Distinct(steps, trace, i)
    requires Delivery.Told(trace[i], c, k, f)
    ensures exists m, x, es | 0 <= m < i :: ListedAt(steps, trace, m, x, es) && f == Listing(x, es)
  {
    hide Next, Enabled, Inv, FramesOk, Listing, ListedAt, TheReply, Collides;
    if i > 0 {
      assert Steps(trace[i - 1], steps[i - 1], trace[i]);
      RunKeepsFrames(host, steps, trace, i - 1);
      hide Delivery.Told, Steps;
      TellsStep(trace[i - 1], steps[i - 1], c, k, f);
      if Delivery.Told(trace[i - 1], c, k, f) {
        ListingsAreSnapshots(host, steps, trace, i - 1, c, k, f);
      } else {
        RepliesWhatWasListed(host, steps, trace, i - 1, f);
      }
    }
  }

  lemma RepliesWhatWasListed(host: Host, steps: seq<Router.Step>, trace: seq<State>, i: nat, f: Frame)
    requires Run(host, steps, trace) && i < |steps| && i < |trace| && TheReply(trace[i], steps[i]) == Some(f)
    ensures exists m, x, es | 0 <= m < i :: ListedAt(steps, trace, m, x, es) && f == Listing(x, es)
  {
    hide Run, ListedAt, EncodeProviders;
    var c := steps[i].c;
    WasListed(host, steps, trace, i, c);
    var m :| 0 <= m < i && ListedAt(steps, trace, m, trace[i].tasks[c].id, trace[i].tasks[c].phase.entries);
    assert f == Listing(trace[i].tasks[c].id, trace[i].tasks[c].phase.entries);
  }

  // ── listings that fit ──────────────────────────────────────────────────────

  /** None of the first `n` HELLOs had a malformed string in its descriptor. */
  ghost predicate CleanHellos(steps: seq<Router.Step>, n: nat) {
    forall i {:trigger steps[i]} | 0 <= i < n && i < |steps| && steps[i].Greet? ::
      ParseDescriptor(steps[i].hello.payload).Got? ==> ParseDescriptor(steps[i].hello.payload).clean
  }

  ghost predicate DescsFit(s: State) {
    forall c | c in s.tasks :: DescriptorFits(s.tasks[c].desc)
  }

  predicate SameDescs(s: State, s': State) {
    s'.tasks.Keys == s.tasks.Keys && forall c | c in s.tasks :: s'.tasks[c].desc == s.tasks[c].desc
  }

  lemma CalmDescs(s: State, st: Router.Step)
    requires Enabled(s, st) && IsCalm(st)
    ensures SameDescs(s, Next(s, st))
  {
    CalmMoves(s, st);
    MovedDesc(s, st);
    hide Enabled, Next, Moved, IsCalm;
    forall d | d in s.tasks && d != st.c ensures s.tasks[d].desc == Next(s, st).tasks[d].desc {
      assert Same(s.tasks[d], Next(s, st).tasks[d]);
    }
  }

  lemma MovedDesc(s: State, st: Router.Step)
    requires Enabled(s, st) && IsCalm(st) && st.c in s.tasks
    ensures Moved(s, st).desc == s.tasks[st.c].desc
  {
    hide OnWire, Originates, IsBrowserHello, IsListing, DecodeBrandFilter, Routes;
  }

  lemma InsertDescs(s: State, c: Conn)
    requires c in s.tasks
    ensures SameDescs(s, DoInsert(s, c))
  {
    hide RouterFrame, Ascii, Tenure, Token;
  }

  lemma TicketDescs(s: State, c: Conn)
    requires c in s.tasks
    ensures SameDescs(s, DoTicket(s, c))
  {
  }

  lemma SignalDescs(s: State, c: Conn)
    requires c in s.tasks && s.tasks[c].phase.Inserted?
    ensures SameDescs(s, DoSignal(s, c))
  {
  }

  lemma WithdrawDescs(s: State, c: Conn)
    requires c in s.tasks
    ensures SameDescs(s, DoWithdraw(s, c))
  {
    hide Token;
  }

  lemma GreetDescs(s: State, c: Conn, door: bool, f: Frame)
    requires DescsFit(s)
    requires ParseDescriptor(f.payload).Got? ==> ParseDescriptor(f.payload).clean
    ensures DescsFit(DoGreet(s, c, door, f))
  {
    hide ParseDescriptor, DescriptorFits, Stamp, Ascii, RouterFrame;
    if ParseDescriptor(f.payload).Got? {
      DescriptorCanonical(f.payload);
    }
  }

  lemma KeepsDescs(s: State, st: Router.Step)
    requires Enabled(s, st) && DescsFit(s)
    requires st.Greet? && ParseDescriptor(st.hello.payload).Got? ==> ParseDescriptor(st.hello.payload).clean
    ensures DescsFit(Next(s, st))
  {
    hide SameDescs, DoGreet, DoTicket, DoInsert, DoSignal, DoWithdraw, OnWire, IsBrowserHello, Readable;
    hide DescriptorFits, ParseDescriptor, DescsFit;
    match st {
      case Greet(c, door, f) => GreetDescs(s, c, door, f);
      case Insert(c) => InsertDescs(s, c); DescsStay(s, Next(s, st));
      case Ticket(c) => TicketDescs(s, c); DescsStay(s, Next(s, st));
      case Signal(c) => SignalDescs(s, c); DescsStay(s, Next(s, st));
      case Withdraw(c) => WithdrawDescs(s, c); DescsStay(s, Next(s, st));
      case _ =>
        hide Next, Enabled;
        CalmDescs(s, st);
        DescsStay(s, Next(s, st));
    }
  }

  lemma DescsStay(s: State, s': State)
    requires DescsFit(s) && SameDescs(s, s')
    ensures DescsFit(s')
  {
    hide DescriptorFits;
  }

  lemma {:induction false} RunKeepsDescs(host: Host, steps: seq<Router.Step>, trace: seq<State>, i: nat)
    requires Run(host, steps, trace) && i < |trace| && CleanHellos(steps, i)
    ensures DescsFit(trace[i])
  {
    hide Next, Enabled, DescsFit, ParseDescriptor;
    if i == 0 {
      InitDescs(host);
    } else {
      assert Steps(trace[i - 1], steps[i - 1], trace[i]);
      RunKeepsDescs(host, steps, trace, i - 1);
      KeepsDescs(trace[i - 1], steps[i - 1]);
    }
  }

  lemma InitDescs(host: Host)
    ensures DescsFit(Init(host))
  {
  }

  /** While every HELLO came with well-formed strings and fewer than 65536 nodes are
      registered, every listing fits its widths, and a node that asks learns it exactly if
      the frame is within the limit. */
  lemma CleanListingsFit(host: Host, steps: seq<Router.Step>, trace: seq<State>, i: nat, filter: Str,
      es: seq<Entry>, to: Str)
    requires Run(host, steps, trace) && i < |trace| && Distinct(steps, trace, i) && CleanHellos(steps, i)
    requires |trace[i].peers| < TWO16 && IsListing(trace[i].peers, filter, es) && |to| <= 41
    ensures ProvidersFit(es)
    ensures Understood(Encode(Listing(to, es))) == Some(es) <==> BodySize(Listing(to, es)) <= MAX_FRAME
  {
    var s := trace[i];
    hide Distinct, CleanHellos, Understood, Listing, Encode;
    RunKeepsDescs(host, steps, trace, i);
    assert ReachedBy(host, steps, trace, i, s);
    hide Run, ReachedBy, IsListing, ProvidersFit;
    ListedFits(host, s, filter, es);
    ListingIsUnderstood(to, es, []);
  }

  lemma ListedFits(host: Host, s: State, filter: Str, es: seq<Entry>)
    requires Reached(host, s) && DescsFit(s) && |s.peers| < TWO16 && IsListing(s.peers, filter, es)
    ensures ProvidersFit(es)
  {
    hide Reached, Matching, Tenure, IsListing, DescriptorFits;
    ListingIsSmall(s.peers, filter, es);
    forall k | 0 <= k < |es| ensures EntryFits(es[k]) {
      ListedPeer(s.peers, filter, es, k);
      EntriesAreLive(host, s, es[k].id);
      NameIsShort(host, s, s.peers[es[k].id].conn);
    }
  }

  lemma ListedPeer(peers: map<Str, Peer>, filter: Str, es: seq<Entry>, k: nat)
    requires IsListing(peers, filter, es) && k < |es|
    ensures es[k].id in peers && es[k].desc == peers[es[k].id].desc
  {
    hide Matching;
    assert es[k] in es;
  }

  lemma NameIsShort(host: Host, s: State, c: Conn)
    requires Reached(host, s) && c in s.tasks
    ensures |s.tasks[c].id| <= 41
  {
    hide Reached, Inv, FramesOk, IsId, IsAscii;
    ReachedInv(host, s);
    IdOfTask(s, c);
    IdFacts(s.tasks[c].id, host);
  }

  lemma ListingIsSmall(peers: map<Str, Peer>, filter: Str, es: seq<Entry>)
    requires IsListing(peers, filter, es)
    ensures |es| <= |peers|
  {
    DistinctIds(es);
    assert Matching(peers, filter) <= peers.Keys;
    SubsetSize(Matching(peers, filter), peers.Keys);
  }

  lemma {:induction false} SubsetSize<T>(a: set<T>, b: set<T>)
    requires a <= b
    ensures |a| <= |b|
  {
    assert b == a + (b - a);
  }
}
