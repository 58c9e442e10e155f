/** Idempotent reserve: a POST carrying a globalReservationId first asks the aggregator for the
    reservations under that id, refreshes each of them in the store, reuses one whose stored status is not
    TERMINATED, and reserves only if there is none.

    The listing, each refresh, the decision and the aggregator's answer to the reserve are separate steps,
    with any other step in between, other writes to the store included. A post is undecided until it
    reuses a reservation or the aggregator has answered its reserve. */
module IdempotentReserve {
  import opened StateMapping
  import opened FreshNames

  datatype Held = Held(globalId: string, lifecycleState: string)

  datatype Phase =
    | Asking(listed: map<string, bool>,   // the listed connections, and whether each was over by then
             refreshed: set<string>)      // those whose status has been written to the store since
    | Reserving                           // none was usable: the reserve is sent
    | Granted(connectionId: string)
    | Reused

  datatype Post = Post(globalId: string, phase: Phase)

  datatype State = State(
    held: map<string, Held>,              // the aggregator's reservations
    terminated: set<string>,              // the connections whose stored status is TERMINATED
    posts: map<nat, Post>)
  {
    predicate Live(connectionId: string, globalId: string) {
      && connectionId in held
      && held[connectionId].globalId == globalId
      && !Over(held[connectionId].lifecycleState)
    }

    // A post under the id that may still send, or has sent, a reserve without an answer.
    predicate Undecided(post: nat, globalId: string) {
      && post in posts && posts[post].globalId == globalId
      && (posts[post].phase.Asking? || posts[post].phase.Reserving?)
    }

    predicate HasRefreshed(post: nat, connectionId: string) {
      post in posts && posts[post].phase.Asking? && connectionId in posts[post].phase.refreshed
    }
  }

  datatype Event =
    | Ask(post: nat, globalId: string)
    | Refresh(post: nat, connectionId: string)   // the status the listing implies is stored
    | Decide(post: nat)
    | Grant(post: nat, connectionId: string)
    | Close(post: nat)                           // refused, failed, or answered
    | Evolve(connectionId: string, lifecycleState: string)
    | Write(connectionId: string, terminated: bool)
    | TerminateWrites(connectionId: string)      // the final write of a terminate task

  // Connection ids are fresh, and terminated and past-end-time are absorbing at the aggregator. Other
  // writers store TERMINATED only for what is over; a terminate task does so whatever happened.
  predicate Can(s: State, e: Event) {
    match e
    case Ask(post, globalId) => post !in s.posts
    case Refresh(post, connectionId) =>
      && post in s.posts && s.posts[post].phase.Asking?
      && connectionId in s.posts[post].phase.listed && connectionId !in s.posts[post].phase.refreshed
    case Decide(post) =>
      && post in s.posts && s.posts[post].phase.Asking?
      && s.posts[post].phase.listed.Keys <= s.posts[post].phase.refreshed
    case Grant(post, connectionId) => post in s.posts && s.posts[post].phase.Reserving? && connectionId !in s.held
    case Close(post) => post in s.posts
    case Evolve(connectionId, lifecycleState) =>
      connectionId in s.held && (Over(s.held[connectionId].lifecycleState) ==> Over(lifecycleState))
    case Write(connectionId, terminated) =>
      terminated && connectionId in s.held ==> Over(s.held[connectionId].lifecycleState)
    case TerminateWrites(connectionId) => true
  }

  function Marked(terminated: set<string>, connectionId: string, isTerminated: bool): set<string> {
    if isTerminated then terminated + {connectionId} else terminated - {connectionId}
  }

  function Do(s: State, e: Event): State
    requires Can(s, e)
  {
    match e
    case Ask(post, globalId) =>
      var listed := map c <- s.held | s.held[c].globalId == globalId :: Over(s.held[c].lifecycleState);
      s.(posts := s.posts[post := Post(globalId, Asking(listed, {}))])
    case Refresh(post, connectionId) =>
      var phase := s.posts[post].phase;
      s.(terminated := Marked(s.terminated, connectionId, phase.listed[connectionId]),
         posts := s.posts[post := s.posts[post].(phase := phase.(refreshed := phase.refreshed + {connectionId}))])
    case Decide(post) =>
      var usable := s.posts[post].phase.listed.Keys - s.terminated;
      s.(posts := s.posts[post := s.posts[post].(phase := if usable == {} then Reserving else Reused)])
    case Grant(post, connectionId) =>
      s.(held := s.held[connectionId := Held(s.posts[post].globalId, "Created")],
         terminated := s.terminated - {connectionId},
         posts := s.posts[post := s.posts[post].(phase := Granted(connectionId))])
    case Close(post) => s.(posts := s.posts - {post})
    case Evolve(connectionId, lifecycleState) =>
      s.(held := s.held[connectionId := s.held[connectionId].(lifecycleState := lifecycleState)])
    case Write(connectionId, terminated) => s.(terminated := Marked(s.terminated, connectionId, terminated))
    case TerminateWrites(connectionId) => s.(terminated := s.terminated + {connectionId})
  }

  // No post begins while another under its id is undecided.
  ghost predicate Alone(s: State, e: Event) {
    e.Ask? ==> forall p :: !s.Undecided(p, e.globalId)
  }

  // No terminate task writes a connection that is still live at the aggregator while a post has
  // refreshed it and not decided yet.
  ghost predicate Spares(s: State, e: Event) {
    e.TerminateWrites? ==> forall p, g :: s.Live(e.connectionId, g) ==> !s.HasRefreshed(p, e.connectionId)
  }

  datatype Rule = Any | Sparing | Careful

  ghost predicate Follows(s: State, e: Event, rule: Rule) {
    (rule != Any ==> Spares(s, e)) && (rule == Careful ==> Alone(s, e))
  }

  ghost predicate Runs(s: State, events: seq<Event>, rule: Rule)
    decreases |events|
  {
    events != [] ==> Can(s, events[0]) && Follows(s, events[0], rule) && Runs(Do(s, events[0]), events[1..], rule)
  }

  function After(s: State, events: seq<Event>): State
    requires Runs(s, events, Any)
    decreases |events|
  {
    if events == [] then s else After(Do(s, events[0]), events[1..])
  }

  lemma {:induction false} IsRun(s: State, events: seq<Event>, rule: Rule)
    requires Runs(s, events, rule)
    ensures Runs(s, events, Any)
    decreases |events|
  {
    if events != [] {
      IsRun(Do(s, events[0]), events[1..], rule);
    }
  }

  // A post lists exactly its id's connections, as over or not; a refresh stores that, and nothing else;
  // and a post that has refreshed them all reserves iff every one of them is stored as TERMINATED.
  lemma PostSteps(s: State, post: nat, globalId: string, c: string)
    ensures Can(s, Ask(post, globalId)) ==>
              var phase := Do(s, Ask(post, globalId)).posts[post].phase;
              && phase.Asking? && phase.refreshed == {}
              && (c in phase.listed <==> c in s.held && s.held[c].globalId == globalId)
              && (c in phase.listed ==>
                    (phase.listed[c] <==> s.held[c].lifecycleState in {"Terminated", "PassedEndTime"}))
    ensures Can(s, Refresh(post, c)) ==>
              var s' := Do(s, Refresh(post, c));
              && (c in s'.terminated <==> s.posts[post].phase.listed[c])
              && s'.terminated - {c} == s.terminated - {c} && s'.HasRefreshed(post, c)
    ensures Can(s, Decide(post)) ==>
              var phase := Do(s, Decide(post)).posts[post].phase;
              && phase in {Reserving, Reused}
              && (phase == Reserving <==> forall d :: d in s.posts[post].phase.listed ==> d in s.terminated)
  {
    if Can(s, Decide(post)) {
      var listed := s.posts[post].phase.listed;
      assert forall d :: d in listed.Keys - s.terminated <==> d in listed && d !in s.terminated;
    }
  }

  // ---------------------------------------------------------------- what a listing says

  // A listed connection is one of the id's, and over if it was over when it was listed; and only listed
  // connections are refreshed.
  ghost predicate Honest(s: State) {
    && (forall p, c :: s.HasRefreshed(p, c) ==> c in s.posts[p].phase.listed)
    && forall p, c :: p in s.posts && s.posts[p].phase.Asking? && c in s.posts[p].phase.listed ==>
      && c in s.held && s.held[c].globalId == s.posts[p].globalId
      && (s.posts[p].phase.listed[c] ==> Over(s.held[c].lifecycleState))
  }

  lemma HonestStays(s: State, e: Event)
    requires Honest(s) && Can(s, e)
    ensures Honest(Do(s, e))
  {
  }

  lemma NothingBecomesLive(s: State, e: Event, c: string, g: string)
    requires Can(s, e) && Do(s, e).Live(c, g)
    ensures s.Live(c, g)
         || (e.Grant? && c == e.connectionId && s.Undecided(e.post, g) && s.posts[e.post].phase.Reserving?)
  {
  }

  lemma UndecidedBefore(s: State, e: Event, p: nat, g: string)
    requires Can(s, e) && Do(s, e).Undecided(p, g)
    ensures s.Undecided(p, g) || e == Ask(p, g)
  {
  }

  // The store is marked TERMINATED for something live only by a terminate task.
  lemma OnlyTerminateMarksLive(s: State, e: Event, c: string, g: string)
    requires Honest(s) && Can(s, e) && s.Live(c, g) && c in Do(s, e).terminated
    ensures c in s.terminated || e == TerminateWrites(c)
  {
  }

  // A refresh of something live stores that it is not TERMINATED.
  lemma RefreshUnmarksLive(s: State, p: nat, c: string, g: string)
    requires Honest(s) && Can(s, Refresh(p, c)) && s.Live(c, g)
    ensures c !in Do(s, Refresh(p, c)).terminated
  {
  }

  // ---------------------------------------------------------------- one live reservation per id

  ghost predicate OneLive(s: State) {
    forall c, d, g :: s.Live(c, g) && s.Live(d, g) ==> c == d
  }

  // Post p will find c, if it is still live: it was listed, and once refreshed it stays unmarked.
  ghost predicate WillFind(s: State, p: nat, c: string)
    requires p in s.posts && s.posts[p].phase.Asking?
  {
    c in s.posts[p].phase.listed && (c in s.posts[p].phase.refreshed ==> c !in s.terminated)
  }

  // While a post asks, it will find everything live under its id; once it reserves, nothing is live.
  ghost predicate Informed(s: State, p: nat, g: string)
    requires s.Undecided(p, g)
  {
    forall c :: s.Live(c, g) ==> s.posts[p].phase.Asking? && WillFind(s, p, c)
  }

  // Under each id at most one post is undecided, and what it knows is right.
  ghost predicate Orderly(s: State) {
    && (forall p, q, g :: s.Undecided(p, g) && s.Undecided(q, g) ==> p == q)
    && (forall p, g :: s.Undecided(p, g) ==> Informed(s, p, g))
  }

  lemma WillFindStays(s: State, e: Event, p: nat, g: string, c: string)
    requires Honest(s) && Can(s, e) && Spares(s, e) && s.Undecided(p, g) && s.posts[p].phase.Asking?
    requires Do(s, e).Undecided(p, g) && s.Live(c, g) && WillFind(s, p, c)
    ensures Do(s, e).posts[p].phase.Asking? && WillFind(Do(s, e), p, c)
  {
    var s' := Do(s, e);
    if e == Decide(p) {
      assert c in s.posts[p].phase.listed.Keys - s.terminated;
    }
    if c in s'.terminated {
      OnlyTerminateMarksLive(s, e, c, g);
      if e == Refresh(p, c) { RefreshUnmarksLive(s, p, c, g); }
      assert e == TerminateWrites(c) ==> !s.HasRefreshed(p, c);
    }
  }

  lemma InformedStays(s: State, e: Event, p: nat, g: string)
    requires Honest(s) && Orderly(s) && Can(s, e) && Follows(s, e, Careful) && Do(s, e).Undecided(p, g)
    ensures Informed(Do(s, e), p, g)
  {
    var s' := Do(s, e);
    UndecidedBefore(s, e, p, g);
    forall c | s'.Live(c, g) ensures s'.posts[p].phase.Asking? && WillFind(s', p, c) {
      NothingBecomesLive(s, e, c, g);
      if s.Live(c, g) && s.Undecided(p, g) {
        assert Informed(s, p, g);
        WillFindStays(s, e, p, g, c);
      }
    }
  }

  lemma StepKeeps(s: State, e: Event)
    requires OneLive(s) && Honest(s) && Orderly(s) && Can(s, e) && Follows(s, e, Careful)
    ensures OneLive(Do(s, e)) && Orderly(Do(s, e))
  {
    var s' := Do(s, e);
    forall c, d, g | s'.Live(c, g) && s'.Live(d, g) ensures c == d {
      NothingBecomesLive(s, e, c, g);
      NothingBecomesLive(s, e, d, g);
      if e.Grant? && s.Undecided(e.post, g) && s.posts[e.post].phase.Reserving? {
        assert Informed(s, e.post, g);
      }
    }
    forall p, q, g | s'.Undecided(p, g) && s'.Undecided(q, g) ensures p == q {
      UndecidedBefore(s, e, p, g);
      UndecidedBefore(s, e, q, g);
    }
    forall p, g | s'.Undecided(p, g) ensures Informed(s', p, g) {
      InformedStays(s, e, p, g);
    }
  }

  // Exactly the careful steps keep order.
  lemma StepKeepsOrderIff(s: State, e: Event)
    requires OneLive(s) && Honest(s) && Orderly(s) && Can(s, e)
    ensures OneLive(Do(s, e)) && Orderly(Do(s, e)) <==> Alone(s, e) && Spares(s, e)
  {
    var s' := Do(s, e);
    if Follows(s, e, Careful) {
      StepKeeps(s, e);
    } else if !Alone(s, e) {
      var p :| s.Undecided(p, e.globalId);
      assert s'.Undecided(p, e.globalId) && s'.Undecided(e.post, e.globalId);
    } else {
      var p, g :| s.Live(e.connectionId, g) && s.HasRefreshed(p, e.connectionId);
      RefreshedIsOwn(s, e, p, g);
    }
  }

  // A terminate task that marks what an asking post has refreshed hides it from that post.
  lemma RefreshedIsOwn(s: State, e: Event, p: nat, g: string)
    requires Honest(s) && Can(s, e) && e.TerminateWrites? && s.Live(e.connectionId, g)
    requires s.HasRefreshed(p, e.connectionId)
    ensures !Orderly(Do(s, e))
  {
    var s' := Do(s, e);
    assert s'.Live(e.connectionId, g) && s'.Undecided(p, g);
    assert !Informed(s', p, g);
  }

  lemma {:induction false} RunKeeps(s: State, events: seq<Event>)
    requires OneLive(s) && Honest(s) && Orderly(s) && Runs(s, events, Careful) && Runs(s, events, Any)
    ensures OneLive(After(s, events)) && Orderly(After(s, events))
    decreases |events|
  {
    if events != [] {
      StepKeeps(s, events[0]);
      HonestStays(s, events[0]);
      RunKeeps(Do(s, events[0]), events[1..]);
    }
  }

  // ---------------------------------------------------------------- and when that fails

  // Some careful continuation leaves two reservations live under one id.
  ghost predicate CanDouble(s: State) {
    exists events :: Doubles(s, events)
  }

  ghost predicate Doubles(s: State, events: seq<Event>) {
    Runs(s, events, Careful) && Runs(s, events, Any) && !OneLive(After(s, events))
  }

  lemma DoubleLater(s: State, e: Event)
    requires Can(s, e) && Follows(s, e, Careful) && CanDouble(Do(s, e))
    ensures CanDouble(s)
  {
    var events :| Doubles(Do(s, e), events);
    var all := [e] + events;
    assert all[0] == e && all[1..] == events;
    assert Doubles(s, all);
  }

  lemma {:induction false} DoubleAfter(s: State, events: seq<Event>)
    requires Runs(s, events, Careful) && Runs(s, events, Any) && CanDouble(After(s, events))
    ensures CanDouble(s)
    decreases |events|
  {
    if events != [] {
      DoubleAfter(Do(s, events[0]), events[1..]);
      DoubleLater(s, events[0]);
    }
  }

  lemma DoubleNow(s: State, c: string, d: string, g: string)
    requires c != d && s.Live(c, g) && s.Live(d, g)
    ensures CanDouble(s)
  {
    assert After(s, []) == s;
    assert Doubles(s, []);
  }

  // A post that reserves while another reservation is live doubles it.
  lemma ReservingBesideLive(s: State, p: nat, c: string, g: string)
    requires s.Undecided(p, g) && s.posts[p].phase.Reserving? && s.Live(c, g)
    ensures CanDouble(s)
  {
    var d := FreshId(s.held.Keys);
    DoubleNow(Do(s, Grant(p, d)), c, d, g);
    DoubleLater(s, Grant(p, d));
  }

  // Of two posts that reserve, each gets one.
  lemma BothReserving(s: State, p: nat, q: nat, g: string)
    requires p != q && s.Undecided(p, g) && s.posts[p].phase.Reserving?
    requires s.Undecided(q, g) && s.posts[q].phase.Reserving?
    ensures CanDouble(s)
  {
    var c := FreshId(s.held.Keys);
    ReservingBesideLive(Do(s, Grant(p, c)), q, c, g);
    DoubleLater(s, Grant(p, c));
  }

  // Everything live that post p asked about has been refreshed and is marked TERMINATED.
  ghost predicate Blind(s: State, p: nat, g: string) {
    && s.Undecided(p, g) && s.posts[p].phase.Asking?
    && forall c <- s.posts[p].phase.listed :: s.Live(c, g) ==> s.HasRefreshed(p, c) && c in s.terminated
  }

  // What p still has to refresh, and what it would still reuse.
  ghost function ToRefresh(s: State, p: nat): set<string>
    requires p in s.posts && s.posts[p].phase.Asking?
  {
    s.posts[p].phase.listed.Keys - s.posts[p].phase.refreshed
  }

  ghost function Usable(s: State, p: nat): set<string>
    requires p in s.posts && s.posts[p].phase.Asking?
  {
    s.posts[p].phase.listed.Keys - s.terminated
  }

  // s' differs from s in what post p has decided and in what is stored, no more.
  ghost predicate Decided(s: State, s': State, p: nat, g: string) {
    s'.held == s.held && s'.posts == s.posts[p := Post(g, Reserving)]
  }

  // A blind post comes to reserve: what is left to refresh or to reuse is over, and its end is stored.
  lemma {:induction false} BlindReserves(s: State, p: nat, g: string) returns (events: seq<Event>)
    requires Honest(s) && Blind(s, p, g)
    ensures Runs(s, events, Careful) && Runs(s, events, Any) && Decided(s, After(s, events), p, g)
    decreases |ToRefresh(s, p)|, |Usable(s, p)|
  {
    hide Alone, Spares, Honest, State.Live, ToRefresh, Usable;
    var e := BlindStep(s, p, g);
    if e == Decide(p) {
      events := [e];
      assert events[1..] == [] && After(Do(s, e), []) == Do(s, e);
    } else {
      HonestStays(s, e);
      var rest := BlindReserves(Do(s, e), p, g);
      events := [e] + rest;
      assert events[1..] == rest;
      assert s.posts[p := Post(g, Reserving)] == Do(s, e).posts[p := Post(g, Reserving)];
    }
  }

  // One step on the way there.
  ghost predicate Closer(s: State, s': State, p: nat, g: string) {
    && Blind(s, p, g) && Blind(s', p, g)
    && s'.held == s.held && s'.posts == s.posts[p := s'.posts[p]]
    && (|ToRefresh(s', p)| < |ToRefresh(s, p)|
        || (ToRefresh(s', p) == ToRefresh(s, p) && |Usable(s', p)| < |Usable(s, p)|))
  }

  lemma BlindStep(s: State, p: nat, g: string) returns (e: Event)
    requires Honest(s) && Blind(s, p, g)
    ensures Can(s, e) && Follows(s, e, Careful)
    ensures if e == Decide(p) then Decided(s, Do(s, e), p, g) else Closer(s, Do(s, e), p, g)
  {
    if c :| c in ToRefresh(s, p) {
      e := Refresh(p, c);
      RefreshesBlindly(s, p, c, g);
    } else if c :| c in Usable(s, p) {
      e := Write(c, true);
      WritesBlindly(s, p, c, g);
    } else {
      e := Decide(p);
      assert s.posts[p].phase.listed.Keys - s.terminated == {};
    }
  }

  lemma Removed(a: set<string>, b: set<string>, c: string)
    requires c in a && b == a - {c}
    ensures |b| < |a|
  {
    assert a == b + {c};
  }

  lemma RefreshesBlindly(s: State, p: nat, c: string, g: string)
    requires Honest(s) && Blind(s, p, g) && c in ToRefresh(s, p)
    ensures Can(s, Refresh(p, c)) && Closer(s, Do(s, Refresh(p, c)), p, g)
  {
    var s' := Do(s, Refresh(p, c));
    assert !s.Live(c, g);
    forall d | d in s'.posts[p].phase.listed && s'.Live(d, g)
      ensures s'.HasRefreshed(p, d) && d in s'.terminated
    {
      assert s.Live(d, g);
    }
    Removed(ToRefresh(s, p), ToRefresh(s', p), c);
  }

  lemma WritesBlindly(s: State, p: nat, c: string, g: string)
    requires Honest(s) && Blind(s, p, g) && c in Usable(s, p)
    ensures Can(s, Write(c, true)) && Closer(s, Do(s, Write(c, true)), p, g)
  {
    var s' := Do(s, Write(c, true));
    assert !s.Live(c, g);
    forall d | d in s'.posts[p].phase.listed && s'.Live(d, g)
      ensures s'.HasRefreshed(p, d) && d in s'.terminated
    {
      assert s.Live(d, g);
    }
    Removed(Usable(s, p), Usable(s', p), c);
  }

  lemma NothingLiveDoubles(s: State, p: nat, q: nat, g: string)
    requires Honest(s) && p != q && s.Undecided(p, g) && s.Undecided(q, g) && forall c :: !s.Live(c, g)
    ensures CanDouble(s)
    decreases (if s.posts[p].phase.Asking? then 1 else 0) + (if s.posts[q].phase.Asking? then 1 else 0)
  {
    if s.posts[p].phase.Reserving? && s.posts[q].phase.Reserving? {
      BothReserving(s, p, q, g);
    } else {
      var r := if s.posts[p].phase.Asking? then p else q;
      var events := BlindReserves(s, r, g);
      var s' := After(s, events);
      HonestAlways(s, events);
      forall c ensures !s'.Live(c, g) { assert !s.Live(c, g); }
      NothingLiveDoubles(s', p, q, g);
      DoubleAfter(s, events);
    }
  }

  lemma {:induction false} HonestAlways(s: State, events: seq<Event>)
    requires Honest(s) && Runs(s, events, Any)
    ensures Honest(After(s, events))
    decreases |events|
  {
    if events != [] {
      HonestStays(s, events[0]);
      HonestAlways(Do(s, events[0]), events[1..]);
    }
  }

  // Two posts undecided under one id, in any state: what was live ends, both decide, both are granted.
  lemma OverlapReservesTwice(s: State, p: nat, q: nat, g: string)
    requires OneLive(s) && Honest(s) && p != q && s.Undecided(p, g) && s.Undecided(q, g)
    ensures CanDouble(s)
  {
    if c :| s.Live(c, g) {
      var e := Evolve(c, "Terminated");
      var s' := Do(s, e);
      HonestStays(s, e);
      forall d ensures !s'.Live(d, g) {
        if s'.Live(d, g) { NothingBecomesLive(s, e, d, g); }
      }
      NothingLiveDoubles(s', p, q, g);
      DoubleLater(s, e);
    } else {
      NothingLiveDoubles(s, p, q, g);
    }
  }

  // A post that will not find what is live reserves beside it.
  lemma MisinformedReservesTwice(s: State, p: nat, g: string)
    requires OneLive(s) && Honest(s) && s.Undecided(p, g) && !Informed(s, p, g)
    ensures CanDouble(s)
  {
    var c :| s.Live(c, g) && !(s.posts[p].phase.Asking? && WillFind(s, p, c));
    if s.posts[p].phase.Reserving? {
      ReservingBesideLive(s, p, c, g);
    } else {
      var events := BlindReserves(s, p, g);
      ReservingBesideLive(After(s, events), p, c, g);
      DoubleAfter(s, events);
    }
  }

  // An accepted DELETE that goes unanswered is enough, with no overlapping posts at all: its timeout
  // marks as TERMINATED what the aggregator still holds live, after a post has refreshed it.
  lemma UnansweredTerminateReservesTwice(s: State, p: nat, c: string, g: string)
    requires OneLive(s) && Honest(s) && s.Undecided(p, g) && s.HasRefreshed(p, c) && s.Live(c, g)
    ensures CanDouble(Do(s, TerminateWrites(c)))
  {
    var s' := Do(s, TerminateWrites(c));
    HonestStays(s, TerminateWrites(c));
    forall d, e, h | s'.Live(d, h) && s'.Live(e, h) ensures d == e {
      assert s.Live(d, h) && s.Live(e, h);
    }
    assert s'.Live(c, g) && !WillFind(s', p, c);
    assert !Informed(s', p, g);
    MisinformedReservesTwice(s', p, g);
  }

  // If posts begin alone and terminates spare what is refreshed in this continuation, at most one
  // reservation per id is live after it.
  ghost predicate StaysOneLive(s: State, events: seq<Event>) {
    Runs(s, events, Careful) ==> Runs(s, events, Any) && OneLive(After(s, events))
  }

  // From any state with at most one live reservation per id: it stays so in every continuation by careful
  // steps exactly if no two posts are undecided under one id already, each undecided one that asks will
  // find what is live, and nothing is live beside one that reserves.
  lemma StaysOneLiveIff(s: State)
    requires OneLive(s) && Honest(s)
    ensures (forall events :: StaysOneLive(s, events)) <==> Orderly(s)
  {
    if Orderly(s) {
      forall events ensures StaysOneLive(s, events) {
        if Runs(s, events, Careful) {
          IsRun(s, events, Careful);
          RunKeeps(s, events);
        }
      }
    } else {
      if p, q, g :| s.Undecided(p, g) && s.Undecided(q, g) && p != q {
        OverlapReservesTwice(s, p, q, g);
      } else {
        var p, g :| s.Undecided(p, g) && !Informed(s, p, g);
        MisinformedReservesTwice(s, p, g);
      }
      var events :| Doubles(s, events);
      assert !StaysOneLive(s, events);
    }
  }

  // From a proxy with no post under way, careful steps never reserve an id twice.
  lemma AtMostOneLive(s: State, events: seq<Event>)
    requires OneLive(s) && s.posts == map[] && Runs(s, events, Careful)
    ensures Runs(s, events, Any) && OneLive(After(s, events))
  {
    StaysOneLiveIff(s);
    assert StaysOneLive(s, events);
  }

  // ---------------------------------------------------------------- a reuse sends nothing

  // If a reservation is live when a post asks and still at the end, and no terminate task marked a live
  // connection between its refresh and the decision, that post has sent no reserve, whatever overlaps it.
  lemma LiveMeansReuse(s: State, p: nat, c: string, g: string, events: seq<Event>)
    requires Honest(s) && Can(s, Ask(p, g)) && s.Live(c, g)
    requires Runs(Do(s, Ask(p, g)), events, Sparing) && Runs(Do(s, Ask(p, g)), events, Any)
    requires forall h :: Ask(p, h) !in events
    requires After(Do(s, Ask(p, g)), events).Live(c, g)
    ensures var last := After(Do(s, Ask(p, g)), events);
            p in last.posts ==> last.posts[p].phase.Asking? || last.posts[p].phase.Reused?
  {
    HonestStays(s, Ask(p, g));
    StaysAway(Do(s, Ask(p, g)), p, c, g, events);
  }

  ghost predicate Away(s: State, p: nat, c: string, g: string) {
    p in s.posts ==>
      (s.posts[p].globalId == g
        && (s.posts[p].phase.Reused? || (s.posts[p].phase.Asking? && WillFind(s, p, c))))
  }

  lemma AwayStays(s: State, e: Event, p: nat, c: string, g: string)
    requires Honest(s) && Can(s, e) && Spares(s, e) && Away(s, p, c, g) && s.Live(c, g)
    requires forall h :: e != Ask(p, h)
    ensures Away(Do(s, e), p, c, g)
  {
    var s' := Do(s, e);
    if p in s'.posts && s.Undecided(p, g) && s'.Undecided(p, g) {
      WillFindStays(s, e, p, g, c);
    } else if e == Decide(p) {
      assert c in s.posts[p].phase.listed.Keys - s.terminated;
    }
  }

  lemma {:induction false} StaysAway(s: State, p: nat, c: string, g: string, events: seq<Event>)
    requires Honest(s) && Away(s, p, c, g) && Runs(s, events, Sparing) && Runs(s, events, Any)
    requires After(s, events).Live(c, g) && c in s.held && forall h :: Ask(p, h) !in events
    ensures Away(After(s, events), p, c, g)
    decreases |events|
  {
    if events != [] {
      var e := events[0];
      assert e in events && forall x :: x in events[1..] ==> x in events;
      LiveBefore(s, c, g, events);
      AwayStays(s, e, p, c, g);
      HonestStays(s, e);
      StaysAway(Do(s, e), p, c, g, events[1..]);
    }
  }

  // What is live at the end and existed before was live before.
  lemma {:induction false} LiveBefore(s: State, c: string, g: string, events: seq<Event>)
    requires Runs(s, events, Any) && After(s, events).Live(c, g) && c in s.held
    ensures s.Live(c, g)
    decreases |events|
  {
    if events != [] {
      LiveBefore(Do(s, events[0]), c, g, events[1..]);
      NothingBecomesLive(s, events[0], c, g);
    }
  }
}
