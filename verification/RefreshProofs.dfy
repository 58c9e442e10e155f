/** What a refresh preserves: the shortcut's meaning, independence from the prior store and from the
    order in which gathered resolutions complete, and the bookkeeping of error events. */
module RefreshProofs {
  import opened Messages
  import opened StateMapping
  import opened StoreModel
  import opened ExceptionTrees
  import opened Refresh

  // ---------------------------------------------------------------- the shortcut of refresh-all

  // Skipping the notification and result queries is right for a connection exactly when its states
  // are terminal: otherwise some history would have changed its status.
  lemma ShortcutIsExact(settings: Settings, qr: QueryReservation)
    ensures (forall n, results, now ::
               Resolved(qr, n, results, now).Derived(settings) == Shortcut(qr).Derived(settings))
      <==> Shortcut(qr).Possible()
  {
    if !Shortcut(qr).Possible() {
      var event: ErrorNotice := ErrorEvent("", 0, "", "", "", "", None);
      var n := Notifications([event], []);
      assert Resolved(qr, n, [], 0).Derived(settings).status == FAILED;
    }
  }

  // The shortcut keeps the status but not the error text: what the store ends with differs from the
  // full resolution only in lastError and the seen ids. They agree entirely exactly when there is no
  // error event, or the events were already known and their newest is the FAILED connection's error.
  lemma ShortcutLosesOnlyErrors(settings: Settings, s: StoreState, qr: QueryReservation, n: Notifications,
                                results: seq<OperationResult>, now: int)
    requires Shortcut(qr).Possible()
    ensures var short, full := Apply(settings, s, Shortcut(qr)), Apply(settings, s, Resolved(qr, n, results, now));
      var a, b := short.reservations[qr.connectionId], full.reservations[qr.connectionId];
      && b == a.(lastError := b.lastError, seenErrorIds := b.seenErrorIds)
      && full.reservations == short.reservations[qr.connectionId := b]
      && (short == full <==>
            || n.errorEvents == []
            || (a.status == FAILED
                && a.lastError == Some(ErrorReason(NewestEvent(n.errorEvents)))
                && a.seenErrorIds.Some? && EventIds(n.errorEvents) <= a.seenErrorIds.value))
  {
    ShortcutIsExact(settings, qr);
    assert Resolved(qr, n, results, now).Derived(settings) == Shortcut(qr).Derived(settings);
    var short, full := Apply(settings, s, Shortcut(qr)), Apply(settings, s, Resolved(qr, n, results, now));
    var a, b := short.reservations[qr.connectionId], full.reservations[qr.connectionId];
    assert full.reservations == short.reservations[qr.connectionId := b];
    assert short == full <==> a == b;
    if a.seenErrorIds.Some? {
      assert EventIds(n.errorEvents) <= a.seenErrorIds.value
        <==> a.seenErrorIds.value + EventIds(n.errorEvents) == a.seenErrorIds.value;
    }
  }

  // ---------------------------------------------------------------- gathered resolutions

  ghost predicate DistinctConnections(answers: seq<Answer>) {
    forall i, j :: 0 <= i < j < |answers| ==> answers[i].qr.connectionId != answers[j].qr.connectionId
  }

  ghost predicate Lists(answers: seq<Answer>, connectionId: string) {
    exists a :: a in answers && a.qr.connectionId == connectionId
  }

  function RefreshedBy(settings: Settings, existing: Option<Reservation>, a: Answer): Reservation {
    Refreshed(existing, a.qr, a.Derived(settings), a.Events())
  }

  // What all resolutions together leave behind, entry by entry and without an order.
  lemma {:induction false} UnlistedEntryKept(settings: Settings, s: StoreState, answers: seq<Answer>, c: string)
    requires !Lists(answers, c)
    ensures var t := ApplyAll(settings, s, answers);
            t == s.(reservations := t.reservations) && Stored(t, c) == Stored(s, c)
    decreases |answers|
  {
    if answers != [] {
      assert answers[0] in answers;
      forall a | a in answers[1..] ensures a.qr.connectionId != c { assert a in answers; }
      UnlistedEntryKept(settings, Apply(settings, s, answers[0]), answers[1..], c);
    }
  }

  lemma {:induction false} ListedEntryRefreshed(settings: Settings, s: StoreState, answers: seq<Answer>, i: nat)
    requires DistinctConnections(answers) && i < |answers|
    ensures var c := answers[i].qr.connectionId;
            Stored(ApplyAll(settings, s, answers), c) == Some(RefreshedBy(settings, Stored(s, c), answers[i]))
    decreases |answers|
  {
    var c := answers[i].qr.connectionId;
    var s1 := Apply(settings, s, answers[0]);
    if i == 0 {
      forall a | a in answers[1..] ensures a.qr.connectionId != c {}
      UnlistedEntryKept(settings, s1, answers[1..], c);
    } else {
      ListedEntryRefreshed(settings, s1, answers[1..], i - 1);
      assert Stored(s1, c) == Stored(s, c);
    }
  }

  lemma {:induction false} OnlyReservationsChange(settings: Settings, s: StoreState, answers: seq<Answer>)
    ensures var t := ApplyAll(settings, s, answers); t == s.(reservations := t.reservations)
    decreases |answers|
  {
    if answers != [] {
      OnlyReservationsChange(settings, Apply(settings, s, answers[0]), answers[1..]);
    }
  }

  lemma SameEntriesSameStore(t: StoreState, u: StoreState)
    requires t == u.(reservations := t.reservations)
    requires forall c :: Stored(t, c) == Stored(u, c)
    ensures t == u
  {
    forall c ensures c in t.reservations <==> c in u.reservations {
      assert Stored(t, c) == Stored(u, c);
    }
    forall c | c in t.reservations ensures t.reservations[c] == u.reservations[c] {
      assert Stored(t, c) == Stored(u, c);
    }
    assert t.reservations == u.reservations;
  }

  // Any interleaving of the gathered resolutions ends in the same store.
  lemma GatherOrderIrrelevant(settings: Settings, s: StoreState, answers: seq<Answer>, reordered: seq<Answer>)
    requires DistinctConnections(answers) && DistinctConnections(reordered)
    requires forall a :: a in answers <==> a in reordered
    ensures ApplyAll(settings, s, answers) == ApplyAll(settings, s, reordered)
  {
    var t, u := ApplyAll(settings, s, answers), ApplyAll(settings, s, reordered);
    forall c ensures Stored(t, c) == Stored(u, c) {
      if Lists(answers, c) {
        var a :| a in answers && a.qr.connectionId == c;
        var i :| 0 <= i < |answers| && answers[i] == a;
        var j :| 0 <= j < |reordered| && reordered[j] == a;
        ListedEntryRefreshed(settings, s, answers, i);
        ListedEntryRefreshed(settings, s, reordered, j);
      } else {
        UnlistedEntryKept(settings, s, answers, c);
        UnlistedEntryKept(settings, s, reordered, c);
      }
    }
    OnlyReservationsChange(settings, s, answers);
    OnlyReservationsChange(settings, s, reordered);
    SameEntriesSameStore(t, u);
  }

  // After a refresh a listed connection's status is a function of the aggregator's answer and the
  // clock alone: two proxies with any two stores, one of them empty after a restart, agree.
  lemma RestartIndependence(settings: Settings, before: StoreState, other: StoreState, answers: seq<Answer>, i: nat)
    requires DistinctConnections(answers) && i < |answers|
    ensures var c := answers[i].qr.connectionId;
            var t, u := ApplyAll(settings, before, answers), ApplyAll(settings, other, answers);
      && c in t.reservations && c in u.reservations
      && t.reservations[c].status == u.reservations[c].status == answers[i].Derived(settings).status
  {
    ListedEntryRefreshed(settings, before, answers, i);
    ListedEntryRefreshed(settings, other, answers, i);
  }

  lemma RefreshedTwice(settings: Settings, existing: Option<Reservation>, a: Answer)
    ensures var once := RefreshedBy(settings, existing, a);
            RefreshedBy(settings, Some(once), a) == once
  {
    var events := a.Events();
    if events != [] {
      var once := RecordSeen(if existing.Some? then existing.value.seenErrorIds else None, events);
      assert once.value + EventIds(events) == once.value;
    }
  }

  // Repeating the same refresh changes nothing further.
  lemma RefreshIsIdempotent(settings: Settings, s: StoreState, answers: seq<Answer>)
    requires DistinctConnections(answers)
    ensures var t := ApplyAll(settings, s, answers);
            ApplyAll(settings, t, answers) == t
  {
    var t := ApplyAll(settings, s, answers);
    var u := ApplyAll(settings, t, answers);
    forall c ensures Stored(u, c) == Stored(t, c) {
      if Lists(answers, c) {
        var a :| a in answers && a.qr.connectionId == c;
        var i :| 0 <= i < |answers| && answers[i] == a;
        ListedEntryRefreshed(settings, s, answers, i);
        ListedEntryRefreshed(settings, t, answers, i);
        RefreshedTwice(settings, Stored(s, c), a);
      } else {
        UnlistedEntryKept(settings, t, answers, c);
      }
    }
    OnlyReservationsChange(settings, t, answers);
    SameEntriesSameStore(u, t);
  }

  ghost predicate SameIdentity(r: Reservation, r': Reservation) {
    && r'.connectionId == r.connectionId && r'.globalReservationId == r.globalReservationId
    && r'.description == r.description && r'.requesterNsa == r.requesterNsa && r'.callbackUrl == r.callbackUrl
  }

  // A refresh owns the status, the error and the criteria; identity and delivery are not its business,
  // and what it has learned (criteria, seen events) it does not forget.
  lemma RefreshKeepsIdentity(settings: Settings, s: StoreState, answers: seq<Answer>, c: string)
    requires DistinctConnections(answers) && c in s.reservations
    ensures c in ApplyAll(settings, s, answers).reservations
    ensures var r, r' := s.reservations[c], ApplyAll(settings, s, answers).reservations[c];
      && SameIdentity(r, r')
      && (r.criteria.Some? ==> r'.criteria.Some?)
      && (r.seenErrorIds.Some? ==> r'.seenErrorIds.Some? && r.seenErrorIds.value <= r'.seenErrorIds.value)
  {
    var t := ApplyAll(settings, s, answers);
    if Lists(answers, c) {
      var a :| a in answers && a.qr.connectionId == c;
      var i :| 0 <= i < |answers| && answers[i] == a;
      ListedEntryRefreshed(settings, s, answers, i);
    } else {
      UnlistedEntryKept(settings, s, answers, c);
    }
    assert Stored(t, c).Some?;
  }

  // A refresh finds a connection terminated iff the aggregator reports its life as over, whatever else
  // it reports.
  lemma TerminatedIffOver(settings: Settings, answer: Answer)
    ensures answer.Derived(settings).status == TERMINATED <==> Over(answer.qr.connectionStates.lifecycleState)
  {
    match answer
    case Shortcut(qr) =>
    case Resolved(qr, notifications, results, now) =>
      var base := MapNsiStates(qr.connectionStates, notifications.errorEvents != []);
      assert base == TERMINATED <==> Over(qr.connectionStates.lifecycleState);
  }

  // ---------------------------------------------------------------- errors and their status

  // The newest event decides the text: no other event has a greater id.
  lemma {:induction false} NewestEventIsNewest(events: seq<ErrorNotice>)
    requires events != []
    ensures NewestEvent(events) in events
    ensures forall e :: e in events ==> e.notificationId <= NewestEvent(events).notificationId
  {
    var front := events[..|events| - 1];
    assert events == front + [events[|events| - 1]];
    if |events| > 1 { NewestEventIsNewest(front); }
  }

  // A refresh never leaves an error on a reservation that is neither FAILED nor TERMINATED.
  lemma RefreshedErrorMeansFailed(settings: Settings, existing: Option<Reservation>, a: Answer)
    ensures RefreshedBy(settings, existing, a).lastError.Some?
        ==> IsTerminal(RefreshedBy(settings, existing, a).status)
  {
    if a.Events() != [] {
      assert IsTerminal(a.Derived(settings).status);
    }
  }

  // ---------------------------------------------------------------- error-event bookkeeping

  function SeenIds(seen: Option<set<int>>): set<int> {
    if seen.Some? then seen.value else {}
  }

  // The seen set after refreshing one reservation with these batches of events, in order.
  function SeenAfter(seen: Option<set<int>>, batches: seq<seq<ErrorNotice>>): Option<set<int>> {
    if batches == [] then seen
    else RecordSeen(SeenAfter(seen, batches[..|batches| - 1]), batches[|batches| - 1])
  }

  // The ids announced as new by refresh k.
  function AnnouncedAt(seen: Option<set<int>>, batches: seq<seq<ErrorNotice>>, k: nat): set<int>
    requires k < |batches|
  {
    EventIds(batches[k]) - SeenIds(SeenAfter(seen, batches[..k]))
  }

  lemma {:induction false} SeenIsUnion(seen: Option<set<int>>, batches: seq<seq<ErrorNotice>>, id: int)
    ensures id in SeenIds(SeenAfter(seen, batches))
      <==> id in SeenIds(seen) || exists k :: 0 <= k < |batches| && id in EventIds(batches[k])
    decreases |batches|
  {
    if batches != [] {
      var n := |batches| - 1;
      SeenIsUnion(seen, batches[..n], id);
      if id in EventIds(batches[n]) {
        assert exists k :: 0 <= k < |batches| && id in EventIds(batches[k]);
      }
      forall k | 0 <= k < |batches| && id in EventIds(batches[k])
        ensures k == n || (k < n && id in EventIds(batches[..n][k])) {}
    }
  }

  // Over any sequence of refreshes every reported id that was not known before is announced in
  // exactly one of them: the first that reports it.
  lemma AnnouncedExactlyOnce(seen: Option<set<int>>, batches: seq<seq<ErrorNotice>>, i: nat, id: int)
    requires i < |batches|
    ensures id in AnnouncedAt(seen, batches, i)
      <==> id in EventIds(batches[i]) && id !in SeenIds(seen) && forall k :: 0 <= k < i ==> id !in EventIds(batches[k])
    ensures forall j :: i < j < |batches| && id in AnnouncedAt(seen, batches, i) ==>
              id !in AnnouncedAt(seen, batches, j)
  {
    SeenIsUnion(seen, batches[..i], id);
    assert forall k :: 0 <= k < i ==> batches[..i][k] == batches[k];
    forall j | i < j < |batches| && id in AnnouncedAt(seen, batches, i)
      ensures id !in AnnouncedAt(seen, batches, j)
    {
      SeenIsUnion(seen, batches[..j], id);
      assert batches[..j][i] == batches[i];
    }
  }
}
