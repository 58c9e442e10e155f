/** What the derived status depends on, and when a transient status converges.

    The derivation reads an operation history through a maximum over (resultId, timestamp) and an
    existential over data-plane changes. These lemmas say that order, repetition, foreign operations,
    superseded results and stale changes cannot influence it, and bound exactly when it leaves
    ACTIVATING and DEACTIVATING. */
module HistoryProofs {
  import opened Messages
  import opened StateMapping

  // ---------------------------------------------------------------- the order on keys

  lemma {:induction false} StringLessTransitive(a: string, b: string, c: string)
    requires StringLess(a, b) && StringLess(b, c)
    ensures StringLess(a, c)
  {
    if |a| > 0 && a[0] == b[0] && b[0] == c[0] {
      StringLessTransitive(a[1..], b[1..], c[1..]);
    }
  }

  lemma {:induction false} StringLessTotal(a: string, b: string)
    ensures !StringLess(a, b) && !StringLess(b, a) ==> a == b
    ensures !(StringLess(a, b) && StringLess(b, a))
  {
    if |a| > 0 && |b| > 0 && a[0] == b[0] {
      StringLessTotal(a[1..], b[1..]);
      if a[1..] == b[1..] {
        assert a == [a[0]] + a[1..] && b == [b[0]] + b[1..];
      }
    }
  }

  lemma KeyLessTransitive(a: OperationResult, b: OperationResult, c: OperationResult)
    requires KeyLess(a, b) && KeyLess(b, c)
    ensures KeyLess(a, c)
  {
    if a.resultId == b.resultId == c.resultId {
      StringLessTransitive(a.timestamp, b.timestamp, c.timestamp);
    }
  }

  // The negated key order composes too, because the order on keys is total.
  lemma KeyNotLessChain(a: OperationResult, b: OperationResult, c: OperationResult)
    requires !KeyLess(b, a) && !KeyLess(c, b)
    ensures !KeyLess(c, a)
  {
    if KeyLess(c, a) {
      StringLessTotal(a.timestamp, b.timestamp);
      StringLessTotal(b.timestamp, c.timestamp);
      if KeyLess(a, b) {
        KeyLessTransitive(c, a, b);
      }
    }
  }

  // ---------------------------------------------------------------- the maximum, characterised

  // LatestResult is a member whose key no member exceeds.
  ghost predicate IsLatest(r: OperationResult, results: seq<OperationResult>) {
    r in results && forall x :: x in results ==> !KeyLess(r, x)
  }

  lemma {:induction false} LatestResultIsMaximal(results: seq<OperationResult>)
    requires results != []
    ensures IsLatest(LatestResult(results), results)
  {
    var last := results[|results| - 1];
    var front := results[..|results| - 1];
    assert results == front + [last];
    if |results| == 1 {
      StringLessTotal(last.timestamp, last.timestamp);
    } else {
      LatestResultIsMaximal(front);
      var best := LatestResult(front);
      StringLessTotal(last.timestamp, last.timestamp);
      forall x | x in results ensures !KeyLess(LatestResult(results), x) {
        if x in front && KeyLess(best, last) {
          StringLessTotal(best.timestamp, last.timestamp);
          if KeyLess(last, x) { KeyLessTransitive(best, last, x); }
        }
      }
    }
  }

  // Two maximal results carry the same timestamp text: ties cannot change what is parsed.
  lemma LatestTimestampUnique(r: OperationResult, s: OperationResult, results: seq<OperationResult>,
                              others: seq<OperationResult>)
    requires IsLatest(r, results) && IsLatest(s, others)
    requires r in others && s in results
    ensures r.resultId == s.resultId && r.timestamp == s.timestamp
  {
    StringLessTotal(r.timestamp, s.timestamp);
  }

  lemma {:induction false} ResultsOfMembers(results: seq<OperationResult>, operation: string)
    ensures forall r :: r in ResultsOf(results, operation) <==> r in results && r.operation == operation
  {
    if results != [] {
      ResultsOfMembers(results[1..], operation);
      assert results == [results[0]] + results[1..];
    }
  }

  // The meaning of the lookup, without its order of evaluation: the instant of any result of the
  // operation that no other result of the operation supersedes.
  lemma LatestOperationTimeMeaning(parse: Parser, results: seq<OperationResult>, operation: string,
                                   r: OperationResult)
    requires r in results && r.operation == operation
    requires forall x :: x in results && x.operation == operation ==> !KeyLess(r, x)
    ensures LatestOperationTime(parse, results, operation) == parse(r.timestamp)
  {
    ResultsOfMembers(results, operation);
    var matching := ResultsOf(results, operation);
    LatestResultIsMaximal(matching);
    LatestTimestampUnique(r, LatestResult(matching), matching, matching);
  }

  // ---------------------------------------------------------------- robustness

  lemma EqualKeysEqualTimestamps(r: OperationResult, s: OperationResult)
    requires !KeyLess(r, s) && !KeyLess(s, r)
    ensures r.resultId == s.resultId && r.timestamp == s.timestamp
  {
    StringLessTotal(r.timestamp, s.timestamp);
  }

  // A list whose every member is matched by some member of the other has no greater maximum.
  lemma LatestDominated(mine: seq<OperationResult>, theirs: seq<OperationResult>, r0: OperationResult)
    requires mine != [] && theirs != []
    requires r0 in mine && !KeyLess(r0, LatestResult(theirs))
    ensures !KeyLess(LatestResult(mine), LatestResult(theirs))
  {
    LatestResultIsMaximal(mine);
    KeyNotLessChain(LatestResult(theirs), r0, LatestResult(mine));
  }

  // Everything `results` holds for the operation is matched or superseded in `others`.
  ghost predicate Covered(results: seq<OperationResult>, others: seq<OperationResult>, operation: string) {
    forall r :: r in results && r.operation == operation
      ==> exists s :: s in others && s.operation == operation && !KeyLess(s, r)
  }

  lemma CoveredMaximum(results: seq<OperationResult>, others: seq<OperationResult>, operation: string)
    requires Covered(results, others, operation)
    requires ResultsOf(results, operation) != []
    ensures ResultsOf(others, operation) != []
    ensures !KeyLess(LatestResult(ResultsOf(others, operation)), LatestResult(ResultsOf(results, operation)))
  {
    var mine, theirs := ResultsOf(results, operation), ResultsOf(others, operation);
    ResultsOfMembers(results, operation);
    ResultsOfMembers(others, operation);
    LatestResultIsMaximal(mine);
    var s :| s in others && s.operation == operation && !KeyLess(s, LatestResult(mine));
    assert s in theirs;
    LatestDominated(theirs, mine, s);
  }

  // Two histories that cover each other for an operation give it the same time.
  lemma CoveredBothWays(parse: Parser, results: seq<OperationResult>, others: seq<OperationResult>,
                        operation: string)
    requires Covered(results, others, operation) && Covered(others, results, operation)
    ensures LatestOperationTime(parse, results, operation) == LatestOperationTime(parse, others, operation)
  {
    var mine, theirs := ResultsOf(results, operation), ResultsOf(others, operation);
    if mine != [] {
      CoveredMaximum(results, others, operation);
    }
    if theirs != [] {
      CoveredMaximum(others, results, operation);
      EqualKeysEqualTimestamps(LatestResult(mine), LatestResult(theirs));
    }
  }

  // ---------------------------------------------------------------- what the derivation ignores

  // Changes that could tell the two histories apart are all too old, inactive or unreadable.
  ghost predicate StaleOutside(parse: Parser, changes: seq<DataPlaneChange>, others: seq<DataPlaneChange>, since: int) {
    forall c :: c in changes && c !in others && c.active && parse(c.timestamp).Some?
      ==> parse(c.timestamp).value < since
  }

  lemma ActiveSinceMeaning(parse: Parser, changes: seq<DataPlaneChange>, since: int)
    ensures ActiveSince(parse, changes, since)
      <==> exists c :: c in changes && c.active && parse(c.timestamp).Some? && parse(c.timestamp).value >= since
  {
  }

  // The general form: histories that cover each other, with stale differences in their changes.
  lemma DerivationIgnoresIrrelevantHistory(
    parse: Parser, base: ReservationStatus,
    results: seq<OperationResult>, others: seq<OperationResult>,
    changes: seq<DataPlaneChange>, otherChanges: seq<DataPlaneChange>,
    startTime: Option<string>, now: int, timeout: int)
    requires forall op | op in {"provisionConfirmed", "releaseConfirmed"} ::
               Covered(results, others, op) && Covered(others, results, op)
    requires forall t | LatestOperationTime(parse, results, "provisionConfirmed") == Some(t) ::
               StaleOutside(parse, changes, otherChanges, t) && StaleOutside(parse, otherChanges, changes, t)
    ensures DeriveStatus(parse, base, results, changes, startTime, now, timeout)
         == DeriveStatus(parse, base, others, otherChanges, startTime, now, timeout)
  {
    CoveredBothWays(parse, results, others, "provisionConfirmed");
    CoveredBothWays(parse, results, others, "releaseConfirmed");
    var at := LatestOperationTime(parse, results, "provisionConfirmed");
    if at.Some? {
      ActiveSinceMeaning(parse, changes, at.value);
      ActiveSinceMeaning(parse, otherChanges, at.value);
    }
  }

  lemma CoveredReflexive(results: seq<OperationResult>, others: seq<OperationResult>, operation: string)
    requires forall r :: r in results && r.operation == operation ==> r in others
    ensures Covered(results, others, operation)
  {
    forall r | r in results && r.operation == operation
      ensures exists s :: s in others && s.operation == operation && !KeyLess(s, r)
    {
      StringLessTotal(r.timestamp, r.timestamp);
      assert r in others && r.operation == operation && !KeyLess(r, r);
    }
  }

  // Order and repetition are irrelevant: only the sets of results and of changes matter.
  lemma DerivationReadsSets(
    parse: Parser, base: ReservationStatus,
    results: seq<OperationResult>, others: seq<OperationResult>,
    changes: seq<DataPlaneChange>, otherChanges: seq<DataPlaneChange>,
    startTime: Option<string>, now: int, timeout: int)
    requires forall r :: r in results <==> r in others
    requires forall c :: c in changes <==> c in otherChanges
    ensures DeriveStatus(parse, base, results, changes, startTime, now, timeout)
         == DeriveStatus(parse, base, others, otherChanges, startTime, now, timeout)
  {
    forall op | op in {"provisionConfirmed", "releaseConfirmed"}
      ensures Covered(results, others, op) && Covered(others, results, op)
    {
      CoveredReflexive(results, others, op);
      CoveredReflexive(others, results, op);
    }
    DerivationIgnoresIrrelevantHistory(parse, base, results, others, changes, otherChanges, startTime, now, timeout);
  }

  // A result of another operation, or one with a smaller resultId than a result of its own
  // operation, may be added anywhere; so may a change older than the latest provision.
  lemma DerivationIgnoresNoise(
    parse: Parser, base: ReservationStatus,
    results: seq<OperationResult>, extra: OperationResult, i: nat,
    changes: seq<DataPlaneChange>, stale: DataPlaneChange, j: nat,
    startTime: Option<string>, now: int, timeout: int)
    requires i <= |results| && j <= |changes|
    requires extra.operation !in {"provisionConfirmed", "releaseConfirmed"}
          || exists r :: r in results && r.operation == extra.operation && extra.resultId < r.resultId
    requires forall t, s | LatestOperationTime(parse, results, "provisionConfirmed") == Some(t)
                        && parse(stale.timestamp) == Some(s) :: s < t
    ensures DeriveStatus(parse, base, results[..i] + [extra] + results[i..],
                         changes[..j] + [stale] + changes[j..], startTime, now, timeout)
         == DeriveStatus(parse, base, results, changes, startTime, now, timeout)
  {
    var more, moreChanges := results[..i] + [extra] + results[i..], changes[..j] + [stale] + changes[j..];
    InsertedMembers(results, extra, i);
    InsertedMembers(changes, stale, j);
    forall op | op in {"provisionConfirmed", "releaseConfirmed"}
      ensures Covered(results, more, op) && Covered(more, results, op)
    {
      CoveredReflexive(results, more, op);
      forall r | r in more && r.operation == op
        ensures exists s :: s in results && s.operation == op && !KeyLess(s, r)
      {
        StringLessTotal(r.timestamp, r.timestamp);
        if r in results {
          assert !KeyLess(r, r);
        } else {
          var s :| s in results && s.operation == extra.operation && extra.resultId < s.resultId;
          assert !KeyLess(s, r);
        }
      }
    }
    DerivationIgnoresIrrelevantHistory(parse, base, results, more, changes, moreChanges, startTime, now, timeout);
  }

  lemma InsertedMembers<T>(s: seq<T>, x: T, i: nat)
    requires i <= |s|
    ensures forall y :: y in s[..i] + [x] + s[i..] <==> y in s || y == x
  {
    assert s == s[..i] + s[i..];
    forall y ensures y in s[..i] + [x] + s[i..] <==> y in s || y == x {
      assert y in s <==> y in s[..i] || y in s[i..];
    }
  }

  // ---------------------------------------------------------------- convergence

  // The anchor the README promises: the last provision, clamped to the schedule's start.
  ghost predicate ProvisionedAt(parse: Parser, results: seq<OperationResult>, t: int) {
    exists r :: r in results && r.operation == "provisionConfirmed" && parse(r.timestamp) == Some(t)
             && forall x :: x in results && x.operation == "provisionConfirmed" ==> !KeyLess(r, x)
  }

  lemma ProvisionedAtIsLatest(parse: Parser, results: seq<OperationResult>, t: int)
    ensures ProvisionedAt(parse, results, t)
      <==> LatestOperationTime(parse, results, "provisionConfirmed") == Some(t)
  {
    if ProvisionedAt(parse, results, t) {
      var r :| r in results && r.operation == "provisionConfirmed" && parse(r.timestamp) == Some(t)
             && forall x :: x in results && x.operation == "provisionConfirmed" ==> !KeyLess(r, x);
      LatestOperationTimeMeaning(parse, results, "provisionConfirmed", r);
    }
    if LatestOperationTime(parse, results, "provisionConfirmed") == Some(t) {
      var matching := ResultsOf(results, "provisionConfirmed");
      ResultsOfMembers(results, "provisionConfirmed");
      LatestResultIsMaximal(matching);
      var r := LatestResult(matching);
      assert r in results && r.operation == "provisionConfirmed" && parse(r.timestamp) == Some(t);
    }
  }

  // A stuck activation fails strictly after max(provision, start) + timeout, never before unless the
  // data plane came up and went away; once failed it stays failed, with the same reason.
  lemma ActivatingFailsExactly(parse: Parser, results: seq<OperationResult>, changes: seq<DataPlaneChange>,
                               startTime: Option<string>, now: int, later: int, timeout: int, t: int)
    requires ProvisionedAt(parse, results, t) && now <= later
    ensures var d := DeriveStatus(parse, ACTIVATING, results, changes, startTime, now, timeout);
      && d.status in {ACTIVATING, FAILED}
      && (d.status == FAILED <==>
            || (exists c :: c in changes && c.active && parse(c.timestamp).Some? && parse(c.timestamp).value >= t)
            || (now > t + timeout
                && forall s | startTime.Some? && parse(startTime.value) == Some(s) :: now > s + timeout))
      && (d.status == FAILED ==>
            d == DeriveStatus(parse, ACTIVATING, results, changes, startTime, later, timeout))
  {
    ProvisionedAtIsLatest(parse, results, t);
    ActiveSinceMeaning(parse, changes, t);
  }

  ghost predicate FailedFrom(parse: Parser, results: seq<OperationResult>, changes: seq<DataPlaneChange>,
                             startTime: Option<string>, timeout: int, n: int) {
    forall now :: now >= n ==>
      DeriveStatus(parse, ACTIVATING, results, changes, startTime, now, timeout).status == FAILED
  }

  // The convergence promised by the README needs an anchor: with no readable provisionConfirmed the
  // status stays ACTIVATING at every clock value, and with one it fails from some moment on.
  lemma ActivatingConvergesIffAnchored(parse: Parser, results: seq<OperationResult>,
                                       changes: seq<DataPlaneChange>, startTime: Option<string>, timeout: int)
    ensures (exists n :: FailedFrom(parse, results, changes, startTime, timeout, n))
      <==> exists t :: ProvisionedAt(parse, results, t)
    ensures (forall t :: !ProvisionedAt(parse, results, t)) ==> forall now ::
              DeriveStatus(parse, ACTIVATING, results, changes, startTime, now, timeout).status == ACTIVATING
  {
    var at := LatestOperationTime(parse, results, "provisionConfirmed");
    if at.Some? {
      ProvisionedAtIsLatest(parse, results, at.value);
      assert FailedFrom(parse, results, changes, startTime, timeout, Anchor(parse, at.value, startTime) + timeout + 1);
    } else {
      forall t ensures !ProvisionedAt(parse, results, t) {
        ProvisionedAtIsLatest(parse, results, t);
      }
      forall n: int ensures !FailedFrom(parse, results, changes, startTime, timeout, n) {
        assert DeriveStatus(parse, ACTIVATING, results, changes, startTime, n, timeout).status == ACTIVATING;
      }
    }
  }

  // The release side is not symmetric: neither the schedule nor the data-plane history is consulted,
  // so a data plane that is reported up after the release is not a failure until the timeout.
  lemma DeactivatingFailsExactly(parse: Parser, results: seq<OperationResult>, changes: seq<DataPlaneChange>,
                                 startTime: Option<string>, now: int, later: int, timeout: int,
                                 r: OperationResult)
    requires r in results && r.operation == "releaseConfirmed" && now <= later
    requires forall x :: x in results && x.operation == "releaseConfirmed" ==> !KeyLess(r, x)
    ensures var d := DeriveStatus(parse, DEACTIVATING, results, changes, startTime, now, timeout);
      && d.status in {DEACTIVATING, FAILED}
      && (d.status == FAILED <==> parse(r.timestamp).Some? && now > parse(r.timestamp).value + timeout)
      && (d.status == FAILED ==> d == DeriveStatus(parse, DEACTIVATING, results, [], None, later, timeout))
  {
    LatestOperationTimeMeaning(parse, results, "releaseConfirmed", r);
  }

  // ---------------------------------------------------------------- every base status

  predicate Stable(status: ReservationStatus) {
    status == RESERVED || status == ACTIVATED || IsTerminal(status)
  }

  ghost predicate StableFrom(parse: Parser, base: ReservationStatus, results: seq<OperationResult>,
                             changes: seq<DataPlaneChange>, startTime: Option<string>, timeout: int, n: int) {
    forall now :: now >= n ==> Stable(DeriveStatus(parse, base, results, changes, startTime, now, timeout).status)
  }

  // The latest result of the operation, which no other supersedes, has a readable time.
  ghost predicate Anchored(parse: Parser, results: seq<OperationResult>, operation: string) {
    exists r :: r in results && r.operation == operation && parse(r.timestamp).Some?
             && forall x :: x in results && x.operation == operation ==> !KeyLess(r, x)
  }

  lemma AnchoredIff(parse: Parser, results: seq<OperationResult>, operation: string)
    ensures Anchored(parse, results, operation) <==> LatestOperationTime(parse, results, operation).Some?
  {
    if Anchored(parse, results, operation) {
      var r :| r in results && r.operation == operation && parse(r.timestamp).Some?
             && forall x :: x in results && x.operation == operation ==> !KeyLess(r, x);
      LatestOperationTimeMeaning(parse, results, operation, r);
    }
    if LatestOperationTime(parse, results, operation).Some? {
      var matching := ResultsOf(results, operation);
      ResultsOfMembers(results, operation);
      LatestResultIsMaximal(matching);
      var r := LatestResult(matching);
      assert r in results && r.operation == operation && parse(r.timestamp).Some?;
    }
  }

  // A reservation settles, from some moment on and for good, exactly if its base status is stable, or it
  // is transient and the latest confirmation of the operation it is in has a readable time. RESERVING
  // never settles by itself, and neither does a transient status without such a confirmation.
  lemma ConvergesIff(parse: Parser, base: ReservationStatus, results: seq<OperationResult>,
                     changes: seq<DataPlaneChange>, startTime: Option<string>, timeout: int)
    ensures (exists n :: StableFrom(parse, base, results, changes, startTime, timeout, n))
      <==> || Stable(base)
           || (base == ACTIVATING && Anchored(parse, results, "provisionConfirmed"))
           || (base == DEACTIVATING && Anchored(parse, results, "releaseConfirmed"))
  {
    AnchoredIff(parse, results, "provisionConfirmed");
    AnchoredIff(parse, results, "releaseConfirmed");
    var provisioned := LatestOperationTime(parse, results, "provisionConfirmed");
    var released := LatestOperationTime(parse, results, "releaseConfirmed");
    var n := match base
      case ACTIVATING => if provisioned.Some? then Anchor(parse, provisioned.value, startTime) + timeout + 1 else 0
      case DEACTIVATING => if released.Some? then released.value + timeout + 1 else 0
      case _ => 0;
    if Stable(base) || (base == ACTIVATING && provisioned.Some?) || (base == DEACTIVATING && released.Some?) {
      assert StableFrom(parse, base, results, changes, startTime, timeout, n);
    } else {
      forall m: int ensures !StableFrom(parse, base, results, changes, startTime, timeout, m) {
        assert DeriveStatus(parse, base, results, changes, startTime, m, timeout).status == base;
      }
    }
  }
}
