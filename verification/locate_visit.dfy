/** The handler that locates a visit once it has been recorded. Its source is not part
    of this model; its behaviour is the one module/Core/test/EventDispatcher/LocateVisitTest.php
    fixes branch by branch. The entity manager, the geolocation database updater, the
    IP resolver, the logger and the event dispatcher are inputs, and the handler
    returns the visit as left behind together with the trace of calls it made. */
module LocateVisit {
  import opened Wrappers
  import opened Logging
  import opened Visits

  /** The event that triggers the handler; the address overrides the visit's own. */
  datatype UrlVisited = UrlVisited(visitId: string, originalIpAddress: Option<string>)

  /** The event the handler dispatches for the notification handlers. */
  datatype VisitLocated = VisitLocated(visitId: string)

  /** What the geolocation database check did: nothing to report, or failed with or
      without an older copy of the database to fall back on. */
  datatype DbUpdateOutcome = DbUpToDate | DbUpdateFailed(olderDbExists: bool)

  /** What the IP resolver does with an address. */
  datatype ResolveOutcome = Resolved(location: Location) | WrongIp

  /** The calls the handler makes on its collaborators, in order. */
  datatype Effect =
    | FindVisit(id: string)
    | CheckDbUpdate
    | ResolveIpLocation(address: string)
    | Flush
    | Dispatch(event: VisitLocated)
    | Log(level: LogLevel)

  datatype EffectKind = FindKind | CheckKind | ResolveKind | FlushKind | DispatchKind
                      | DebugKind | WarningKind | ErrorKind

  function KindOf(e: Effect): EffectKind {
    match e
    case FindVisit(_) => FindKind
    case CheckDbUpdate => CheckKind
    case ResolveIpLocation(_) => ResolveKind
    case Flush => FlushKind
    case Dispatch(_) => DispatchKind
    case Log(Debug) => DebugKind
    case Log(Warning) => WarningKind
    case Log(Error) => ErrorKind
  }

  /** 1 when the call is of the given kind. */
  function Ind(e: Effect, k: EffectKind): nat {
    if KindOf(e) == k then 1 else 0
  }

  /** How many calls of one kind a trace holds. */
  function Count(trace: seq<Effect>, k: EffectKind): (n: nat)
    ensures n <= |trace|
  {
    if |trace| == 0 then 0
    else Ind(trace[0], k) + Count(trace[1..], k)
  }

  lemma {:induction false} CountConcat(a: seq<Effect>, b: seq<Effect>, k: EffectKind)
    ensures Count(a + b, k) == Count(a, k) + Count(b, k)
  {
    if |a| == 0 {
      assert a + b == b;
    } else {
      assert (a + b)[1..] == a[1..] + b;
      CountConcat(a[1..], b, k);
    }
  }

  lemma CountCons(x: Effect, t: seq<Effect>, k: EffectKind)
    ensures Count([x] + t, k) == Ind(x, k) + Count(t, k)
  {
  }

  /** Counting over the short call lists the handler is assembled from. */
  lemma CountOne(x: Effect, k: EffectKind)
    ensures Count([x], k) == Ind(x, k)
  {
    CountCons(x, [], k);
    assert [x] == [x] + [];
  }

  lemma CountTwo(x: Effect, y: Effect, k: EffectKind)
    ensures Count([x, y], k) == Ind(x, k) + Ind(y, k)
  {
    CountOne(y, k);
    CountCons(x, [y], k);
    assert [x, y] == [x] + [y];
  }

  lemma CountThree(x: Effect, y: Effect, z: Effect, k: EffectKind)
    ensures Count([x, y, z], k) == Ind(x, k) + Ind(y, k) + Ind(z, k)
  {
    CountTwo(y, z, k);
    CountCons(x, [y, z], k);
    assert [x, y, z] == [x] + [y, z];
  }

  datatype LocateOutcome = LocateOutcome(visit: Option<Visit>, trace: seq<Effect>)

  /** The log line the database check leaves: a warning when an older copy is used,
      an error when there is none. */
  function DbCheckLogs(db: DbUpdateOutcome): seq<Effect> {
    match db
    case DbUpToDate => []
    case DbUpdateFailed(older) => if older then [Log(Warning)] else [Log(Error)]
  }

  lemma DbCheckLogsCount(db: DbUpdateOutcome, k: EffectKind)
    ensures Count(DbCheckLogs(db), k) == match db
      case DbUpToDate => 0
      case DbUpdateFailed(true) => Ind(Log(Warning), k)
      case DbUpdateFailed(false) => Ind(Log(Error), k)
  {
  }

  /** A visit can be looked up when an address was handed in with the event, or when
      its own address is locatable. */
  predicate ShouldResolve(event: UrlVisited, visit: Visit) {
    event.originalIpAddress.Some? || IsLocatable(visit)
  }

  /** The address handed to the resolver: the override, else the visit's address. */
  function AddressToResolve(event: UrlVisited, visit: Visit): string
    requires ShouldResolve(event, visit)
  {
    if event.originalIpAddress.Some? then event.originalIpAddress.value else visit.remoteAddr.value
  }

  /** The locating step: an address that cannot be looked up gives the empty location,
      otherwise the resolver's answer is stored; a wrong address is logged and nothing
      is stored. Storing means one flush. */
  function LocateStep(event: UrlVisited, visit: Visit, resolve: string -> ResolveOutcome)
    : (r: LocateOutcome)
    ensures 1 <= |r.trace| <= 2
    ensures r.trace[0].ResolveIpLocation? <==> ShouldResolve(event, visit)
    ensures r.visit.Some? && r.visit.value.(location := visit.location) == visit
    ensures r.trace[|r.trace| - 1] == Flush || r.visit == Some(visit)
    ensures r.trace[|r.trace| - 1] == Flush ==> r.visit.value.location.Some?
  {
    if !ShouldResolve(event, visit) then
      LocateOutcome(Some(visit.(location := Some(EmptyLocation))), [Flush])
    else
      var address := AddressToResolve(event, visit);
      match resolve(address)
      case Resolved(l) =>
        LocateOutcome(Some(visit.(location := Some(l))), [ResolveIpLocation(address), Flush])
      case WrongIp => LocateOutcome(Some(visit), [ResolveIpLocation(address), Log(Warning)])
  }

  /** The handler. `found` is what the entity manager returns for the event's visit id,
      `db` what the database check does, `resolve` the IP resolver. A missing visit is
      only logged; otherwise the database is checked, the visit located unless there is
      no database at all, and `VisitLocated` dispatched. */
  function HandleUrlVisited(event: UrlVisited, found: Option<Visit>, db: DbUpdateOutcome,
                            resolve: string -> ResolveOutcome): (r: LocateOutcome)
    ensures |r.trace| >= 2 && r.trace[0] == FindVisit(event.visitId)
    ensures r.visit.Some? <==> found.Some?
    ensures found.Some? <==> r.trace[|r.trace| - 1] == Dispatch(VisitLocated(event.visitId))
    ensures found.Some? ==> r.trace[1] == CheckDbUpdate
  {
    match found
    case None =>
      LocateOutcome(None, [FindVisit(event.visitId), Log(Warning)])
    case Some(visit) =>
      var checked := [FindVisit(event.visitId), CheckDbUpdate] + DbCheckLogs(db);
      var located := [Dispatch(VisitLocated(event.visitId))];
      if db == DbUpdateFailed(false) then
        LocateOutcome(found, checked + located)
      else
        var step := LocateStep(event, visit, resolve);
        LocateOutcome(step.visit, checked + step.trace + located)
  }

  // ---------------------------------------------------------------------------
  // The branches, one lemma per test method

  /** invalidVisitLogsWarning: a warning, and no flush, no lookup, no dispatch. */
  lemma MissingVisit(event: UrlVisited, db: DbUpdateOutcome, resolve: string -> ResolveOutcome)
    ensures var r := HandleUrlVisited(event, None, db, resolve);
      && r.visit.None?
      && Count(r.trace, WarningKind) == 1
      && Count(r.trace, FlushKind) == 0
      && Count(r.trace, ResolveKind) == 0
      && Count(r.trace, CheckKind) == 0
      && Count(r.trace, DispatchKind) == 0
  {
  }

  /** invalidAddressLogsWarning: the resolver is asked once and rejects the address; a
      warning is logged, nothing is flushed, the visit keeps its location, and
      `VisitLocated` is dispatched once. */
  lemma WrongAddress(event: UrlVisited, visit: Visit, resolve: string -> ResolveOutcome)
    requires ShouldResolve(event, visit)
    requires resolve(AddressToResolve(event, visit)) == WrongIp
    ensures var r := HandleUrlVisited(event, Some(visit), DbUpToDate, resolve);
      && r.visit == Some(visit)
      && Count(r.trace, ResolveKind) == 1
      && Count(r.trace, WarningKind) == 1
      && Count(r.trace, FlushKind) == 0
      && Count(r.trace, DispatchKind) == 1
      && Dispatch(VisitLocated(event.visitId)) in r.trace
  {
    var step := LocateStep(event, visit, resolve);
    var lookup := ResolveIpLocation(AddressToResolve(event, visit));
    assert step.trace == [lookup, Log(Warning)];
    forall k ensures Count(step.trace, k) == Ind(lookup, k) + Ind(Log(Warning), k) {
      CountTwo(lookup, Log(Warning), k);
    }
    FoundCallCounts(event, visit, DbUpToDate, resolve, ResolveKind);
    FoundCallCounts(event, visit, DbUpToDate, resolve, WarningKind);
    FoundCallCounts(event, visit, DbUpToDate, resolve, FlushKind);
    FoundCallCounts(event, visit, DbUpToDate, resolve, DispatchKind);
  }

  /** nonLocatableVisitsResolveToEmptyLocations: with no override and a null, empty or
      loopback address the visit gets the empty location, one flush and one dispatch,
      without asking the resolver and without warnings. */
  lemma NonLocatableVisit(event: UrlVisited, visit: Visit, resolve: string -> ResolveOutcome)
    requires event.originalIpAddress.None?
    requires visit.remoteAddr in {None, Some(""), Some(Localhost)}
    ensures var r := HandleUrlVisited(event, Some(visit), DbUpToDate, resolve);
      && r.visit == Some(visit.(location := Some(EmptyLocation)))
      && Count(r.trace, FlushKind) == 1
      && Count(r.trace, ResolveKind) == 0
      && Count(r.trace, WarningKind) == 0
      && Count(r.trace, DispatchKind) == 1
  {
    var step := LocateStep(event, visit, resolve);
    assert step.trace == [Flush];
    forall k ensures Count(step.trace, k) == Ind(Flush, k) {
      CountOne(Flush, k);
    }
    FoundCallCounts(event, visit, DbUpToDate, resolve, FlushKind);
    FoundCallCounts(event, visit, DbUpToDate, resolve, ResolveKind);
    FoundCallCounts(event, visit, DbUpToDate, resolve, WarningKind);
    FoundCallCounts(event, visit, DbUpToDate, resolve, DispatchKind);
  }

  /** locatableVisitsResolveToLocation: the resolver is asked once, with the override
      when there is one and the visit's address otherwise; its answer becomes the
      location, with one flush, one dispatch and no warning. */
  lemma LocatableVisit(event: UrlVisited, visit: Visit, resolve: string -> ResolveOutcome, l: Location)
    requires ShouldResolve(event, visit)
    requires resolve(AddressToResolve(event, visit)) == Resolved(l)
    ensures var r := HandleUrlVisited(event, Some(visit), DbUpToDate, resolve);
      && r.visit == Some(visit.(location := Some(l)))
      && ResolveIpLocation(AddressToResolve(event, visit)) in r.trace
      && Count(r.trace, ResolveKind) == 1
      && Count(r.trace, FlushKind) == 1
      && Count(r.trace, WarningKind) == 0
      && Count(r.trace, DispatchKind) == 1
  {
    var r := HandleUrlVisited(event, Some(visit), DbUpToDate, resolve);
    var step := LocateStep(event, visit, resolve);
    var lookup := ResolveIpLocation(AddressToResolve(event, visit));
    assert step.trace == [lookup, Flush];
    assert r.trace[2] == lookup;
    forall k ensures Count(step.trace, k) == Ind(lookup, k) + Ind(Flush, k) {
      CountTwo(lookup, Flush, k);
    }
    FoundCallCounts(event, visit, DbUpToDate, resolve, ResolveKind);
    FoundCallCounts(event, visit, DbUpToDate, resolve, FlushKind);
    FoundCallCounts(event, visit, DbUpToDate, resolve, WarningKind);
    FoundCallCounts(event, visit, DbUpToDate, resolve, DispatchKind);
  }

  /** The orphan kinds (base path, invalid short URL, regular not found) are located
      exactly like a visit to a valid short URL. */
  lemma VisitTypeIrrelevant(event: UrlVisited, visit: Visit, t: VisitType, db: DbUpdateOutcome,
                            resolve: string -> ResolveOutcome)
    ensures var r := HandleUrlVisited(event, Some(visit), db, resolve);
            var r' := HandleUrlVisited(event, Some(visit.(visitType := t)), db, resolve);
      && r'.trace == r.trace
      && r'.visit.value.location == r.visit.value.location
  {
  }

  /** errorWhenUpdatingGeoLiteWithExistingCopyLogsWarning: a failed update with an older
      database is one warning; the visit is then located as usual. */
  lemma OlderDbStillLocates(event: UrlVisited, visit: Visit, resolve: string -> ResolveOutcome,
                            l: Location)
    requires ShouldResolve(event, visit)
    requires resolve(AddressToResolve(event, visit)) == Resolved(l)
    ensures var r := HandleUrlVisited(event, Some(visit), DbUpdateFailed(true), resolve);
      && r.visit == Some(visit.(location := Some(l)))
      && Count(r.trace, CheckKind) == 1
      && Count(r.trace, WarningKind) == 1
      && Count(r.trace, ResolveKind) == 1
      && Count(r.trace, FlushKind) == 1
      && Count(r.trace, DispatchKind) == 1
  {
    var db := DbUpdateFailed(true);
    var step := LocateStep(event, visit, resolve);
    var lookup := ResolveIpLocation(AddressToResolve(event, visit));
    assert step.trace == [lookup, Flush];
    forall k ensures Count(step.trace, k) == Ind(lookup, k) + Ind(Flush, k) {
      CountTwo(lookup, Flush, k);
    }
    forall k ensures Count(DbCheckLogs(db), k) == Ind(Log(Warning), k) {
      DbCheckLogsCount(db, k);
    }
    FoundCallCounts(event, visit, db, resolve, CheckKind);
    FoundCallCounts(event, visit, db, resolve, WarningKind);
    FoundCallCounts(event, visit, db, resolve, ResolveKind);
    FoundCallCounts(event, visit, db, resolve, FlushKind);
    FoundCallCounts(event, visit, db, resolve, DispatchKind);
  }

  /** errorWhenDownloadingGeoLiteCancelsLocation: with no database at all an error is
      logged, the resolver is not asked, nothing is flushed, the location stays as it
      was, and `VisitLocated` is still dispatched once. */
  lemma NoDbCancelsLocation(event: UrlVisited, visit: Visit, resolve: string -> ResolveOutcome)
    ensures var r := HandleUrlVisited(event, Some(visit), DbUpdateFailed(false), resolve);
      && r.visit == Some(visit)
      && Count(r.trace, CheckKind) == 1
      && Count(r.trace, ErrorKind) == 1
      && Count(r.trace, ResolveKind) == 0
      && Count(r.trace, FlushKind) == 0
      && Count(r.trace, DispatchKind) == 1
  {
    var db := DbUpdateFailed(false);
    forall k ensures Count(DbCheckLogs(db), k) == Ind(Log(Error), k) {
      DbCheckLogsCount(db, k);
    }
    FoundCallCounts(event, visit, db, resolve, CheckKind);
    FoundCallCounts(event, visit, db, resolve, ErrorKind);
    FoundCallCounts(event, visit, db, resolve, ResolveKind);
    FoundCallCounts(event, visit, db, resolve, FlushKind);
    FoundCallCounts(event, visit, db, resolve, DispatchKind);
  }

  // ---------------------------------------------------------------------------
  // Properties of every branch

  /** The locating step alone: at most one lookup and one flush, nothing else of the
      handler's own calls; only the location may change; without a flush nothing changes,
      and a flush always leaves some location stored (possibly the one already there). */
  lemma LocateStepFacts(event: UrlVisited, visit: Visit, resolve: string -> ResolveOutcome)
    ensures var st := LocateStep(event, visit, resolve);
      && Count(st.trace, FindKind) == 0 && Count(st.trace, CheckKind) == 0
      && Count(st.trace, DispatchKind) == 0
      && Count(st.trace, ResolveKind) <= 1 && Count(st.trace, FlushKind) <= 1
      && st.visit.Some? && st.visit.value.(location := visit.location) == visit
      && (Count(st.trace, FlushKind) == 0 ==> st.visit == Some(visit))
      && (Count(st.trace, FlushKind) == 1 ==> st.visit.value.location.Some?)
  {
  }

  /** The calls of a run that found its visit: the find, the database check and its
      log, then either the dispatch alone (no database) or the locating step and the
      dispatch. */
  lemma {:induction false} FoundCallCounts(event: UrlVisited, visit: Visit, db: DbUpdateOutcome,
                                           resolve: string -> ResolveOutcome, k: EffectKind)
    ensures var r := HandleUrlVisited(event, Some(visit), db, resolve);
      Count(r.trace, k) == Ind(FindVisit(event.visitId), k) + Ind(CheckDbUpdate, k)
                           + Count(DbCheckLogs(db), k)
                           + (if db == DbUpdateFailed(false) then 0
                              else Count(LocateStep(event, visit, resolve).trace, k))
                           + Ind(Dispatch(VisitLocated(event.visitId)), k)
  {
    var r := HandleUrlVisited(event, Some(visit), db, resolve);
    var a := [FindVisit(event.visitId), CheckDbUpdate];
    var logs := DbCheckLogs(db);
    var c := [Dispatch(VisitLocated(event.visitId))];
    CountTwo(FindVisit(event.visitId), CheckDbUpdate, k);
    CountOne(Dispatch(VisitLocated(event.visitId)), k);
    CountConcat(a, logs, k);
    if db == DbUpdateFailed(false) {
      assert r.trace == a + logs + c;
      CountConcat(a + logs, c, k);
    } else {
      var step := LocateStep(event, visit, resolve).trace;
      assert r.trace == a + logs + step + c;
      CountConcat(a + logs + step, c, k);
      CountConcat(a + logs, step, k);
    }
  }

  /** The call counts of a run that found its visit. */
  lemma FoundCallBounds(event: UrlVisited, visit: Visit, db: DbUpdateOutcome,
                        resolve: string -> ResolveOutcome)
    ensures var r := HandleUrlVisited(event, Some(visit), db, resolve);
      && Count(r.trace, FindKind) == 1
      && Count(r.trace, ResolveKind) <= 1
      && Count(r.trace, FlushKind) <= 1
      && Count(r.trace, DispatchKind) == 1
  {
    if db != DbUpdateFailed(false) {
      LocateStepFacts(event, visit, resolve);
    }
    forall k | k in {FindKind, ResolveKind, FlushKind, DispatchKind}
      ensures Count(DbCheckLogs(db), k) == 0
    {
      DbCheckLogsCount(db, k);
    }
    FoundCallCounts(event, visit, db, resolve, FindKind);
    FoundCallCounts(event, visit, db, resolve, ResolveKind);
    FoundCallCounts(event, visit, db, resolve, FlushKind);
    FoundCallCounts(event, visit, db, resolve, DispatchKind);
  }

  /** Whatever the collaborators do, the visit is looked up once, the resolver is asked
      at most once and there is at most one flush; `VisitLocated` for the event's id is
      dispatched exactly once, as the last call, when the visit exists, and never
      otherwise. */
  lemma HandlerCallCounts(event: UrlVisited, found: Option<Visit>, db: DbUpdateOutcome,
                          resolve: string -> ResolveOutcome)
    ensures var r := HandleUrlVisited(event, found, db, resolve);
      && Count(r.trace, FindKind) == 1
      && Count(r.trace, ResolveKind) <= 1
      && Count(r.trace, FlushKind) <= 1
      && Count(r.trace, DispatchKind) == (if found.Some? then 1 else 0)
      && (found.Some? ==> r.trace[|r.trace| - 1] == Dispatch(VisitLocated(event.visitId)))
  {
    if found.Some? {
      FoundCallBounds(event, found.value, db, resolve);
    } else {
      MissingVisit(event, db, resolve);
      CountTwo(FindVisit(event.visitId), Log(Warning), FindKind);
    }
  }

  /** Only the visit's location can change; without a flush nothing changes, and a
      flush always leaves some location stored (possibly the one already there); a visit
      that is not found stays absent. */
  lemma HandlerChangesOnlyLocation(event: UrlVisited, found: Option<Visit>, db: DbUpdateOutcome,
                                   resolve: string -> ResolveOutcome)
    ensures var r := HandleUrlVisited(event, found, db, resolve);
      && (r.visit.Some? <==> found.Some?)
      && (found.Some? ==> r.visit.value.(location := found.value.location) == found.value)
      && (Count(r.trace, FlushKind) == 0 ==> r.visit == found)
      && (Count(r.trace, FlushKind) == 1 ==> r.visit.Some? && r.visit.value.location.Some?)
  {
    var r := HandleUrlVisited(event, found, db, resolve);
    if found.Some? && db != DbUpdateFailed(false) {
      var visit := found.value;
      var a := [FindVisit(event.visitId), CheckDbUpdate] + DbCheckLogs(db);
      var step := LocateStep(event, visit, resolve);
      var c := [Dispatch(VisitLocated(event.visitId))];
      LocateStepFacts(event, visit, resolve);
      assert r.trace == a + step.trace + c;
      CountConcat(a + step.trace, c, FlushKind);
      CountConcat(a, step.trace, FlushKind);
      CountConcat([FindVisit(event.visitId), CheckDbUpdate], DbCheckLogs(db), FlushKind);
      DbCheckLogsCount(db, FlushKind);
      CountTwo(FindVisit(event.visitId), CheckDbUpdate, FlushKind);
      CountOne(Dispatch(VisitLocated(event.visitId)), FlushKind);
    } else if found.Some? {
      var a := [FindVisit(event.visitId), CheckDbUpdate, Log(Error)];
      var c := [Dispatch(VisitLocated(event.visitId))];
      assert r.trace == a + c;
      CountConcat(a, c, FlushKind);
      CountThree(FindVisit(event.visitId), CheckDbUpdate, Log(Error), FlushKind);
      CountOne(Dispatch(VisitLocated(event.visitId)), FlushKind);
    } else {
      CountTwo(FindVisit(event.visitId), Log(Warning), FlushKind);
    }
  }
}
