/** The handler that announces a located visit on the Mercure hub
    (module/Core/src/EventDispatcher/NotifyVisitToMercure.php). The entity manager's
    lookup, the publisher's failures and the logger are inputs; the handler returns
    the updates it handed to the publisher, in order, and its log records. */
module NotifyVisitToMercure {
  import opened Wrappers
  import opened Logging
  import opened Visits
  import opened LocateVisit

  /** The updates the updates generator builds for a visit; only their kind and the
      visit they are about matter here, not their topics or payloads. */
  datatype Update =
    | NewShortUrlVisitUpdate(visitId: string)
    | NewVisitUpdate(visitId: string)
    | NewOrphanVisitUpdate(visitId: string)

  /** `determineUpdatesForVisit`: an orphan visit gets the orphan update only; any other
      visit gets the update for its short URL, then the global one. */
  function UpdatesForVisit(v: Visit): (us: seq<Update>)
    ensures IsOrphan(v) ==> |us| == 1 && us[0].NewOrphanVisitUpdate?
    ensures !IsOrphan(v) ==> |us| == 2 && us[0].NewShortUrlVisitUpdate? && us[1].NewVisitUpdate?
    ensures forall i :: 0 <= i < |us| ==> us[i].visitId == v.id
  {
    if IsOrphan(v) then [NewOrphanVisitUpdate(v.id)]
    else [NewShortUrlVisitUpdate(v.id), NewVisitUpdate(v.id)]
  }

  /** What publishing a list did: the updates handed to the publisher, and whether the
      last of them threw. */
  datatype PublishRun = PublishRun(attempted: seq<Update>, failed: bool)

  /** The run of publishing `us` inside one try block, described without saying how:
      the attempted updates are a prefix of the list; all of them but the last went
      through; the run failed exactly when the last one threw; a run that did not fail
      went through the whole list. */
  predicate IsPublishRun(us: seq<Update>, fails: Update -> bool, run: PublishRun) {
    && |run.attempted| <= |us|
    && run.attempted == us[..|run.attempted|]
    && (forall i :: 0 <= i < |run.attempted| - 1 ==> !fails(run.attempted[i]))
    && (run.failed <==> |run.attempted| > 0 && fails(run.attempted[|run.attempted| - 1]))
    && (!run.failed ==> run.attempted == us)
  }

  /** Publishing in list order; the first update that throws ends the run. */
  function PublishAll(us: seq<Update>, fails: Update -> bool): (run: PublishRun)
    ensures IsPublishRun(us, fails, run)
    decreases |us|
  {
    if |us| == 0 then PublishRun([], false)
    else if fails(us[0]) then PublishRun([us[0]], true)
    else
      var rest := PublishAll(us[1..], fails);
      PublishRun([us[0]] + rest.attempted, rest.failed)
  }

  /** The description admits one run only, so it is an independent definition of
      `PublishAll`. */
  lemma {:induction false} PublishRunUnique(us: seq<Update>, fails: Update -> bool, run: PublishRun)
    requires IsPublishRun(us, fails, run)
    ensures run == PublishAll(us, fails)
  {
  }

  /** The `each` loop inside the try block, written as a loop. */
  method PublishEach(us: seq<Update>, fails: Update -> bool) returns (attempted: seq<Update>, failed: bool)
    ensures IsPublishRun(us, fails, PublishRun(attempted, failed))
    ensures PublishRun(attempted, failed) == PublishAll(us, fails)
  {
    attempted, failed := [], false;
    var i := 0;
    while i < |us| && !failed
      invariant 0 <= i <= |us|
      invariant attempted == us[..i]
      invariant forall j :: 0 <= j < i - 1 ==> !fails(us[j])
      invariant failed <==> i > 0 && fails(us[i - 1])
    {
      attempted := attempted + [us[i]];
      failed := fails(us[i]);
      i := i + 1;
    }
    PublishRunUnique(us, fails, PublishRun(attempted, failed));
  }

  datatype NotifyOutcome = NotifyOutcome(attempted: seq<Update>, logs: seq<LogLevel>)

  /** The updates of a run that reached the hub: all attempted ones but a failing last one. */
  function Delivered(us: seq<Update>, fails: Update -> bool, run: PublishRun): (ds: seq<Update>)
    requires IsPublishRun(us, fails, run)
    ensures |ds| <= |us| && ds == us[..|ds|]
    ensures forall i :: 0 <= i < |ds| ==> !fails(ds[i])
    ensures |ds| == |run.attempted| - (if run.failed then 1 else 0)
  {
    if run.failed then run.attempted[..|run.attempted| - 1] else run.attempted
  }

  /** The run a notification outcome records: a debug record means the last attempt threw. */
  function RunOf(r: NotifyOutcome): PublishRun {
    PublishRun(r.attempted, r.logs == [Debug])
  }

  /** `__invoke`: a missing visit is a warning and nothing is published; otherwise the
      visit's updates are published in order, and a throw ends the publishing and
      becomes a debug record instead of escaping. `found` is what the entity manager
      returns for the event's visit id, so every update attempted is about that visit. */
  function HandleVisitLocated(event: VisitLocated, found: Option<Visit>, fails: Update -> bool)
    : (r: NotifyOutcome)
    ensures found.None? ==> r.attempted == [] && r.logs == [Warning]
    ensures found.Some? ==> IsPublishRun(UpdatesForVisit(found.value), fails, RunOf(r))
    ensures found.Some? ==> r.logs == [] || r.logs == [Debug]
    ensures found.Some? && found.value.id == event.visitId ==>
      forall u :: u in r.attempted ==> u.visitId == event.visitId
    ensures |r.logs| <= 1 && Error !in r.logs
  {
    match found
    case None => NotifyOutcome([], [Warning])
    case Some(visit) =>
      var run := PublishAll(UpdatesForVisit(visit), fails);
      NotifyOutcome(run.attempted, if run.failed then [Debug] else [])
  }

  /** An orphan visit publishes the orphan update and nothing else. */
  lemma OrphanVisitPublishesOne(event: VisitLocated, visit: Visit, fails: Update -> bool)
    requires IsOrphan(visit)
    ensures var r := HandleVisitLocated(event, Some(visit), fails);
      && r.attempted == [NewOrphanVisitUpdate(visit.id)]
      && (r.logs == [] <==> !fails(NewOrphanVisitUpdate(visit.id)))
  {
  }

  /** A visit to a short URL publishes the short-URL update first and the global one
      second when the hub accepts both, with nothing logged. */
  lemma ShortUrlVisitPublishesTwo(event: VisitLocated, visit: Visit, fails: Update -> bool)
    requires !IsOrphan(visit)
    requires !fails(NewShortUrlVisitUpdate(visit.id)) && !fails(NewVisitUpdate(visit.id))
    ensures var r := HandleVisitLocated(event, Some(visit), fails);
      && r.attempted == [NewShortUrlVisitUpdate(visit.id), NewVisitUpdate(visit.id)]
      && r.logs == []
  {
  }

  /** When the first publish throws, the second update is never handed to the hub; the
      failure is only a debug record. */
  lemma FirstFailureSkipsTheRest(event: VisitLocated, visit: Visit, fails: Update -> bool)
    requires !IsOrphan(visit)
    requires fails(NewShortUrlVisitUpdate(visit.id))
    ensures var r := HandleVisitLocated(event, Some(visit), fails);
      && r.attempted == [NewShortUrlVisitUpdate(visit.id)]
      && Delivered(UpdatesForVisit(visit), fails, RunOf(r)) == []
      && r.logs == [Debug]
  {
  }

  /** When only the second publish throws, the first update has been delivered. */
  lemma SecondFailureKeepsTheFirst(event: VisitLocated, visit: Visit, fails: Update -> bool)
    requires !IsOrphan(visit)
    requires !fails(NewShortUrlVisitUpdate(visit.id)) && fails(NewVisitUpdate(visit.id))
    ensures var r := HandleVisitLocated(event, Some(visit), fails);
      && r.attempted == [NewShortUrlVisitUpdate(visit.id), NewVisitUpdate(visit.id)]
      && Delivered(UpdatesForVisit(visit), fails, RunOf(r)) == [NewShortUrlVisitUpdate(visit.id)]
      && r.logs == [Debug]
  {
  }

  /** End to end: a visit the locating handler found and that still exists when the
      notification handler runs gets at least one update handed to the hub, about that
      visit, whatever the hub does. */
  lemma LocatedVisitIsAnnounced(event: UrlVisited, visit: Visit, db: DbUpdateOutcome,
                                resolve: string -> ResolveOutcome, fails: Update -> bool)
    requires visit.id == event.visitId
    ensures var located := HandleUrlVisited(event, Some(visit), db, resolve);
            var r := HandleVisitLocated(VisitLocated(event.visitId), located.visit, fails);
      && Dispatch(VisitLocated(event.visitId)) in located.trace
      && |r.attempted| >= 1
      && r.attempted[0].visitId == event.visitId
  {
  }
}
