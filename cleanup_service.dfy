/**
  PastScreen's periodic capture-library cleanup: a repeating six-hour timer
  and on-demand runs, with a guard so that at most one cleanup is in flight.

  `run(reason:)` suspends at `await CaptureLibrary.shared.runCleanup(policy:)`,
  so it is modelled as two main-actor steps: `RunEnter` up to the suspension
  and `RunResume` after it. Other runs may be attempted in between; the
  `isRunning` guard turns them away.
*/
module CaptureLibraryCleanup {
  import opened Common

  /** `CaptureLibraryCleanupPolicy`. */
  datatype CleanupPolicy = CleanupPolicy(retentionDays: int, maxItems: int, maxBytes: int)

  /** The capture-library fields of `AppSettings`; a `Date` is an opaque instant. */
  class Settings {
    var captureLibraryEnabled: bool
    var captureLibraryRetentionDays: int
    var captureLibraryMaxItems: int
    var captureLibraryMaxBytes: int
    var captureLibraryLastCleanupAt: Option<int>

    constructor (enabled: bool, retentionDays: int, maxItems: int, maxBytes: int)
      ensures captureLibraryEnabled == enabled && captureLibraryRetentionDays == retentionDays
      ensures captureLibraryMaxItems == maxItems && captureLibraryMaxBytes == maxBytes
      ensures captureLibraryLastCleanupAt == None
    {
      captureLibraryEnabled := enabled;
      captureLibraryRetentionDays := retentionDays;
      captureLibraryMaxItems := maxItems;
      captureLibraryMaxBytes := maxBytes;
      captureLibraryLastCleanupAt := None;
    }
  }

  /** The timer's period in seconds: six hours. */
  const CleanupIntervalSeconds: nat := 6 * 60 * 60

  class CaptureLibraryCleanupService {
    const settings: Settings
    /** The scheduled repeating timer, identified by the order in which timers were scheduled. */
    var timer: Option<nat>
    var isRunning: bool
    /** How many timers `Timer.scheduledTimer` has created, and which of them were invalidated. */
    var scheduledTimers: nat
    var invalidatedTimers: set<nat>
    /** The reasons of the `Task { await run(reason:) }` launched, oldest first. */
    var launchedRuns: seq<string>
    /** The policies handed to `CaptureLibrary.runCleanup`, oldest first. */
    var cleanups: seq<CleanupPolicy>
    /** Runs suspended at their `await`. */
    ghost var runsInFlight: nat

    /**
      At most one run is in flight, exactly while `isRunning`; every timer that
      was scheduled and not invalidated is the one held in `timer`.
    */
    ghost predicate Valid()
      reads this
    {
      && runsInFlight == (if isRunning then 1 else 0)
      && (timer.Some? ==> timer.value < scheduledTimers && timer.value !in invalidatedTimers)
      && (forall t :: 0 <= t < scheduledTimers && t !in invalidatedTimers ==> timer == Some(t))
      && (forall t :: t in invalidatedTimers ==> t < scheduledTimers)
    }

    constructor (s: Settings)
      ensures Valid() && settings == s
      ensures timer == None && !isRunning && scheduledTimers == 0
      ensures launchedRuns == [] && cleanups == [] && invalidatedTimers == {}
    {
      settings := s;
      timer := None;
      isRunning := false;
      scheduledTimers := 0;
      invalidatedTimers := {};
      launchedRuns := [];
      cleanups := [];
      runsInFlight := 0;
    }

    /** `start`: with no timer, schedule one and launch a startup run; otherwise do nothing. */
    method Start()
      requires Valid()
      modifies this
      ensures Valid() && timer.Some? && isRunning == old(isRunning)
      ensures old(timer).Some? ==>
        timer == old(timer) && scheduledTimers == old(scheduledTimers) && launchedRuns == old(launchedRuns)
      ensures old(timer).None? ==>
        timer == Some(old(scheduledTimers)) && scheduledTimers == old(scheduledTimers) + 1 &&
        launchedRuns == old(launchedRuns) + ["startup"]
      ensures invalidatedTimers == old(invalidatedTimers) && cleanups == old(cleanups)
    {
      if timer.Some? {
        return;
      }
      timer := Some(scheduledTimers);
      scheduledTimers := scheduledTimers + 1;
      launchedRuns := launchedRuns + ["startup"];
    }

    /** `stop`: invalidate the timer, if any, and forget it. */
    method Stop()
      requires Valid()
      modifies this
      ensures Valid() && timer == None
      ensures invalidatedTimers == old(invalidatedTimers) + (if old(timer).Some? then {old(timer).value} else {})
      ensures scheduledTimers == old(scheduledTimers) && isRunning == old(isRunning)
      ensures launchedRuns == old(launchedRuns) && cleanups == old(cleanups)
    {
      if timer.Some? {
        invalidatedTimers := invalidatedTimers + {timer.value};
      }
      timer := None;
    }

    /** The repeating timer fires: it launches a run with reason "timer". */
    method TimerFires()
      requires Valid() && timer.Some?
      modifies this
      ensures Valid() && launchedRuns == old(launchedRuns) + ["timer"]
      ensures timer == old(timer) && isRunning == old(isRunning) && cleanups == old(cleanups)
      ensures scheduledTimers == old(scheduledTimers) && invalidatedTimers == old(invalidatedTimers)
    {
      launchedRuns := launchedRuns + ["timer"];
    }

    /** `runNow`: launch a run with reason "manual". */
    method RunNow()
      requires Valid()
      modifies this
      ensures Valid() && launchedRuns == old(launchedRuns) + ["manual"]
      ensures timer == old(timer) && isRunning == old(isRunning) && cleanups == old(cleanups)
      ensures scheduledTimers == old(scheduledTimers) && invalidatedTimers == old(invalidatedTimers)
    {
      launchedRuns := launchedRuns + ["manual"];
    }

    /**
      `run(reason:)` up to its `await`: turned away while another run is in
      flight or while the library is disabled; otherwise it sets `isRunning`
      and starts a cleanup with the policy built from the settings as they are.
    */
    method RunEnter(reason: string) returns (entered: bool)
      requires Valid()
      modifies this
      ensures Valid()
      ensures entered <==> !old(isRunning) && settings.captureLibraryEnabled
      ensures !entered ==> isRunning == old(isRunning) && cleanups == old(cleanups)
      ensures entered ==> isRunning && cleanups == old(cleanups) + [CleanupPolicy(
        settings.captureLibraryRetentionDays, settings.captureLibraryMaxItems, settings.captureLibraryMaxBytes)]
      ensures timer == old(timer) && launchedRuns == old(launchedRuns)
      ensures scheduledTimers == old(scheduledTimers) && invalidatedTimers == old(invalidatedTimers)
    {
      if isRunning {
        return false;
      }
      if !settings.captureLibraryEnabled {
        return false;
      }
      isRunning := true;
      runsInFlight := runsInFlight + 1;
      var policy := CleanupPolicy(
        settings.captureLibraryRetentionDays, settings.captureLibraryMaxItems, settings.captureLibraryMaxBytes);
      cleanups := cleanups + [policy];
      entered := true;
    }

    /**
      `run(reason:)` after its `await`: record the cleanup time, then the
      `defer` clears `isRunning`.
    */
    method RunResume(now: int)
      requires Valid() && runsInFlight > 0
      modifies this, settings
      ensures Valid() && !isRunning
      ensures settings.captureLibraryLastCleanupAt == Some(now)
      ensures settings.captureLibraryEnabled == old(settings.captureLibraryEnabled)
      ensures settings.captureLibraryRetentionDays == old(settings.captureLibraryRetentionDays)
      ensures settings.captureLibraryMaxItems == old(settings.captureLibraryMaxItems)
      ensures settings.captureLibraryMaxBytes == old(settings.captureLibraryMaxBytes)
      ensures timer == old(timer) && launchedRuns == old(launchedRuns) && cleanups == old(cleanups)
      ensures scheduledTimers == old(scheduledTimers) && invalidatedTimers == old(invalidatedTimers)
    {
      settings.captureLibraryLastCleanupAt := Some(now);
      isRunning := false;
      runsInFlight := runsInFlight - 1;
    }
  }

  /** Calling `start` twice leaves the service as calling it once does. */
  method StartTwiceIsStartOnce(svc: CaptureLibraryCleanupService)
    requires svc.Valid() && svc.timer.None?
    modifies svc
    ensures svc.Valid()
    ensures svc.scheduledTimers == old(svc.scheduledTimers) + 1
    ensures svc.launchedRuns == old(svc.launchedRuns) + ["startup"]
  {
    svc.Start();
    svc.Start();
  }

  /** After `stop`, a later `start` schedules a new timer; the old one stays invalidated. */
  method StopThenStartSchedulesAgain(svc: CaptureLibraryCleanupService)
    requires svc.Valid() && svc.timer.Some?
    modifies svc
    ensures svc.Valid() && svc.timer == Some(old(svc.scheduledTimers))
    ensures old(svc.timer).value in svc.invalidatedTimers
    ensures svc.scheduledTimers == old(svc.scheduledTimers) + 1
  {
    svc.Stop();
    svc.Start();
  }

  /** A run attempted while another is suspended at its `await` starts no second cleanup. */
  method OverlappingRunIsTurnedAway(svc: CaptureLibraryCleanupService, now: int)
    requires svc.Valid() && !svc.isRunning && svc.settings.captureLibraryEnabled
    modifies svc, svc.settings
    ensures svc.Valid() && !svc.isRunning
    ensures |svc.cleanups| == |old(svc.cleanups)| + 1
    ensures svc.settings.captureLibraryLastCleanupAt == Some(now)
  {
    var first := svc.RunEnter("timer");
    var second := svc.RunEnter("manual");
    assert first && !second;
    svc.RunResume(now);
  }
}
