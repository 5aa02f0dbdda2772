/**
 The time after which an unhealthy node may be assumed rebooted (pkg/reboot/calculator.go).
 */
module Calculator {
  import opened Basics
  import opened Batches

  const MAX_TIME_FOR_NO_PEERS_RESPONSE := 30 * SECOND
  const DEFAULT_WATCHDOG_TIMEOUT := 60 * SECOND
  const REBOOT_BUFFER := 30 * SECOND

  /** The fields of the SelfNodeRemediationConfig spec that matter here. */
  datatype Config = Config(
    apiCheckInterval: int,
    apiServerTimeout: int,
    maxApiErrorThreshold: int,
    peerDialTimeout: int,
    peerRequestTimeout: int,
    safeTimeToAssumeNodeRebootedSeconds: Option<int>)

  /** The longest a round of peer queries may take. */
  function PeerRequestsDuration(cfg: Config, batches: int): int {
    batches * (cfg.peerDialTimeout + cfg.peerRequestTimeout)
  }

  /** Detecting the API failure, confirming it with the peers, and the watchdog with a buffer. */
  function MinimumRebootDuration(cfg: Config, batches: int, watchdogTimeout: int): int {
    cfg.maxApiErrorThreshold * (cfg.apiCheckInterval + cfg.apiServerTimeout)
    + Max(PeerRequestsDuration(cfg, batches), MAX_TIME_FOR_NO_PEERS_RESPONSE)
    + watchdogTimeout + REBOOT_BUFFER
  }

  /** The watchdog timeout annotated on the node, in whole seconds; absent if missing or malformed. */
  function AnnotatedTimeout(seconds: Option<int>): int {
    match seconds
    case Some(s) => s * SECOND
    case None => DEFAULT_WATCHDOG_TIMEOUT
  }

  /** What an agent annotates for a timeout: seconds, rounded up. */
  function AnnotatedSeconds(timeout: int): int {
    CeilDiv(timeout, SECOND)
  }

  /** What the manager reads back covers the timeout, by less than a second more. */
  lemma AnnotationCovers(timeout: int)
    ensures timeout <= AnnotatedTimeout(Some(AnnotatedSeconds(timeout))) < timeout + SECOND
  {
    CeilDivDef(timeout, SECOND);
  }

  /**
   The time to wait for the reboot of a node in a cluster with that many workers: the specified time, but never less
   than the calculated minimum.
   */
  function RebootDuration(cfg: Config, workers: nat, annotation: Option<int>): (d: int)
    ensures d >= MinimumRebootDuration(cfg, BatchesLeft(workers, workers), AnnotatedTimeout(annotation))
  {
    var minimum := MinimumRebootDuration(cfg, BatchesLeft(workers, workers), AnnotatedTimeout(annotation));
    match cfg.safeTimeToAssumeNodeRebootedSeconds
    case None => minimum
    case Some(seconds) => Max(minimum, seconds * SECOND)
  }

  /** A missing annotation counts as a minute, and every annotated second as a second more to wait. */
  lemma AnnotationCounts(cfg: Config, workers: nat, seconds: int)
    requires cfg.safeTimeToAssumeNodeRebootedSeconds.None?
    ensures RebootDuration(cfg, workers, None) == RebootDuration(cfg, workers, Some(60))
    ensures RebootDuration(cfg, workers, Some(seconds)) == RebootDuration(cfg, workers, Some(0)) + seconds * SECOND
  {
  }

  class RebootDurationCalculator {
    var snrConfig: Option<Config>

    constructor ()
      ensures snrConfig == None
    {
      snrConfig := None;
    }

    method SetConfig(config: Option<Config>)
      modifies this
      ensures snrConfig == config
    {
      snrConfig := config;
    }

    /**
     A specified time is honoured exactly if it is not below the calculated minimum; it fails exactly without a
     configuration or when the workers cannot be listed.
     */
    method GetRebootDuration(annotation: Option<int>, workers: Option<nat>) returns (r: Option<int>)
      ensures r.None? <==> snrConfig.None? || workers.None?
      ensures r.Some? ==> r.value == RebootDuration(snrConfig.value, workers.value, annotation)
    {
      if snrConfig.None? {
        return None;
      }
      var watchdogTimeout := if annotation.Some? then annotation.value * SECOND else 60 * SECOND;
      var minimum := CalculateMinimumRebootDuration(snrConfig.value, watchdogTimeout, workers);
      if minimum.None? {
        return None;
      }
      var spec := snrConfig.value.safeTimeToAssumeNodeRebootedSeconds;
      if spec.None? {
        return minimum;
      }
      var specDuration := spec.value * SECOND;
      if specDuration < minimum.value {
        return minimum;
      }
      return Some(specDuration);
    }
  }

  method CalculateMinimumRebootDuration(cfg: Config, watchdogTimeout: int, workers: Option<nat>)
    returns (r: Option<int>)
    ensures r == if workers.None? then None
                 else Some(MinimumRebootDuration(cfg, BatchesLeft(workers.value, workers.value), watchdogTimeout))
  {
    var apiCheckDuration := cfg.apiCheckInterval + cfg.apiServerTimeout;
    apiCheckDuration := apiCheckDuration * cfg.maxApiErrorThreshold;
    if workers.None? {
      return None;
    }
    var peerRequestsDuration := GetNrOfBatches(workers.value);
    peerRequestsDuration := peerRequestsDuration * (cfg.peerDialTimeout + cfg.peerRequestTimeout);
    if peerRequestsDuration < MAX_TIME_FOR_NO_PEERS_RESPONSE {
      peerRequestsDuration := MAX_TIME_FOR_NO_PEERS_RESPONSE;
    }
    var rebootDuration := watchdogTimeout;
    rebootDuration := rebootDuration + 30 * SECOND;
    return Some(apiCheckDuration + peerRequestsDuration + rebootDuration);
  }
}
