/** The probe as the source keeps it: the two process-wide flags and the persisted settings
    store are fields updated in place by the listener callbacks, the report gate and the
    background report task. Each method is proved equal to its specification in
    WorkaroundSpec, where the properties of the gate are proved. */
module MediaCodecWorkaround {
  import opened WorkaroundSpec

  class MediaCodecWorkaroundTest {
    /** The OS build and the diagnostics service's fixed answers for this process. */
    const device: Device
    var workaroundRequired: bool
    var dummySurfaceWorkaroundRequiredReportSent: bool
    /** The SDK's persisted settings store. */
    var prefs: map<string, string>

    ghost function State(): Probe
      reads this
    {
      Probe(workaroundRequired, dummySurfaceWorkaroundRequiredReportSent, prefs)
    }

    /** A process start over the persisted store left by earlier processes. */
    constructor (device: Device, prefs: map<string, string>)
      ensures this.device == device
      ensures State() == Probe(false, false, prefs)
    {
      this.device := device;
      this.prefs := prefs;
      workaroundRequired := false;
      dummySurfaceWorkaroundRequiredReportSent := false;
    }

    /** Starts a probe; without a DRM session manager it returns before building a player.
        Either way it changes no field (it has no modifies clause): the verdict arrives as a
        later callback. The result only records which branch of the early exit ran. */
    method ExecuteTest(drmSessionManager: bool) returns (prepared: bool)
      ensures prepared == drmSessionManager
    {
      if !drmSessionManager {
        return false;
      }
      prepared := true;
    }

    /** The listener's error callback. */
    method OnPlayerError(cause: ErrorCause, env: Env) returns (attempt: Option<Attempt>)
      modifies this
      ensures Outcome(State(), attempt) == WorkaroundSpec.OnPlayerError(device, old(State()), cause, env)
    {
      attempt := None;
      if cause == DecoderInitialization {
        attempt := WorkaroundRequired(true, env);
      }
    }

    /** The listener's state callback; recording the verdict false never reaches the gate. */
    method OnPlayerStateChanged(playWhenReady: bool, playbackState: PlaybackState)
      modifies this
      ensures Outcome(State(), None) == WorkaroundSpec.OnPlayerStateChanged(old(State()), playWhenReady, playbackState)
    {
      if playbackState == Ready {
        workaroundRequired := false;
      }
    }

    method WorkaroundRequired(b: bool, env: Env) returns (attempt: Option<Attempt>)
      modifies this
      ensures Outcome(State(), attempt) == SetWorkaroundRequired(device, old(State()), b, env)
    {
      workaroundRequired := b;
      attempt := None;
      if b {
        attempt := MaybeSendReport(env);
      }
    }

    method MaybeSendReport(env: Env) returns (attempt: Option<Attempt>)
      modifies this
      ensures Outcome(State(), attempt) == WorkaroundSpec.MaybeSendReport(device, old(State()), env)
    {
      if dummySurfaceWorkaroundRequiredReportSent {
        return None;
      }
      var savedFingerprint := Saved(prefs);
      if savedFingerprint == Some(device.fingerprint) {
        dummySurfaceWorkaroundRequiredReportSent := true;
        return None;
      }
      attempt := RunReportTask(env);
    }

    /** The background task's body, run to completion as one step. */
    method RunReportTask(env: Env) returns (attempt: Option<Attempt>)
      modifies this
      ensures Outcome(State(), attempt) == WorkaroundSpec.RunReportTask(device, old(State()), env)
    {
      var reportString: Report;
      if env.payloadOk {
        reportString := Payload(REPORT_TYPE, device.systemInfo, true, device.engineVersion);
      } else {
        reportString := ErrorReport(env.errorReport);
      }
      if !env.sendOk {
        return Some(Attempt(reportString, false));
      }
      prefs := prefs[PREFS_ENTRY_FINGERPRINT := device.fingerprint];
      dummySurfaceWorkaroundRequiredReportSent := true;
      attempt := Some(Attempt(reportString, true));
    }
  }
}
