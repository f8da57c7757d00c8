# PlayKit decoder-workaround probe

This project models PlayKit's `MediaCodecWorkaroundTest`. It is a one-shot probe that finds out whether the device needs the dummy-surface rendering workaround. When the verdict is "workaround required", it also reports it to a diagnostics service, at most once per OS build fingerprint until the build changes. Only the last reported build is remembered, so a device that returns to an earlier build reports it again. The "no workaround" verdict is never reported.

The probe has two parts:

- **Verdict.** The player's callbacks decide the verdict. Reaching the Ready playback state records "no workaround". A player error caused by a decoder-initialization failure records "workaround required" and opens the report gate. Any other error changes nothing.
- **Report gate.** The gate stops when the in-process "report sent" flag is set. It also stops, after setting that flag, when the persisted fingerprint entry (key `Build.FINGERPRINT.DummySurface`) already names the current build. Otherwise the background task builds the report and sends it. If building the payload fails, the task sends the fallback error report instead. Only after a confirmed send does it persist the fingerprint and set the flag.

The model has two modules:

- `WorkaroundSpec` (`workaround_spec.dfy`) holds the pure specification. It has one function per listener callback, per report-gate routine and for the background task, and a `Run` function over a device's history. The start of a probe (`executeTest`) has no function of its own: it changes no state, so it is the `StartProbe` step of a history. A history is a sequence of steps: probe starts, callbacks and process restarts. The module also holds lemmas about these histories.
- `MediaCodecWorkaround` (`media_codec_workaround_test.dfy`) holds the class `MediaCodecWorkaroundTest`. Its fields are the two static flags and the persisted settings store. Each callback, gate and task method updates those fields step by step, with the source's early returns, and is proved equal to its specification function. `ExecuteTest` changes no field; its frame says so. On Ready, the source calls `workaroundRequired(context, false)`; the model writes the verdict directly, which `SetWorkaroundRequired` shows is all that call does.

Collaborators become inputs:

- `Device` stands for the values that are constant within one process: `Build.FINGERPRINT`, `PKDeviceCapabilities.systemInfo()` and the ExoPlayer version string.
- `Env` stands for the answers one callback sees: whether building the JSON payload threw, the string `getErrorReport` returns, and the boolean `sendReport` returns.
- The settings store is a `map<string, string>`. `Saved` gives the optional value under the fingerprint key, which is what `getString(key, null)` returns.

## Model

| member | source | states |
|---|---|---|
| WorkaroundSpec.RunReportTask | playkit/src/main/java/com/kaltura/playkit/player/MediaCodecWorkaroundTest.java:138-158 | exactly one send attempt; the payload when building it succeeds (report type `DummySurfaceWorkaround`, the device's system info, workaround flag true, the engine version), else the fallback error report; a failed send leaves the whole state unchanged; a confirmed send persists the current fingerprint and sets the sent flag; no other settings entry and not the verdict changes |
| WorkaroundSpec.MaybeSendReport | playkit/src/main/java/com/kaltura/playkit/player/MediaCodecWorkaroundTest.java:121-160 | a send is attempted iff the sent flag is clear and the persisted fingerprint is not the current build; sent flag set means no change at all; persisted fingerprint equal to the build means only the sent flag is set; the settings store changes only with a confirmed send |
| WorkaroundSpec.SetWorkaroundRequired | playkit/src/main/java/com/kaltura/playkit/player/MediaCodecWorkaroundTest.java:105-110 | the verdict is recorded; false never reaches the gate and changes nothing else; true goes through the report gate |
| WorkaroundSpec.OnPlayerError | playkit/src/main/java/com/kaltura/playkit/player/MediaCodecWorkaroundTest.java:79-84 | a decoder-initialization cause sets the verdict to true and runs the report gate; any other cause changes no flag, no settings entry and sends nothing |
| WorkaroundSpec.OnPlayerStateChanged | playkit/src/main/java/com/kaltura/playkit/player/MediaCodecWorkaroundTest.java:87-94 | never a send attempt, sent flag and settings untouched; Ready sets the verdict to false whatever `playWhenReady` is, other playback states leave it |
| WorkaroundSpec.Restart | playkit/src/main/java/com/kaltura/playkit/player/MediaCodecWorkaroundTest.java:42-44 | a new process starts with both static flags false and keeps the persisted store |
| WorkaroundSpec.NoAttemptOnceSaved | playkit/src/main/java/com/kaltura/playkit/player/MediaCodecWorkaroundTest.java:122-133 | once the persisted entry names the build, no later history (callbacks, probes, restarts) makes any send attempt, and the entry stays |
| WorkaroundSpec.AtMostOneDelivery | playkit/src/main/java/com/kaltura/playkit/player/MediaCodecWorkaroundTest.java:122-157 | over any history of one build, across process restarts, at most one send is confirmed |
| WorkaroundSpec.PersistedOnlyAfterDelivery | playkit/src/main/java/com/kaltura/playkit/player/MediaCodecWorkaroundTest.java:153-157 | after any history the persisted fingerprint is unchanged if no send was confirmed and names the build otherwise; no other settings entry ever changes |
| WorkaroundSpec.RunKeepsConsistent | playkit/src/main/java/com/kaltura/playkit/player/MediaCodecWorkaroundTest.java:130-131 | the sent flag is only ever set while the persisted entry names the current build, and every history keeps that |
| WorkaroundSpec.FailedSendIsRetried | playkit/src/main/java/com/kaltura/playkit/player/MediaCodecWorkaroundTest.java:153 | a failed send changes only the verdict, so the next decoder failure in the same process attempts again |
| WorkaroundSpec.NewBuildReopensGate | playkit/src/main/java/com/kaltura/playkit/player/MediaCodecWorkaroundTest.java:127-156 | the entry holds only the last reported build: after an OS update a decoder failure attempts again, and once the new build is reported, returning to the old build reopens the gate for it |
| WorkaroundSpec.VerdictIsLastDecisive | playkit/src/main/java/com/kaltura/playkit/player/MediaCodecWorkaroundTest.java:79-93 | the cached verdict after any history equals the verdict of its last decisive step (decoder failure, Ready, or restart), by an independent backward definition |
| WorkaroundSpec.ScenarioFirstReportOnly | playkit/src/main/java/com/kaltura/playkit/player/MediaCodecWorkaroundTest.java:121-160 | build "X1", nothing persisted, two decoder failures: exactly one delivered attempt, persisted entry "X1" |
| WorkaroundSpec.ScenarioAlreadyReported | playkit/src/main/java/com/kaltura/playkit/player/MediaCodecWorkaroundTest.java:127-133 | persisted "X1", build "X1": a failing probe in a new process sends nothing and only sets the flags |
| MediaCodecWorkaround.MediaCodecWorkaroundTest.constructor | playkit/src/main/java/com/kaltura/playkit/player/MediaCodecWorkaroundTest.java:42-44 | process start: both flags false, the given persisted store |
| MediaCodecWorkaround.MediaCodecWorkaroundTest.ExecuteTest | playkit/src/main/java/com/kaltura/playkit/player/MediaCodecWorkaroundTest.java:68-73 | without a DRM session manager the probe stops before building a player; no field changes either way |
| MediaCodecWorkaround.MediaCodecWorkaroundTest.OnPlayerError | playkit/src/main/java/com/kaltura/playkit/player/MediaCodecWorkaroundTest.java:79-84 | new fields and the attempt are those of `WorkaroundSpec.OnPlayerError` |
| MediaCodecWorkaround.MediaCodecWorkaroundTest.OnPlayerStateChanged | playkit/src/main/java/com/kaltura/playkit/player/MediaCodecWorkaroundTest.java:87-94 | new fields are those of `WorkaroundSpec.OnPlayerStateChanged`, which makes no attempt |
| MediaCodecWorkaround.MediaCodecWorkaroundTest.WorkaroundRequired | playkit/src/main/java/com/kaltura/playkit/player/MediaCodecWorkaroundTest.java:105-110 | new fields and the attempt are those of `WorkaroundSpec.SetWorkaroundRequired` |
| MediaCodecWorkaround.MediaCodecWorkaroundTest.MaybeSendReport | playkit/src/main/java/com/kaltura/playkit/player/MediaCodecWorkaroundTest.java:121-136 | the early returns update the fields as `WorkaroundSpec.MaybeSendReport` says |
| MediaCodecWorkaround.MediaCodecWorkaroundTest.RunReportTask | playkit/src/main/java/com/kaltura/playkit/player/MediaCodecWorkaroundTest.java:138-158 | new fields and the attempt are those of `WorkaroundSpec.RunReportTask` |

## Left out

- Building the ExoPlayer pipeline (data source, track selector, renderers, DASH source, `prepare`, `release`) is left out. It wraps a library that is not part of this model. Only the two callbacks it produces are modelled, as `Event` values.
- The fake DRM callback and its 10-second sleep are left out. They are a timing stub with no state.
- `AsyncTask.execute` is not modelled as a thread. The runnable runs to completion as one synchronous step, so races on the static flags are not captured. One example: two decoder failures arriving before the first send completes.
- JSON serialisation is not modelled. The payload is the structured `Report.Payload` value, not its serialised text.
- `systemInfo`, `getErrorReport`, `sendReport` and `Build.FINGERPRINT` are not modelled. They become the `Device` and `Env` inputs.
- The `SharedPreferences` I/O is not modelled. The store becomes the `prefs` map of `Probe` and of the class.
- Logging (`Log.e`, `printStackTrace`) is left out because it changes no state.
- A history may deliver callbacks after a probe started without a DRM session manager, or after `release`. The real player would not deliver them. The lemmas hold for every history, so they also hold for those that can really happen.
- The persisted entry is a map entry under the fixed key, not a single optional field. `Saved` gives the optional view.
- `AudioTrack` and `ResultElement` are not part of this model. They are a data holder and an interface with no behaviour.
- WorkaroundSpec.AtMostOneDelivery: assumes the persisted store survives a process restart exactly as last written. The source writes the entry with `apply()`, which completes on disk asynchronously. If the process dies after a confirmed send but before that write lands, the entry is lost and the next process reports again. The model does not capture this.
- WorkaroundSpec.AtMostOneDelivery: a history keeps one `Device` across process restarts, so an OS update inside a history is not modelled. The bound of one confirmed send holds per uninterrupted stretch of one build. A device that goes from build A to B and back to A reports A twice, because the entry remembers only the last reported build; `NewBuildReopensGate` states this.
