# A Dafny model of the Template runtime managers

This project models the runtime core of a Unity kiosk template (the
`Wonjeong` namespaces), one Dafny module per component:

- **Sound** (`SoundManager`):
  - the settings table keyed by sound name;
  - the clip cache capped at 20 entries, where a full cache evicts one entry on a miss;
  - the load-and-play routine, split at its web request;
  - BGM replay rules and the cancellable BGM fade-out;
  - audio-type detection by file extension;
  - clearing the cache.
- **Video** (`VideoManager`):
  - the list of render textures the manager created;
  - wiring a fresh texture to a player and an image;
  - the prepare-then-play handshake with its 30-second timeout and error callback;
  - the Windows rule that prefers an `.mp4` for a `.webm` path.
- **Logging** (`LogSaver`):
  - trigger levels and the sticky "should send" flag;
  - the line buffer and its stack-trace lines;
  - the quit-time save and send;
  - the pass that mails earlier logs and stops at the first failure.
- **Fade** (`FadeManager`):
  - the transition gate;
  - the canvas order and input blocking while a fade runs;
  - the final alpha of each direction;
  - the completion callback, handed back after the flag is cleared.
- **Game** (`GameManager`):
  - the inactivity timer;
  - the D/M debug keys;
  - the return-to-title routine that fades out, resets and fades back in.
  - The module also proves a behaviour of the code: when the routine's fade-out is refused, it waits for ever.
- **Closer** (`GameCloser`): a click counter that quits after the configured number of clicks, reset after a quiet period.
- **CoroutineData**: the memo table of `WaitForSeconds` objects.

The module **TemplateData** holds the settings record shapes. Three helper modules sit under the components:

- **Paths**: .NET `Path.GetExtension`, `Path.ChangeExtension`, backslash replacement and ASCII lower-casing.
- **Mathf**: `Clamp01`, `Lerp` and `Max`.
- **Wrappers**: `Option`.

Modelling conventions:

- Engine objects are identities. An `AudioClip` is a `ClipId`. Render textures, players, images and audio sources are small classes whose fields are the engine state the code touches.
- A coroutine is a method that runs the body up to its first `yield`, taking the current frame's `deltaTime`, plus a method per resumption. For example:
  - `FadeRoutine`/`Step`
  - `FadeOutBGM`/`FadeOutStep`
  - `PrepareSession.Begin`/`Resume`
  - `LoadAndPlayBegin`/`LoadAndPlayComplete`
- Calls into code or services not shown here become parameters:
  - `Path.Combine`, `Uri.AbsoluteUri`, `File.Exists` and `Path.GetDirectoryName`;
  - the SMTP outcome (`sendOk`), the outcome of writing and creating files, and the directory listing;
  - the clock's strings (`fileName`, `time`);
  - what `JsonLoader.Load` returned, as an `Option`.
- The file system is an object holding a set of directories and a map of files.

Where the code and the design description disagree, the model follows the code:

- **Eviction order.** The cache does not evict the least-recently-used entry. It removes `Keys.First()`, and hits do not reorder anything. The model lets the victim be any held key.
- **No coalescing of loads.** Two misses on one key both load. The second `Dictionary.Add` throws, so that routine ends with nothing added or played.
- **Failed loads keep the eviction.** A failed load does not undo the eviction made for it.
- **The cap can be exceeded.** The cap holds only while loads do not overlap. `Sound.OverlappingMissesOverfill` shows 21 clips after two overlapping misses on a 19-clip cache.

## Model

Specification functions without a row of their own (`Sound.GetAudioType`, `Video.ResolvePlayableUrl`, `Logging.IsTrigger`, `Logging.PendingPass`) are covered by the lemma rows that cite the same lines, and helpers (`Logging.Others`, `Sound.BeginTwoMisses` and the like) need no row.

| member | source | states |
|---|---|---|
| Paths.Extension | Runtime/UI/SoundManager.cs:233 | the extension is empty or a dot-led suffix of the path of length at least 2 with no dot or separator after its dot |
| Paths.ExtensionOfName | Runtime/UI/SoundManager.cs:233 | "stem.name" with a dot-free, separator-free name has extension ".name" |
| Paths.NoDotNoExtension | Runtime/UI/SoundManager.cs:233 | a path with no dot has the empty extension |
| Paths.ChangeExtension | Runtime/UI/VideoManager.cs:56 | an empty path stays empty; otherwise the result is a prefix of the path followed by the new dot-led extension |
| Paths.ChangeExtensionOfName | Runtime/UI/VideoManager.cs:56 | changing the extension of "stem.name" to ext gives stem + ext |
| Paths.ReplaceBackslashes | Runtime/UI/SoundManager.cs:187 | same length, every backslash becomes '/', every other character kept, so no backslash is left |
| Mathf.Clamp01 | Runtime/UI/VideoManager.cs:118 | the result lies in [0, 1], equals t inside that range and the nearer bound outside it |
| Mathf.Lerp | Runtime/UI/SoundManager.cs:157 | the interpolation is a at t <= 0 and b at t >= 1 |
| Mathf.Max | Runtime/UI/VideoManager.cs:81-82 | the result is one of the arguments and at least both |
| Sound.AudioTypeOfFileName | Runtime/UI/SoundManager.cs:231-241 | for "stem.name": wav, mp3 and ogg in any ASCII case give WAV, MPEG and OGGVORBIS; every other name gives UNKNOWN |
| Sound.PathWithoutDotIsUnknown | Runtime/UI/SoundManager.cs:231-241 | a path without a dot is UNKNOWN |
| Sound.AddAllKeepsExisting | Runtime/UI/SoundManager.cs:74-78 | loading the sounds never replaces an entry already in the table |
| Sound.AddAllKeys | Runtime/UI/SoundManager.cs:72-78 | the table's keys become exactly the old keys plus every configured key |
| Sound.FirstEntryWins | Runtime/UI/SoundManager.cs:74-78 | for a new key, the first configured sound with that key is the one stored; later duplicates are ignored |
| Sound.SoundManager.constructor | Runtime/UI/SoundManager.cs:43-80 | Awake: empty cache, no loads or fade, BGM stopped; the table is built from the settings, and no file or no sounds gives an empty table |
| Sound.SoundManager.LoadSoundSettings | Runtime/UI/SoundManager.cs:69-80 | the loop leaves the table equal to adding each configured sound if absent, in file order; nothing changes without settings or sounds |
| Sound.SoundManager.Play | Runtime/UI/SoundManager.cs:208-228 | BGM: the same clip already playing only gets its volume reset, otherwise the clip is replaced and playback starts; SFX: a one-shot is played and the SFX clip is untouched |
| Sound.SoundManager.MakeRoom | Runtime/UI/SoundManager.cs:177-184 | on a cache of 20 or more exactly one held entry is removed and unloaded; otherwise the cache and the unload log are unchanged |
| Sound.SoundManager.LoadAndPlayHit | Runtime/UI/SoundManager.cs:170-174 | a hit plays the cached clip and leaves the cache as it was |
| Sound.SoundManager.LoadAndPlayMiss | Runtime/UI/SoundManager.cs:175-192 | a miss makes room and suspends on a request for the backslash-free streaming-assets path and its audio type; with no other load pending the cache plus pending loads stay within 20 |
| Sound.SoundManager.LoadAndPlayBegin | Runtime/UI/SoundManager.cs:166-192 | a hit plays at once with no cache change, no eviction and no request; a miss returns a fresh ticket, makes room and leaves playback untouched |
| Sound.SoundManager.LoadAndPlayComplete | Runtime/UI/SoundManager.cs:192-229 | success stores the clip under the key and plays it, and on BGM the new clip replaces the current one and plays; a failure, or a key added meanwhile (Add throws), adds and plays nothing and keeps any eviction; the capacity bound is preserved |
| Sound.SoundManager.PlayBGM | Runtime/UI/SoundManager.cs:84-96 | an unknown key changes nothing; a known key cancels any fade, leaving a null handle, and begins the BGM load-and-play |
| Sound.SoundManager.PlaySFX | Runtime/UI/SoundManager.cs:98-103 | an unknown key changes nothing; a known key begins the SFX load-and-play |
| Sound.SoundManager.StopBGM | Runtime/UI/SoundManager.cs:105-114 | any fade is cancelled with a null handle and the BGM source is stopped |
| Sound.SoundManager.FadeOutBGM | Runtime/UI/SoundManager.cs:122-130 | nothing happens unless BGM is playing; otherwise any fade is replaced by one from the current volume, with the given duration, or 0.01 when that is not positive, after one frame |
| Sound.SoundManager.FadeOutStep | Runtime/UI/SoundManager.cs:146-164 | while the timer is short of the duration the volume follows Lerp toward 0; afterwards the volume is 0, the source stopped and the handle null |
| Sound.SoundManager.ClearCache | Runtime/UI/SoundManager.cs:132-140 | every cached clip is unloaded exactly once, with its key, and nothing else; the cache ends empty |
| Sound.SoundManager.OnDestroy | Runtime/UI/SoundManager.cs:243-246 | every cached clip is unloaded once, the old unload log is kept as a prefix, nothing else is unloaded, the cache is emptied and no load or fade survives |
| Sound.OverlappingMissesOverfill | Runtime/UI/SoundManager.cs:178-198 | two overlapping misses on a cache one short of full, both loaded, leave 21 clips |
| Video.TextureSize | Runtime/UI/VideoManager.cs:80-83 | each side is max(2, requested) |
| Video.RemoveFirst | Runtime/UI/VideoManager.cs:75 | a list without x is unchanged; otherwise it is one shorter |
| Video.RemoveFirstAt | Runtime/UI/VideoManager.cs:75 | removing x keeps everything before its first occurrence and everything after it |
| Video.RemoveFirstMultiset | Runtime/UI/VideoManager.cs:75 | removing x takes out exactly one x, if there is one, and nothing else |
| Video.PrepareOutcome | Runtime/UI/VideoManager.cs:149-163 | exactly one outcome: failed iff an error arrived, timed out iff no error and not prepared, played iff prepared and error-free |
| Video.ResolveWebm | Runtime/UI/VideoManager.cs:48-61 | for a relative path ending in .webm and a full path "stem.name" with name webm in any ASCII case: on Windows with "stem.mp4" present that is played, otherwise the full path |
| Video.ResolveOther | Runtime/UI/VideoManager.cs:48-61 | any other path plays its full backslash-free streaming-assets path |
| Video.VideoManager.WireRawImageAndRenderTexture | Runtime/UI/VideoManager.cs:64-92 | a null player returns null and changes nothing; otherwise a live previous target is taken off the list, released and destroyed, and a fresh created texture of the clamped size and depth 24 is appended, targeted and shown on a non-null image; the player's other settings are untouched |
| Video.VideoManager.OnDestroy | Runtime/UI/VideoManager.cs:166-179 | every listed texture not already destroyed is released and destroyed; the list ends empty |
| Video.PrepareSession.Begin | Runtime/UI/VideoManager.cs:95-134 | a null player or a null or empty URL is rejected with the player and audio untouched; otherwise the URL source is set, the audio routed at Clamp01(volume), the handler subscribed and Prepare requested |
| Video.PrepareSession.ErrorReceived | Runtime/UI/VideoManager.cs:125-129 | records the error only while the handler is subscribed |
| Video.PrepareSession.Resume | Runtime/UI/VideoManager.cs:136-163 | the wait continues, adding dt, while not prepared, under 30 s and error-free; otherwise the handler is unsubscribed and exactly one outcome is taken, playing only when prepared and error-free |
| Logging.TriggerLevelsNested | Runtime/Utils/LogSaver.cs:113-127 | ErrorOrAbove triggers exactly on the stack-trace types; WarningOrAbove on all but Log; Everything on all; the levels are nested |
| Logging.LinesFor | Runtime/Utils/LogSaver.cs:126-130 | every log call appends the timestamped entry, plus a stack-trace line exactly for Error, Exception and Assert |
| Logging.PendingSkipsCurrent | Runtime/Utils/LogSaver.cs:172-174 | the pending pass never mails the current log |
| Logging.PendingSentSucceeded | Runtime/Utils/LogSaver.cs:175-209 | every mailed file was present when tried and its mail succeeded |
| Logging.PassDeletesSent | Runtime/Utils/LogSaver.cs:172-177 | the pass leaves the file map minus exactly the files it mailed |
| Logging.PendingStopsAtFirstFailure | Runtime/Utils/LogSaver.cs:172-177 | mailed files are a prefix of the non-current listing in order; if the pass stopped early, the next file was missing or its mail failed |
| Logging.LogSaver.Awake | Runtime/Utils/LogSaver.cs:53-93 | the folder is the custom path iff custom is asked for and non-empty, else Logs beside the data folder; a failed folder creation leaves no log path; HandleLog is subscribed |
| Logging.LogSaver.OnDestroy | Runtime/Utils/LogSaver.cs:106-109 | HandleLog is unsubscribed |
| Logging.LogSaver.HandleLog | Runtime/Utils/LogSaver.cs:111-131 | the flag becomes old flag or trigger(type) and is never cleared; the buffer grows by that call's lines whatever the level |
| Logging.LogSaver.LogMessageReceived | Runtime/Utils/LogSaver.cs:92-108 | a log line reaches HandleLog only while subscribed |
| Logging.LogSaver.SaveLogToFile | Runtime/Utils/LogSaver.cs:150-163 | the buffer is written to the log path only when it is non-empty, the path non-null and non-empty, and the write succeeds |
| Logging.LogSaver.TrySendSingleLog | Runtime/Utils/LogSaver.cs:180-216 | true iff the file exists and the mail went out; on true the file is deleted, otherwise no file changes |
| Logging.LogSaver.OnApplicationQuit | Runtime/Utils/LogSaver.cs:133-148 | save and, in a player with mail on, send happen only when the flag is set; the file map is then the saved map, minus the log file exactly when it is present after the save and its mail goes out; the buffer is empty after every quit |
| Logging.LogSaver.TrySendPendingLogs | Runtime/Utils/LogSaver.cs:165-178 | nothing without the folder; otherwise exactly the files PendingPass names are deleted, by the loop with its skip and its break |
| Logging.LogSaver.Start | Runtime/Utils/LogSaver.cs:95-104 | the pending pass runs only outside the editor with mail enabled |
| Fade.FadeAlpha | Runtime/UI/FadeManager.cs:98-102 | alpha stays in [0, 1], starts at the direction's start alpha and is the end alpha once elapsed reaches the duration |
| Fade.FadeAlphaMonotone | Runtime/UI/FadeManager.cs:99-103 | as time passes a fade-out only darkens and a fade-in only lightens |
| Fade.FadeManager.CreateFadeUI | Runtime/UI/FadeManager.cs:47-76 | the initial state is alpha 0, sorting order -1, raycast off and no fade |
| Fade.FadeManager.Finish | Runtime/UI/FadeManager.cs:106-116 | from the top, blocking canvas the start left: the end alpha is set exactly; after a fade-in the order becomes -1 and raycast off, after a fade-out both stay as they were; the flag is cleared and the callback returned |
| Fade.FadeManager.FadeRoutine | Runtime/UI/FadeManager.cs:90-104 | the flag goes up with order 999 and raycast on; a duration <= 0 skips the loop and ends at once |
| Fade.FadeManager.FadeOut | Runtime/UI/FadeManager.cs:78-82 | refused while a fade runs, changing nothing and returning no callback; otherwise a fade to black starts |
| Fade.FadeManager.FadeIn | Runtime/UI/FadeManager.cs:84-88 | refused while a fade runs, changing nothing and returning no callback; otherwise a fade to clear starts |
| Fade.FadeManager.Step | Runtime/UI/FadeManager.cs:99-116 | a resumption either runs one more loop frame or ends the fade with the flag down before the callback is handed back |
| Game.GameManager.Start | Runtime/Core/GameManager.cs:23-51 | the cursor is hidden, the settings are applied (or the defaults 60 and 1.0 kept) and a showing reporter is hidden |
| Game.GameManager.LoadSettings | Runtime/Core/GameManager.cs:53-61 | loaded settings replace the inactivity limit and fade time; otherwise both are kept |
| Game.GameManager.Update | Runtime/Core/GameManager.cs:63-80 | D with a reporter toggles the control panel and hides the reporter; M toggles the cursor only otherwise; during a transition the timer neither grows nor resets; a stalled routine stays stalled; otherwise the inactivity outcome of HandleInactivity, down to the started fade-out with the routine's callback |
| Game.GameManager.HandleInactivity | Runtime/Core/GameManager.cs:82-103 | a key or touch resets the timer to 0; otherwise it grows by dt, and at the limit ReturnToTitle's outcome follows: no manager drops the flag, a busy one stalls the routine, an idle one runs the fade-out carrying the routine's callback, and a non-positive fade time resets the timer to 0 with the screen clear |
| Game.GameManager.ReturnToTitle | Runtime/Core/GameManager.cs:105-125 | a no-op while transitioning; a missing fade manager drops the flag; a refused FadeOut stalls the routine; otherwise a fade-out with the routine's callback starts, or with a non-positive fade time the whole return completes at once |
| Game.GameManager.DeliverCallback | Runtime/Core/GameManager.cs:122-125 | the routine's own callback sets fadeDone; no other callback ends a stall |
| Game.GameManager.FadeFrame | Runtime/Core/GameManager.cs:122-125 | a fade-out carrying the routine's callback that ends this frame sets fadeDone, and otherwise fadeDone is kept; the fade manager is untouched when idle, advances elapsed by dt while short of the duration, and otherwise ends with its final alpha, the flag down and the canvas of its direction |
| Game.GameManager.ResumeRoutine | Runtime/Core/GameManager.cs:125-139 | after the callback the timer is 0, the flag dropped and a fade-in of the configured time asked for; until then nothing changes |
| Game.StalledForever | Runtime/Core/GameManager.cs:77-125 | once stalled, the manager stays transitioning with a frozen timer on every sequence of frames |
| Game.StallDuringFadeIn | Runtime/Core/GameManager.cs:98-125 | with limit 0, a quiet frame during a fade-in reaches the stall |
| Closer.GameCloser.Start | Runtime/Utils/GameCloser.cs:18-66 | the close setting comes from the settings file; without one the component is disabled; with one the button is anchored at its position and an image takes its alpha |
| Closer.GameCloser.Click | Runtime/Utils/GameCloser.cs:82-95 | ignored without a close setting; otherwise counting starts and the count grows by one; quit iff the count reaches numToClose |
| Closer.GameCloser.ResetClickCount | Runtime/Utils/GameCloser.cs:97-102 | the count, timer and counting flag are cleared |
| Closer.GameCloser.Update | Runtime/Utils/GameCloser.cs:68-79 | nothing while disabled or not counting; otherwise dt is added and reaching the reset time clears the count |
| Closer.ClickBurst | Runtime/Utils/GameCloser.cs:82-95 | n clicks in a row from rest quit iff n >= numToClose |
| CoroutineData.CoroutineData.constructor | Runtime/Utils/CoroutineData.cs:10-12 | the memo table starts empty |
| CoroutineData.CoroutineData.GetWaitForSeconds | Runtime/Utils/CoroutineData.cs:21-29 | a stored duration returns its object with the table unchanged; a new one is created, stored and returned; every object waits for its key |
| CoroutineData.SameInstance | Runtime/Utils/CoroutineData.cs:21-29 | two requests for one duration return the same object, whatever requests come between |

## Left out

- Singletons: the `Instance` getters, duplicate destruction in `Awake` and `DontDestroyOnLoad`. Each model object is the one instance.
- `SoundManager.InitSources`: only the loop and playOnAwake flags of the sources, which no modelled operation reads. `StopSFX` is not modelled: the SFX source's playing state is not represented, because one-shots are kept as a log.
- `Sound.SoundManager.LoadAndPlayComplete`: `DownloadHandlerAudioClip.GetContent` creates a new clip, so a loaded `ClipId` is required to differ from every cached clip and from the BGM source's clip.
- `Sound.SoundManager.Request`: the `"file://"` prefix that `UnityWebRequestMultimedia.GetAudioClip` receives is not part of the modelled request, which keeps the bare path.
- `Sound.SoundManager.MakeRoom`: unloading an evicted clip that the BGM source is still playing is an engine effect that is not modelled, so `bgmPlaying` and `bgmClip` stay as they were.
- `clip.name = setting.key` is not modelled. Unity's "destroyed object equals null" is modelled only for render textures. A clip in the model is never null, because a successful load always yields one, so the `clip != null` tests always pass.
- `Paths.Lower`: lower-cases ASCII letters only. .NET `ToLower` is culture-sensitive.
- `float` is modelled as `real`: rounding, NaN and ±0 keys of the `WaitForSeconds` table are not captured.
- `Debug.Log` output is not modelled. `LogSaver` catch blocks call `Debug.LogError` during quit, which re-enters `HandleLog`. This is left out because those lines are cleared with the buffer and the flag is already set. Errors from the background pass arrive off the main thread, where Unity does not deliver them to `logMessageReceived`.
- `Logging.LogSaver.Start`: the pending pass runs on a thread pool task. The model runs it to completion at `Start`, so its races with logging and with quit are not modelled.
- Mail composition and credentials are not modelled; SMTP is the `sendOk` outcome per file. `Directory.GetFiles` is the `listing` parameter, including its order. The date formats are folded into the `fileName` and `time` parameters.
- Coroutine scheduling order within a frame, and `Time.deltaTime`, are parameters.
- `VideoPlayer` internals: preparation itself is the engine setting `isPrepared`. `EnableAudioTrack(0, …)` is a flag.
- `Game.GameManager.ReturnToTitle`: `FadeManager.Instance` creates a FadeManager when none exists, so the "not found" branch is modelled as `fade == null` but cannot be reached through that getter. The scene load is commented out in the source and is not modelled.
- `Closer.GameCloser.Start`: the image colour is set to white with the configured alpha; only the alpha is modelled, not the RGB reset. `GetComponent<RectTransform>` is folded into the `rectTransform` parameter. `Application.Quit` is the returned `quit` flag. `clickCount` overflow past 2^31 is not modelled.
- `Logging.LogSaver.TrySendSingleLog`: `sendOk` stands for "the mail went out and `File.Delete` succeeded". A delete that throws after a sent mail returns false and keeps the file, which the model folds into a failed send.
- `Sound.SoundManager.FadeOutStep`: the intermediate volumes are stated through `Lerp` but only their endpoints are proved about.
- `Sound.SoundManager.LoadAndPlayBegin`: the capacity bound is promised only when no other load is pending, because the source checks only the cache's own count.
- JSON parsing (`JsonLoader`) is not modelled: its result, a settings record or no file, is a parameter. Unity's serializer may fill missing nested records with defaults, and such records are covered as ordinary `Some` values.
- `UIManager`, `ArduinoManager`, `SystemCanvas` and the reporter GUI are not part of this model.
