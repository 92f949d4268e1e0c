# Speech-Impared-App: recording, training, text-to-speech and sign-in, in Dafny

This project models the logic inside the screens of a React Native app that helps people with speech impairments. The recording screen sends speech to a server for transcription and can play back a spoken version of the result. The training screen collects recordings of numbered statements. The text-to-speech screen speaks typed text. The settings, login and signup screens keep a server URL and a single user account in the device's key-value store.

Each screen is a Dafny `class` whose fields are the screen's state hooks. Each handler is a `method` whose `modifies` clause names the fields it updates and whose `ensures` states the new state. Whatever the handler awaits is a parameter of the method:

- whether the recorder or player starts or stops;
- the path the recorder returns;
- the server's reply, as a record;
- the elapsed seconds.

The string rules the screens share are pure functions, and their properties are lemmas:

- the normalisation of a typed server URL;
- the "ensure `:8000`" helper pasted into every screen;
- the joining of an endpoint name onto the server URL;
- the resolution of a relative `tts_url`;
- the MM:SS timer text;
- the JSON text of the stored user record.

Modules, one per source file or shared concern:

- `Wrappers` holds `Option`.
- `Text` models the JavaScript string operations used: `trim`, `startsWith`, `includes` and the trailing-slash `replace`. It also models string-or-null truthiness. `EndsWith` is a helper for stating contracts; the source does not call `endsWith`.
- `Decimal` models `Number.toString` and `padStart(2, '0')` on natural numbers.
- `ServerUrl` and `ServerUrlFacts` hold the URL rules and their properties.
- `RecordingSession` holds the recording state of the transcribing screen, its invariant, the level meter and `formatDuration`.
- `TranscribingScreen`, `TrainingScreen`, `TtsScreen`, `SettingsScreen`, `LoginScreen` and `SignupScreen` hold the screens.
- `Storage` models `src/utils/storage.js` over a `map<string, string>`.
- `Json` models `JSON.stringify` and `JSON.parse` on strings. `Auth` models the stored user record and the login rules.
- Each screen module ends with "sessions": methods that build a fresh screen and store, run a sequence of handlers, and state the outcome.

In the recording screen, the two mode flags, the in-progress ref, the meter listener, the interval timer, the duration and the meter bars form one `RecordingSession.Session` value. Its `Valid` predicate is the invariant every handler keeps:

- never both modes at once;
- the in-progress flag is held exactly by a recording or by a start awaiting the recorder;
- the listener and the timer run exactly while a mode records;
- twenty bars in [0, 1];
- an idle meter and a zero timer when nothing records.

The start is split in two steps, `BeginStart` and `CompleteStart`, so that a second start arriving while the first awaits the recorder finds the in-progress flag raised.

The transcription text is cleared to `''` before the transcription request (`src/screens/TranscribingScreen.js:420`) and set only from a successful reply, so after a failed request it stays empty. The model follows the code (`TranscribingScreen.Screen.SendForTranscription`).

The screens build each request URL by gluing the endpoint name straight onto the port-qualified server URL, and the screen handlers do the same (`ServerUrl.EndpointAsWritten`). The corrected form, `ServerUrl.Endpoint`, puts one `/` between the two. The two agree whenever the port-qualified URL ends in `/` (`ServerUrl.EndpointAgreesWhenSlash`). That covers every URL the settings screen saves from text without a port of its own (`ServerUrlFacts.SavedUrlEndpoints`). The first finding below shows where they differ.

## Model

| member | source | states |
|---|---|---|
| Text.TrimEmptyIff | src/screens/SettingsScreen.js:46 | the trimmed text is empty exactly when every character is JavaScript white space |
| Text.TrimEnds | src/screens/SettingsScreen.js:52 | a non-empty trimmed text starts and ends with a non-white-space character |
| Text.TrimIsInfix | src/screens/SettingsScreen.js:52 | the trimmed text is a contiguous slice of the input |
| Text.TrimFixesTrimmed | src/screens/SettingsScreen.js:52 | trimming leaves a text without white space at its ends unchanged |
| Text.TrimIdempotent | src/screens/SettingsScreen.js:52 | trimming twice is trimming once |
| Text.ContainsIff | src/screens/SettingsScreen.js:58 | `includes` holds exactly when the searched text occurs at some index |
| Text.StripTrailingSlash | src/screens/TTSScreen.js:95 | `replace(/\/$/, '')` removes exactly one final `/` when there is one and changes nothing otherwise |
| Decimal.NatToString | src/screens/TranscribingScreen.js:531 | `toString` of a natural number is non-empty and all digits, and has one digit exactly when the number is below 10 |
| Decimal.ValueOfNatToString | src/screens/TranscribingScreen.js:531 | the decimal text reads back as the number |
| Decimal.NatToStringNoLeadingZero | src/screens/TranscribingScreen.js:531 | the decimal text has no leading zero unless it is `0` |
| Decimal.PadStart2KeepsValue | src/screens/TranscribingScreen.js:531 | `padStart(2, '0')` keeps the text all digits and keeps its value |
| ServerUrl.WithScheme | src/screens/SettingsScreen.js:53-55 | the result always has a scheme; it is the text unchanged exactly when the text already starts with `http://` or `https://`, and otherwise `http://` followed by the text |
| ServerUrl.NormalizeRefusesBlank | src/screens/SettingsScreen.js:46-49 | a save is refused exactly when the text is blank after trimming |
| ServerUrl.NormalizeHasPort | src/screens/SettingsScreen.js:57-60 | every saved URL contains `:8000`; the port helper leaves it unchanged; one that had no port ends in `/` |
| ServerUrl.NormalizeHasScheme | src/screens/SettingsScreen.js:52-55 | every saved URL starts with `http://` or `https://`, unless the text was a bare scheme |
| ServerUrlFacts.NormalizeAddsScheme | src/screens/SettingsScreen.js:52-60 | text without a scheme is saved as `http://` plus the text, with `:8000/` in place of a trailing `/` when no port is present |
| ServerUrlFacts.NormalizeKeepsScheme | src/screens/SettingsScreen.js:52-60 | text with a scheme is saved as is when it has the port, else with `:8000/` in place of a trailing `/` |
| ServerUrlFacts.NormalizeEnds | src/screens/SettingsScreen.js:52-60 | a saved URL starts with `h` and ends in the trimmed text's last character or in `/` |
| ServerUrlFacts.NormalizeIsTrimmed | src/screens/SettingsScreen.js:52-60 | a saved URL has no white space at its ends |
| ServerUrlFacts.NormalizeIdempotent | src/screens/SettingsScreen.js:52-60 | saving a saved URL again gives the same URL, unless the text was a bare scheme |
| ServerUrlFacts.NormalizePlainHost | src/screens/SettingsScreen.js:58-60 | `example.com` is saved as `http://example.com:8000/` |
| ServerUrlFacts.NormalizeSecureHost | src/screens/SettingsScreen.js:58-60 | `https://x.com/` is saved as `https://x.com:8000/` |
| ServerUrlFacts.BareSchemeLosesSlash | src/screens/SettingsScreen.js:52-60 | the bare schemes `http://` and `https://` are saved as `http:/:8000/` and `https:/:8000/`, which have no scheme |
| ServerUrlFacts.BareSchemeResultRenormalized | src/screens/SettingsScreen.js:52-60 | saving `http:/:8000/` again prefixes another `http://`, so normalisation is not idempotent there |
| ServerUrlFacts.NormalizeKeepsTypedPort | src/screens/SettingsScreen.js:58 | `192.168.1.5:8000` is saved as `http://192.168.1.5:8000`, with no trailing `/` |
| ServerUrl.WithPortShape | src/screens/TTSScreen.js:95 | the port helper's result contains `:8000`; it is the URL itself when that has the port, else the URL without one trailing `/` followed by `:8000/` |
| ServerUrl.WithPortIdempotent | src/screens/TranscribingScreen.js:434 | applying the port helper twice is applying it once |
| ServerUrl.ResolveTtsShape | src/screens/TTSScreen.js:120 | the spoken-reply URL contains `:8000` and ends in the reply's `tts_url`; under a base ending in `/`, a `tts_url` starting with `/` follows that base with exactly one `/` |
| ServerUrl.BaseKeepsPort | src/screens/TranscribingScreen.js:462 | dropping the trailing `/` of the port-qualified base keeps `:8000` |
| ServerUrl.EndpointShape | src/screens/TTSScreen.js:95-96 | a request URL contains `:8000`, starts with the port-qualified base without its trailing `/`, and ends in `/` plus the endpoint name |
| ServerUrl.EndpointAgreesWhenSlash | src/screens/TranscribingScreen.js:434-435 | where the port-qualified base ends in `/`, the corrected request URL is the one the screens build |
| ServerUrlFacts.SavedUrlEndpoints | src/screens/SettingsScreen.js:57-60 | for a URL saved from text without its own `:8000`, the URL the screens build is the corrected one and ends in `/` plus the endpoint name |
| ServerUrl.StatementPathInjective | src/screens/TrainingScreen.js:32 | different statement numbers are fetched from different paths |
| ServerUrlFacts.EndpointAsWrittenLosesSeparator | src/screens/TTSScreen.js:95-96 | for the saved URL `http://192.168.1.5:8000` the screens request `http://192.168.1.5:8000tts`, not `http://192.168.1.5:8000/tts` |
| RecordingSession.IdleWaveformWellShaped | src/screens/TranscribingScreen.js:53 | the initial meter is twenty bars of 0.1, each in [0, 1] |
| RecordingSession.Level | src/screens/TranscribingScreen.js:233 | a dB level maps into [0, 1]: linearly between -60 and 0 dB, 0 below, 1 above |
| RecordingSession.LevelMonotone | src/screens/TranscribingScreen.js:233 | a louder level never gives a lower bar |
| RecordingSession.Metered | src/screens/TranscribingScreen.js:231-241 | a metering event with a truthy value drops the oldest bar and appends the new level; a missing or zero value leaves the meter unchanged; the length is kept |
| RecordingSession.MeteredKeepsShape | src/screens/TranscribingScreen.js:234-241 | the meter stays twenty bars in [0, 1] after any metering event |
| RecordingSession.MeteredAllSlides | src/screens/TranscribingScreen.js:229-243 | after a run of non-zero metering values the meter is the last window of the old bars followed by the new levels |
| RecordingSession.FormatDurationShape | src/screens/TranscribingScreen.js:528-532 | the timer text is at least two minute digits, a colon and exactly two second digits, reading back as `s div 60` and `s mod 60`; it has five characters exactly when `s` is under 6000 |
| RecordingSession.FormatDurationReadsBack | src/screens/TranscribingScreen.js:529-531 | the seconds shown are below 60 and sixty times the minutes plus the seconds is the duration |
| RecordingSession.IdleValid | src/screens/TranscribingScreen.js:43-65 | the initial session keeps the session invariant, records nothing and is not in progress |
| RecordingSession.FreshValid | src/screens/TranscribingScreen.js:218-252 | after a successful start the session keeps the invariant, records in the requested mode only, and has an idle meter and zero timer |
| RecordingSession.QuietIsIdle | src/screens/TranscribingScreen.js:175-185 | a consistent session with the in-progress flag down is the idle one, so a start past the guards starts from idle |
| TranscribingScreen.SpokenUrl | src/screens/TranscribingScreen.js:461-462 | a spoken-reply URL exists exactly when the reply succeeded with a non-empty `tts_url` and speaking is on; it is that `tts_url` resolved against the server |
| TranscribingScreen.Screen.constructor | src/screens/TranscribingScreen.js:43-65 | the screen starts consistent, idle, with speaking on and no recording, text or spoken reply |
| TranscribingScreen.Screen.BeginStart | src/screens/TranscribingScreen.js:155-185 | a start is taken exactly when a server URL is set, audio may be recorded, nothing is in progress and neither mode records; it raises the in-progress flag before the recorder is awaited; a refused start changes nothing |
| TranscribingScreen.Screen.CompleteStart | src/screens/TranscribingScreen.js:214-275 | when the recorder starts, exactly the requested mode records with the timer at 0 and the previous recording, text and spoken-reply URL cleared; when it fails, the session is idle and nothing else changes |
| TranscribingScreen.Screen.Cleanup | src/screens/TranscribingScreen.js:134-144 | cleanup stops the timer and the meter listener, resets the timer to 0 and the meter to idle, and lowers the in-progress flag |
| TranscribingScreen.Screen.StartRecording | src/screens/TranscribingScreen.js:146-276 | a start succeeds exactly when its guards pass and the recorder starts; a refused or failed start leaves the screen as it was; a successful one records in the requested mode only |
| TranscribingScreen.Screen.StopRecording | src/screens/TranscribingScreen.js:278-341 | only a stop for the mode that records does anything; then the session is idle whether the recorder stopped or failed; the path is kept only on a clean stop; a request is sent exactly for a clean hold-mode stop with a path, and it posts that path to the server URL with `transcribe` glued on; the processing flag is up exactly while that request runs; then the reply sets the text and spoken-reply URL, the spoken reply is remembered for replay, and it plays exactly when one came back and the stop before playback was not rejected, with the player otherwise as before |
| TranscribingScreen.Screen.SendForTranscription | src/screens/TranscribingScreen.js:402-448 | a request is sent exactly when a server URL and a file are present, with the processing flag up; it posts that file to the server URL with `transcribe` glued on; afterwards the text is the reply's transcription or empty |
| TranscribingScreen.Screen.ReceiveTranscription | src/screens/TranscribingScreen.js:450-483 | only a successful reply sets the text; a spoken reply is remembered, and played only with a `tts_url` and speaking on; a rejected stop of an earlier playback leaves that one playing; the processing flag ends down on both paths |
| TranscribingScreen.Screen.PlayTtsAudio | src/screens/TranscribingScreen.js:486-521 | a missing URL changes nothing; otherwise a playback under way is stopped first and the new one plays only if the player starts; when that stop is rejected nothing changes and the failure is reported |
| TranscribingScreen.Screen.HandleReplayTts | src/screens/TranscribingScreen.js:390-400 | without a remembered spoken reply nothing plays; otherwise exactly that URL is played, unless stopping an earlier playback is rejected, which changes nothing |
| TranscribingScreen.Screen.PlayRecording | src/screens/TranscribingScreen.js:343-388 | without a recording nothing happens; while something plays it is stopped and nothing starts, and a rejected stop changes nothing; otherwise the recording plays if the player starts |
| TranscribingScreen.Screen.PlaybackFinished | src/screens/TranscribingScreen.js:500-506 | the end of playback leaves nothing playing |
| TranscribingScreen.Screen.OnMetering | src/screens/TranscribingScreen.js:229-243 | a metering event moves the meter only while the listener is registered, and keeps the invariant |
| TranscribingScreen.Screen.Tick | src/screens/TranscribingScreen.js:223-226 | the timer sets the shown duration only while it runs |
| TranscribingScreen.Screen.SetSpeakTranscribedText | src/screens/TranscribingScreen.js:523-525 | the switch sets whether a spoken reply is played |
| TranscribingScreen.HoldRecordingIsSent | src/screens/TranscribingScreen.js:312-319 | a hold-mode recording that stops with a path sends exactly that path to the server URL with `transcribe` glued on, with the processing flag up |
| TranscribingScreen.PressRecordingIsKept | src/screens/TranscribingScreen.js:306-318 | a press-mode stop sends nothing and keeps the path; the send button, at line 608 of the same file, then posts exactly that path |
| TranscribingScreen.SecondStartIsIgnored | src/screens/TranscribingScreen.js:175-179 | while a start awaits the recorder, a second start and a stop are ignored, and afterwards only the first mode records |
| TranscribingScreen.StopInOtherModeIsIgnored | src/screens/TranscribingScreen.js:288-293 | stopping hold mode while press mode records changes nothing |
| TrainingScreen.Screen.constructor | src/screens/TrainingScreen.js:14-20 | the screen starts at statement 1 with nothing fetched, recorded or uploaded |
| TrainingScreen.Screen.FetchSentences | src/screens/TrainingScreen.js:29-55 | statement `n` is requested and becomes current only if the server has it; only then is `n + 1` requested, to become next only if the server has it; each path is glued onto the port-qualified server URL |
| TrainingScreen.Screen.Mount | src/screens/TrainingScreen.js:23-27 | with a server URL, statements 1 and 2 are fetched |
| TrainingScreen.Screen.StartRecording | src/screens/TrainingScreen.js:57-80 | only when the recorder starts: recording on, the new path kept, not uploaded; otherwise nothing changes |
| TrainingScreen.Screen.StopRecording | src/screens/TrainingScreen.js:82-94 | recording ends only when the recorder stops |
| TrainingScreen.Screen.ToggleRecording | src/screens/TrainingScreen.js:194 | the record button stops a recording under way, keeping the recording and the upload flag, and starts one otherwise |
| TrainingScreen.Screen.UploadRecording | src/screens/TrainingScreen.js:96-149 | without a recording nothing changes; otherwise the processing flag is up for the request and down afterwards, the recorded file is posted to the current number's upload path glued onto the server URL, and it counts as uploaded only when the server accepts it |
| TrainingScreen.Screen.UploadRecordingAsWritten | src/screens/TrainingScreen.js:106-111 | as written, building the form data throws, so no request is made and nothing changes |
| TrainingScreen.Screen.Advance | src/screens/TrainingScreen.js:151-166 | next-sentence is refused with no change unless uploaded; otherwise the number goes up by one, the prefetched statement becomes current, and next, the recording and the upload mark are cleared |
| TrainingScreen.Screen.HandleNextSentenceAsWritten | src/screens/TrainingScreen.js:151-168 | as written, only after an upload it moves to number `k`, clears the recording and the upload flag, and requests statements `k + 1` and `k + 2`; the statement shown becomes `k + 1` when the server has it and stays the prefetched one otherwise; only `k + 2` is prefetched |
| TrainingScreen.Screen.HandleNextSentence | src/screens/TrainingScreen.js:151-167 | with the fetch starting at the new number `k`: statements `k` and `k + 1` are requested, the statement shown is `k` when the server has it and the prefetched one otherwise, `k + 1` is prefetched, and shown and prefetched statements stay aligned with the number |
| TrainingScreen.NextSkipsAStatementAsWritten | src/screens/TrainingScreen.js:167 | with statements 1 to 3 on the server, one round as written uploads to number 1, requests statements 3 and 4, and shows statement 3 at number 2 |
| TrainingScreen.NextShowsTheNextStatement | src/screens/TrainingScreen.js:161-167 | the same round, corrected, requests statements 2 and 3 and shows statement 2 at number 2 |
| TrainingScreen.NextNeedsAnUpload | src/screens/TrainingScreen.js:152-159 | the screen moves on exactly when the upload was accepted |
| TrainingScreen.UploadAsWrittenNeverAdvances | src/screens/TrainingScreen.js:111 | with the upload as written, after the mount, any sequence of record, upload and next presses with any recorder outcomes leaves nothing uploaded: no next press advances and the number stays 1 |
| TtsScreen.Screen.constructor | src/screens/TTSScreen.js:13-16 | the screen starts with empty text, nothing remembered and nothing playing |
| TtsScreen.Screen.EditText | src/screens/TTSScreen.js:164 | typing sets the text |
| TtsScreen.Screen.PlayTtsAudio | src/screens/TTSScreen.js:18-55 | a missing URL changes nothing; otherwise a playback under way is stopped first and the new one plays only if the player starts; when that stop is rejected nothing changes and the failure is reported |
| TtsScreen.Screen.HandleReplay | src/screens/TTSScreen.js:57-68 | without a remembered URL nothing plays; otherwise exactly that URL is played, unless stopping an earlier playback is rejected, which changes nothing |
| TtsScreen.Screen.HandleSpeak | src/screens/TTSScreen.js:70-141 | a request is sent exactly when a server URL is set and the trimmed text is non-empty, with the processing flag up; it posts the text to the server URL with `tts` glued on; with a `tts_url` the resolved URL is remembered and played and the text cleared even if playback fails; a rejected stop of an earlier playback keeps the text and that playback; without a `tts_url` text and remembered URL are kept |
| TtsScreen.Screen.PlaybackFinished | src/screens/TTSScreen.js:32-38 | the end of playback leaves nothing playing |
| TtsScreen.SpeakThenReplay | src/screens/TTSScreen.js:93-129 | the typed text is posted to the server URL with `tts` glued on; a spoken reply that fails to play is still remembered and the text cleared, and replay then plays exactly the resolved URL |
| TtsScreen.StopRejectedKeepsText | src/screens/TTSScreen.js:18-130 | while one reply plays, a second speak whose stop is rejected remembers the second reply, keeps its text and leaves the first reply playing |
| TtsScreen.BlankTextIsRefused | src/screens/TTSScreen.js:80-88 | text that is all white space is never sent and stays in the field |
| TtsScreen.MissingTtsUrlKeepsText | src/screens/TTSScreen.js:118-126 | a reply without `tts_url` keeps the text and leaves nothing to replay |
| Storage.Get | src/utils/storage.js:12-23 | `getData` yields the stored value for a present key and null for a missing one |
| Storage.Store.StoreData | src/utils/storage.js:3-10 | storing sets one key and keeps every other |
| Storage.Store.GetData | src/utils/storage.js:12-23 | reading yields `Storage.Get` of the entries and changes nothing |
| Storage.Store.RemoveData | src/utils/storage.js:25-32 | removing drops one key and keeps every other |
| Json.ReadEscaped | src/screens/LoginScreen.js:20 | parsing reads a `JSON.stringify`-escaped string body back as the string, leaving the text after the closing quote |
| Json.ParseQuote | src/screens/SignupScreen.js:18 | `JSON.parse(JSON.stringify(s))` is `s` for every string |
| Auth.DecodeEncodeUser | src/screens/SignupScreen.js:18 | the stored user record parses back as the user it was written for |
| Auth.EncodeUserInjective | src/screens/SignupScreen.js:18 | different users are stored as different records |
| Auth.AcceptedIff | src/screens/LoginScreen.js:15-24 | a login is accepted exactly when both fields are filled in and equal the stored record's |
| Auth.SignupThenLogin | src/screens/LoginScreen.js:20-24 | after a signup, a login is accepted exactly for the same email and password; any other filled-in pair is a mismatch |
| Auth.TokensLogIn | src/navigation/AppNavigator.js:17-19 | either token the screens write counts as logged in, and removing the token logs out |
| LoginScreen.Screen.constructor | src/screens/LoginScreen.js:9-10 | both fields start empty |
| LoginScreen.Screen.Edit | src/screens/LoginScreen.js:69-78 | typing sets the two fields |
| LoginScreen.Screen.HandleLogin | src/screens/LoginScreen.js:13-59 | the store is read exactly when both fields are filled; `userToken` becomes `logged_in` and the callback runs exactly when the login is accepted; every other outcome leaves the store unchanged |
| LoginScreen.NoUserRefused | src/screens/LoginScreen.js:43-50 | without a stored user every login fails and writes nothing |
| SignupScreen.Screen.constructor | src/screens/SignupScreen.js:9-10 | both fields start empty |
| SignupScreen.Screen.Edit | src/screens/SignupScreen.js:54-63 | typing sets the two fields |
| SignupScreen.Screen.HandleSignup | src/screens/SignupScreen.js:13-44 | with an empty field nothing is written; otherwise the user record with exactly the two fields replaces any earlier one, `userToken` becomes `signed_up` so the user is logged in, and the screen returns to login and runs the callback |
| SignupScreen.SignupThenLoginSession | src/screens/SignupScreen.js:18-21 | signing up then logging in is accepted exactly for the same email and password, and the user is logged in either way |
| SignupScreen.SecondSignupReplaces | src/screens/SignupScreen.js:18 | after a second signup the first user's password is a mismatch |
| SettingsScreen.Screen.constructor | src/screens/SettingsScreen.js:7-8 | the field starts empty and no URL is shown as saved |
| SettingsScreen.Screen.LoadUrl | src/screens/SettingsScreen.js:10-18 | a stored non-empty URL is shown as saved; otherwise the shown URL is kept |
| SettingsScreen.Screen.EditUrl | src/screens/SettingsScreen.js:84 | typing sets the field |
| SettingsScreen.Screen.HandleSaveUrl | src/screens/SettingsScreen.js:45-70 | blank text is refused with store and shown URL unchanged; otherwise the normalised URL is stored under `serverUrl`, every other key kept, and shown; it contains `:8000` and the port helper leaves it unchanged |
| SettingsScreen.Screen.HandleLogout | src/screens/SettingsScreen.js:20-43 | on confirmation only `userToken` is removed, which logs out, and the callback runs; on cancel nothing changes |
| SettingsScreen.SaveThenRead | src/screens/SettingsScreen.js:63 | the other screens read back exactly the normalised URL, the port helper leaves it unchanged, and it has a scheme unless the text was a bare scheme |
| SettingsScreen.BlankUrlRefused | src/screens/SettingsScreen.js:46-49 | blank text leaves the store and the shown URL as loaded |
| SettingsScreen.LogoutKeepsUser | src/screens/SettingsScreen.js:30-34 | logout keeps the user record and the saved URL, and logs out on confirmation |

## Left out

- Rendering, styles, layout, the waveform component and navigation are not modelled. This covers `App.tsx`, the navigators and the server-URL overlay. Of `AppNavigator.js` only the token rule is kept, as `Auth.LoggedIn`.
- Permission requests are a platform API. `hasAudioPermission` is a constructor parameter of the recording screen.
- The native audio library is foreign code. Its start, stop and play calls are success flags and returned paths, including the `stopPlayer` that runs before a new playback. Encoder settings and the mechanics of listener registration are left out. The meter listener and the timer are kept only as "registered" flags.
- `fetch`, `FormData` and `response.json()` are network and foreign code. Each reply is an input record. A request is its URL with the posted text or the recorded file's path. Headers, the form part's name and type, and the `file://`/`Platform` choice of the file URI are not modelled, nor are the uploaded file's contents.
- The statement server is a map from numbers to texts. It answers statement `n` with line number `n`.
- Clock and timers: the fresh file path and the elapsed seconds are inputs. The one-second interval is the `Tick` handler.
- Floating point: the dB clamp uses `real` arithmetic. JavaScript float rounding is not modelled.
- Async interleaving and React's deferred state updates are not modelled. Handlers are atomic except the two-step start. Stale closure reads are not modelled, such as `playTtsAudio` seeing the `isPlaying` of the render it was created in. The transcription that `stopRecording` starts without awaiting it is modelled as completing inside the stop.
- Toasts, alerts and console output are left out. The logout confirmation dialog is the `confirmed` parameter.
- Unmount cleanup is lifecycle plumbing and is not modelled.
- Storage errors: the store always succeeds. The storage helpers swallow their errors, so a failure would only look like a call that did nothing, and the `catch` branch of `handleSaveUrl` cannot be reached.
- The server-URL context's loading flag and refresh are left out. Each screen takes the stored URL once, as a constructor parameter.
- Auth.DecodeUser: does not model `JSON.parse` in general. The model reads only the two-field object layout that signup writes. Any other text counts as unreadable, including JSON that `JSON.parse` would accept with other key orders, white space or value types. A `\u` escape of half a surrogate pair is refused rather than paired. The app only ever stores the layout signup writes.
- Auth.CheckLogin: a record that is valid JSON in another layout gives `Unreadable` where the app would compare missing fields and report a mismatch. Both outcomes write nothing and skip the callback; only the notification text differs.
- ServerUrl.NormalizeHasScheme: excludes text that is only `http://` or `https://`. The source saves such text as `http:/:8000/` or `https:/:8000/`, so the stated promise does not hold there (`ServerUrlFacts.BareSchemeLosesSlash`).
- ServerUrlFacts.NormalizeIdempotent: excludes the same bare-scheme text. Saving `http:/:8000/` again prefixes another `http://` (`ServerUrlFacts.BareSchemeResultRenormalized`).

## Findings

| source | as written | input that shows it | evidently intended | confidence | as-written member | corrected member |
|---|---|---|---|---|---|---|
| src/screens/TTSScreen.js:95-96 | the request URL is the port-qualified server URL with the endpoint name glued on. The same pattern is at `src/screens/TranscribingScreen.js:434-435` and `src/screens/TrainingScreen.js:31-32, 108-117` | the settings screen saves `192.168.1.5:8000` as `http://192.168.1.5:8000`; the TTS request then goes to `http://192.168.1.5:8000tts` | one `/` between the server URL and the endpoint name | high; not executed | ServerUrlFacts.EndpointAsWrittenLosesSeparator | ServerUrl.EndpointShape |
| src/screens/TrainingScreen.js:167 | after moving to number `k`, `fetchSentences(k + 1)` sets the current statement to `k + 1` | statements 1, 2 and 3 on the server; record, upload, next: number 2 with statement 3 shown, and the next upload is filed under 2 | `fetchSentences(k)`, so the statement shown is the one being recorded | high; not executed | TrainingScreen.NextSkipsAStatementAsWritten | TrainingScreen.NextShowsTheNextStatement |
| src/screens/TrainingScreen.js:111 | `Platform.OS` is read, but `Platform` is not imported at line 2, so building the upload throws a `ReferenceError` that the `catch` reports as a failed upload | any upload of a recording: `hasUploaded` never becomes true and the next-sentence button never appears | `Platform` imported from `react-native`, so an accepted upload unlocks the next statement | medium; not executed | TrainingScreen.UploadAsWrittenNeverAdvances | TrainingScreen.NextNeedsAnUpload |
