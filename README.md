# livekit-web-conference: video quality and connection sequencing

This is a Dafny model of the front end of a LiveKit video-conference app (a React/TypeScript client over the LiveKit SDK). It covers four things:

- **The quality presets.** These are the four quality keys (`auto`, `720p`, `480p`, `360p`) and the preset table. The table maps each key to an optional target resolution.
- **The quality toggle.** The toggle's `applyQuality` rewrites the camera sender's RTP encoding parameters and then, once `setParameters` resolves, stores the key in the shared quality context. Because `auto` maps to `{}`, and `{}` is a truthy object, the "delete the limits" branch never runs. For `auto` the rewrite therefore sets `maxBitrate = 0` and an undefined `maxFramerate`.
- **The quality consumers.**
  - The layout's effect restarts the camera capture whenever the room or the quality changes. For `auto` it uses `VideoPresets.h720`; for any other key, the constraints come from the layout's own resolution map.
  - The settings select creates a new camera track at the chosen quality and swaps its media into the published track.
- **The client's connection sequencing.**
  - The room options are derived from the E2EE (end-to-end encryption) settings.
  - With E2EE on, `setKey` and then `setE2EEEnabled(true)` must resolve before the setup-complete flag is raised.
  - Once the flag is up, `connect` and `enableCameraAndMicrophone` are issued.
  - On unmount, the room is disconnected unless it is already disconnected.

How the model treats the SDK and the components:

- **SDK values and calls.** The SDK's objects (room, publications, local video track, RTP sender) are values in module `Sdk`. The quality operations return every call they make into the SDK in a call log. The client's state machine does not keep a log. It counts its calls to `connect`, `enableCameraAndMicrophone` and `disconnect`, and it records how far `setKey` and `setE2EEEnabled` have got as a setup phase.
- **Promises.** How each awaited SDK promise settles is a parameter of the operation.
- **Component state.** State that a component keeps in `useState` or in effect bookkeeping is a field of a class: `QualityCell`, `QualityToggle`, `Layout`, `QualitySettings` and `ConferenceClient`.
- **Proofs against pure functions.** Each class method is proved against a pure function of the old state. The client's event-driven behaviour is the state machine `Step`/`Run`, and the lemmas about traces are proved over it.

Quirks of the code, modelled as written:

- **One room per mounted view.** `VideoConferenceClientImpl.tsx:28` creates a new `ExternalE2EEKeyProvider` on every render. That provider is a dependency of `roomOptions` (line 55), so every render yields new room options and a new `Room` (line 57). The state machine `Step` assumes one room per mounted view. Module `ConferenceRenders` models the code as written, across renders, and shows what this costs the E2EE ordering (see "## Findings").
- **Two shapes of `restartTrack` options.** For a key other than `auto`, the layout passes `{ width, height, frameRate }` at the top level of the `restartTrack` options (`ConferenceLayout.tsx:38-40`), not under `resolution`. For `auto` it passes `{ resolution: VideoPresets.h720 }`. Both shapes are kept.
- **Different frame rates for 480p.** The layout's 480p constraints run at 24 frames per second, while the preset table says 30.
- **`VIDEO_QUALITIES` is not defined here.** The settings component imports `VIDEO_QUALITIES` and `VideoQuality` from `lib/videoQualityPresets.ts`, which defines neither. `VIDEO_QUALITIES` is therefore a parameter: a map from option string to resolution, where a missing string reads as `undefined`. The five option strings of the select are a key type of their own.
- **The settings component picks its publication by kind.** It takes the first publication whose `kind` is `video`, where the toggle and the layout look for the camera source.
- **`loading` can stay set for good.** When `createLocalVideoTrack` or `replaceTrack` rejects, `changeQuality` leaves `loading` set. Since the select is disabled while `loading`, it then stays disabled forever (`StuckStaysStuck`).

## Model

| member | source | states |
|---|---|---|
| VideoQualityPresets.KeyName | lib/videoQualityPresets.ts:4-8 | the string of each key parses back to that key |
| VideoQualityPresets.ParseKey | lib/videoQualityPresets.ts:4-8 | a string is a key exactly when it is one of the four key names |
| VideoQualityPresets.Table | lib/videoQualityPresets.ts:10-20 | the table's keys are exactly the four key names, and each parses as a key |
| VideoQualityPresets.PresetFor | lib/videoQualityPresets.ts:14-19 | every key's preset is truthy; the resolution is absent exactly for auto; 720p is `VideoPresets.h720`, 480p is 854x480 at 30, 360p is `VideoPresets.h360`; the explicit ones are positive when the SDK presets are |
| VideoQualityPresets.KeyListed | lib/videoQualityPresets.ts:4-8 | every key has a place in the entry order |
| VideoQualityPresets.EntryOrderIsTheKeySet | app/custom/components/VideoQualityToggle.tsx:62 | Object.entries lists the four keys, each once, and they are exactly the table's keys |
| VideoQualityContext.QualityCell.constructor | app/context/VideoQualityContext.tsx:14 | the provider's quality starts at auto |
| VideoQualityContext.QualityCell.SetQuality | app/context/VideoQualityContext.tsx:17 | setQuality stores the key it is given |
| VideoQualityContext.UseVideoQuality | app/context/VideoQualityContext.tsx:23-27 | the hook throws its message exactly outside a provider and otherwise returns the innermost provider's cell |
| VideoQualityContext.ConsumersAgree | app/context/VideoQualityContext.tsx:13-21 | two consumers under the same provider read the same quality |
| Sdk.Find | app/custom/components/VideoQualityToggle.tsx:23-25 | `.find(...)` yields the index of the first publication the selector matches, and none exactly when no publication matches |
| Sdk.FindLocalVideo | app/custom/components/ConferenceLayout.tsx:14-18 | `.find(...)` then `instanceof LocalVideoTrack`: a track exactly when the first match holds a local video track, and then that track |
| VideoQualityToggle.RewriteEncodings | app/custom/components/VideoQualityToggle.tsx:40-51 | the truthy branch: a one-element encodings array spreading the old first entry with the bit rate and frame rate overwritten (its properties are stated by EncoderRequest) |
| VideoQualityToggle.DropLimits | app/custom/components/VideoQualityToggle.tsx:37-39 | the delete branch clears both limits of the first encoding only and keeps every other entry and member |
| VideoQualityToggle.EncoderRequest | app/custom/components/VideoQualityToggle.tsx:34-51 | one encoding keeping the old first entry's other members; auto requests bit rate 0 and no frame rate; 480p requests 409,920,000 at 30; 720p and 360p request width*height*1000 at the SDK frame rate; positive for explicit keys |
| VideoQualityToggle.AutoNeverDropsLimits | app/custom/components/VideoQualityToggle.tsx:37-51 | for auto the parameters sent are never those of the delete branch |
| VideoQualityToggle.EncoderRequestIdempotent | app/custom/components/VideoQualityToggle.tsx:40-51 | applying the same key to the rewritten parameters changes nothing further |
| VideoQualityToggle.CameraSender | app/custom/components/VideoQualityToggle.tsx:23-32 | the result is absent exactly when there is no camera publication, its track is not a local video track, or that track has no sender; otherwise it is that track's own sender |
| VideoQualityToggle.UpperAscii | app/custom/components/VideoQualityToggle.tsx:73 | the caption has the key name's length, and each character is that of the key name upper-cased |
| VideoQualityToggle.NoLowerCaseLeft | app/custom/components/VideoQualityToggle.tsx:73 | upper-casing leaves no lower-case ASCII letter and keeps every other character |
| VideoQualityToggle.Captions | app/custom/components/VideoQualityToggle.tsx:73 | the captions are AUTO, 720P, 480P and 360P |
| VideoQualityToggle.MenuItems | app/custom/components/VideoQualityToggle.tsx:62-75 | one button per key, in order, captioned with the upper-cased key name, active exactly when its key is the current quality |
| VideoQualityToggle.NoItemActive | app/custom/components/VideoQualityToggle.tsx:68-70 | with the current quality absent from the keys, no button is active |
| VideoQualityToggle.ExactlyOneItemActive | app/custom/components/VideoQualityToggle.tsx:68-70 | over distinct keys that contain the current quality, exactly one button is active |
| VideoQualityToggle.QualityToggle.constructor | app/custom/components/VideoQualityToggle.tsx:17 | the menu starts closed |
| VideoQualityToggle.QualityToggle.ToggleMenu | app/custom/components/VideoQualityToggle.tsx:82 | the gear button flips the menu |
| VideoQualityToggle.QualityToggle.Menu | app/custom/components/VideoQualityToggle.tsx:60-77 | a closed menu renders nothing; an open one renders the table's keys in `Object.entries` order with their captions, exactly the current one active |
| VideoQualityToggle.QualityToggle.ApplyQuality | app/custom/components/VideoQualityToggle.tsx:20-56 | no call without room, camera local video track or sender; otherwise one setParameters on that track's sender with the rewritten parameters; quality set and menu closed only when it resolves |
| ConferenceLayout.ResolutionMap | app/custom/components/ConferenceLayout.tsx:28-36 | every entry is positive, wider than high, at 24 frames per second |
| ConferenceLayout.MapStrictlyDecreasing | app/custom/components/ConferenceLayout.tsx:33-35 | along the map's order, width and height strictly decrease |
| ConferenceLayout.Preset480FrameRateDiffers | app/custom/components/ConferenceLayout.tsx:34 | the layout's 480p has the table's dimensions but 24 frames per second where the table says 30 |
| ConferenceLayout.RestartOptionsFor | app/custom/components/ConferenceLayout.tsx:20-40 | auto restarts with `{ resolution: h720 }`, any other key with the map's triple at the top level |
| ConferenceLayout.ApplyLocalVideoQuality | app/custom/components/ConferenceLayout.tsx:10-41 | no call without a camera local video track; otherwise exactly one restartTrack on that track and nothing else |
| ConferenceLayout.Layout.constructor | app/custom/components/ConferenceLayout.tsx:53-57 | no effect has run yet |
| ConferenceLayout.Layout.Commit | app/custom/components/ConferenceLayout.tsx:53-57 | the effect runs only when `[room, quality]` changed, and calls nothing without a room |
| VideoConferenceClient.E2eeEnabled | app/custom/VideoConferenceClientImpl.tsx:30 | E2EE is on exactly when the passphrase is a non-empty string and a worker exists |
| VideoConferenceClient.MakeRoomOptions | app/custom/VideoConferenceClientImpl.tsx:34-55 | red exactly when E2EE is off; e2ee options present exactly when on, with the key provider and worker; the fixed layers, encoding, codec, dynacast and peer-connection setting |
| VideoConferenceClient.Init | app/custom/VideoConferenceClientImpl.tsx:32 | the state right after mounting: flag down, no effect run, nothing issued, room disconnected |
| VideoConferenceClient.Step | app/custom/VideoConferenceClientImpl.tsx:65-97 | the transition for each effect run, promise settlement and SDK room event, for one room per mounted view (its properties are stated by InvStep, InvReachable and the trace lemmas) |
| VideoConferenceClient.Run | app/custom/VideoConferenceClientImpl.tsx:65-97 | a sequence of events applied from the left |
| VideoConferenceClient.Inv | app/custom/VideoConferenceClientImpl.tsx:65-97 | the reachable-state invariant: connect and enable together and at most once, only with the flag up, which needs setup done; no key operation without E2EE; at most one disconnect, at unmount |
| VideoConferenceClient.InvStep | app/custom/VideoConferenceClientImpl.tsx:65-97 | every transition preserves the invariant |
| VideoConferenceClient.InvReachable | app/custom/VideoConferenceClientImpl.tsx:65-97 | in every reachable state connect and enableCameraAndMicrophone are issued together, at most once, only after setup completed; disconnect at most once, only at unmount |
| VideoConferenceClient.RejectionIsFinal | app/custom/VideoConferenceClientImpl.tsx:67-71 | after setKey or setE2EEEnabled rejects, setup never completes and nothing is connected |
| VideoConferenceClient.ExtendKeyTrace | app/custom/VideoConferenceClientImpl.tsx:67 | appending an event keeps a resolved setKey, and a resolving setKey supplies one |
| VideoConferenceClient.ExtendE2eeTrace | app/custom/VideoConferenceClientImpl.tsx:67-68 | appending an event keeps setKey-then-setE2EEEnabled, and a resolving setE2EEEnabled after setKey supplies it |
| VideoConferenceClient.ExtendConnectTrace | app/custom/VideoConferenceClientImpl.tsx:67-86 | appending an event keeps the full order, and a connect effect after both resolutions supplies it |
| VideoConferenceClient.ConnectFollowsE2eeSetup | app/custom/VideoConferenceClientImpl.tsx:65-86 | with E2EE on, every trace that issues connect has setKey resolved, then setE2EEEnabled resolved, then the connect effect, in that order |
| VideoConferenceClient.JoinScenariosConnect | app/custom/VideoConferenceClientImpl.tsx:65-86 | without E2EE one setup and one connect effect issue connect; with E2EE it is issued after both promises resolve |
| VideoConferenceClient.TeardownGuard | app/custom/VideoConferenceClientImpl.tsx:91-97 | unmount disconnects exactly when the room is not disconnected, not after a server disconnect, and a second cleanup changes nothing |
| VideoConferenceClient.ConferenceClient.constructor | app/custom/VideoConferenceClientImpl.tsx:28-63 | the flag, room options and connect options as derived, in the initial session |
| VideoConferenceClient.ConferenceClient.RunSetupEffect | app/custom/VideoConferenceClientImpl.tsx:65-75 | takes the setup effect's transition |
| VideoConferenceClient.ConferenceClient.OnSetKeySettled | app/custom/VideoConferenceClientImpl.tsx:67-68 | takes the transition for setKey settling |
| VideoConferenceClient.ConferenceClient.OnSetE2eeSettled | app/custom/VideoConferenceClientImpl.tsx:68-70 | takes the transition for setE2EEEnabled settling |
| VideoConferenceClient.ConferenceClient.RunConnectEffect | app/custom/VideoConferenceClientImpl.tsx:77-86 | takes the connect effect's transition |
| VideoConferenceClient.ConferenceClient.OnRoomEvent | app/custom/VideoConferenceClientImpl.tsx:79-81 | takes the transition for a room state change made by the SDK |
| VideoConferenceClient.ConferenceClient.Unmount | app/custom/VideoConferenceClientImpl.tsx:91-97 | takes the teardown's transition |
| VideoQualitySettings.OptionValue | lib/VideoQualitySettings.tsx:48-52 | each option's value parses back to its key |
| VideoQualitySettings.ParseOption | lib/VideoQualitySettings.tsx:46 | a value is an option exactly when it is one of the five option strings |
| VideoQualitySettings.OptionsListEveryKeyOnce | lib/VideoQualitySettings.tsx:48-52 | every key is listed, and the five values are distinct |
| VideoQualitySettings.ChangeEffect | lib/VideoQualitySettings.tsx:14-39 | no room: nothing; otherwise the quality is taken; no local video track: loading cleared, no call; otherwise createLocalVideoTrack, then replaceTrack with the new media once that resolves; loading cleared exactly when both resolve |
| VideoQualitySettings.View | lib/VideoQualitySettings.tsx:43-53 | the select shows the current quality, is disabled exactly while loading, and lists the five options in order |
| VideoQualitySettings.Deliver | lib/VideoQualitySettings.tsx:45-46 | a change reaches changeQuality only when the select is enabled |
| VideoQualitySettings.RunChoices | lib/VideoQualitySettings.tsx:45-46 | a sequence of choices delivered from the left |
| VideoQualitySettings.StuckStaysStuck | lib/VideoQualitySettings.tsx:38-45 | once loading is left set, no later choice changes the state |
| VideoQualitySettings.NoRejectionKeepsEnabled | lib/VideoQualitySettings.tsx:14-46 | when nothing rejects, the select is enabled after every choice and shows the last one |
| VideoQualitySettings.QualitySettings.constructor | lib/VideoQualitySettings.tsx:11-12 | quality starts at auto and loading off |
| VideoQualitySettings.QualitySettings.ChangeQuality | lib/VideoQualitySettings.tsx:14-39 | the new state and its calls are exactly those of ChangeEffect |
| ConferenceRenders.Teardown | app/custom/VideoConferenceClientImpl.tsx:91-97 | the replaced room ends disconnected, with one more disconnect call exactly when it was not already disconnected, and its setup and connect history kept |
| ConferenceRenders.Commit | app/custom/VideoConferenceClientImpl.tsx:28-97 | a render as written builds one more room: rooms built earlier are untouched, the previous one is torn down, the new one is connected exactly when the flag was already up, with E2EE on its key is only then pending, and the flag afterwards is up if it was or E2EE is off |
| ConferenceRenders.RenderStep | app/custom/VideoConferenceClientImpl.tsx:65-75 | renders and the settling of each room's own setKey and setE2EEEnabled, the flag surviving every room |
| ConferenceRenders.ConnectsRoomWithoutKey | app/custom/VideoConferenceClientImpl.tsx:28-86 | as written with E2EE on, after the re-render the room that connects still has its key pending, and the room whose setup finished is not connected |
| ConferenceRenders.RunRenders | app/custom/VideoConferenceClientImpl.tsx:28-97 | render events applied from the left |
| ConferenceRenders.RenderStepKeepsOlderRooms | app/custom/VideoConferenceClientImpl.tsx:77-86 | no event issues connect on a room already built; only a render's new room can be connected |
| ConferenceRenders.OlderRoomStaysUnconnected | app/custom/VideoConferenceClientImpl.tsx:77-86 | an unconnected room stays unconnected over any later events |
| ConferenceRenders.FirstRoomPhaseStaysDone | app/custom/VideoConferenceClientImpl.tsx:65-75 | once a room other than the current one has finished setup, no later event changes that |
| ConferenceRenders.FirstRoomNeverConnects | app/custom/VideoConferenceClientImpl.tsx:28-86 | after the counterexample's events, whatever follows, the room whose key was set and E2EE enabled is never connected |
| ConferenceRenders.RerenderReplacesLiveRoom | app/custom/VideoConferenceClientImpl.tsx:28-97 | with E2EE off, three renders leave the second room connected and then disconnected once, and the third connecting: each re-render after the flag is up drops the live room |
| ConferenceRenders.OneRoomConnectsAfterKey | app/custom/VideoConferenceClientImpl.tsx:65-86 | in the one-room machine the same events connect only after setKey and setE2EEEnabled resolved, on every trace |

## Left out

- `app/custom/components/ControlBar.tsx`, the JSX structure, class names and styling: these are presentation only.
- The SDK's internals (signalling, media capture, encoding, simulcast and encryption): SDK promises are outcomes given as parameters, and the quality operations log their SDK calls.
- The concrete values of `VideoPresets.h720`, `VideoPresets.h360` and `VideoPresets43.h480`: they live in the SDK and are parameters here.
- `useSetupE2EE`, `useLowCPUOptimizer`, `KeyboardShortcuts`, `RecordingIndicator` and `DebugMode`: they are not part of this model.
- VideoConferenceClient.ConnectFollowsE2eeSetup: it holds for one room per mounted view. In the code as written the setup-complete flag outlives the room, so the room that connects is not the one whose key was set (`ConferenceRenders.ConnectsRoomWithoutKey`).
- VideoConferenceClient.InvReachable: `connectIssued <= 1` and the single disconnect are claims about one room. As written, every render builds a new room, and the teardown disconnects the live room it replaces (`ConferenceRenders.RerenderReplacesLiveRoom`).
- React scheduling and interleavings within one async call: each of `applyQuality`, `applyLocalVideoQuality` and `changeQuality` is modelled as atomic.
- The pages and tokens in `app/rooms/[roomName]/PageClientImpl.tsx`: this context file is not part of this model.
- `console.error` logging of connect and enable rejections: these rejections do not change the modelled state.
- User-visible effects of `restartTrack`, `setParameters` and `replaceTrack`: the model records the calls, not their effect on media.
- VideoQualitySettings.ChangeEffect: the new local track built by `createLocalVideoTrack` is not published or stopped by the source, and the model keeps only its media identity.
- VideoConferenceClient.Step: `room.connect`'s URL and token are left out, and only whether and how often connect was issued is modelled. The connect effect also depends on `liveKitUrl` and `token` (line 86), so a change of either would issue connect again. `connectIssued <= 1` holds only because the model takes both as fixed.
- ConferenceRenders.Commit: the teardown's disconnect of the replaced room and the connect of the new one are counted per room. Room events, unmount and re-renders caused by `useSetupE2EE` and `useLowCPUOptimizer` are not modelled there.

## Findings

| source | as written | input that shows it | evidently intended | confidence | as-written member | corrected member |
|---|---|---|---|---|---|---|
| app/custom/VideoConferenceClientImpl.tsx:28,55,57,69,75,86 | `new ExternalE2EEKeyProvider()` runs on every render, so each render builds new room options and a new `Room`. The re-render caused by `setE2eeSetupComplete(true)` builds a second room, and the connect effect connects it at once while its `setKey` is still pending. | E2EE on: mount; `setKey` and `setE2EEEnabled` on the first room resolve; the resulting re-render | one key provider and one room per mounted view, connected only after that room's key is set and its E2EE enabled | not executed; high (React re-runs the render body and `useMemo` sees a new dependency) | ConferenceRenders.ConnectsRoomWithoutKey | ConferenceRenders.OneRoomConnectsAfterKey |
