# Neon vinyl visualizer: a Dafny model of its logic

The application plays an uploaded audio track and draws a 3D scene that moves with the music. It also handles sign-in, uploads and account administration. This project models the parts of it that hold logic:

- **Audio store** (`Audio`). A class with the transport fields (`isPlaying`, `currentTime`, `duration`, `volume`) and the analysis graph fields.
  - The graph is a context, an analyser with FFT size 256, a 128-bin byte buffer and the audio element.
  - `initializeAudio` creates the graph and `updateFrequencyData` refills the buffer in place.
- **Transport controls** (`AudioControls`).
  - The `m:ss` time formatter.
  - The seek, progress and volume slider mappings.
  - Play/pause, and the event handlers that move values between the `<audio>` element and the store.
- **Spectrum consumers**: the 64-bar ring (`SpectrumRing`), the three frequency rings (`FrequencyRings`), the nebula particles (`NebulaParticles`) and the vinyl record (`VinylRecord`).
  - Each maps instance *i* of *N* to bin ⌊i·len/N⌋ and turns a byte into an amplitude in [0, 1].
  - Each writes the audio-dependent part of its instance matrices in place (`Scene`).
- **Uploader** (`FileUploader`).
  - Validation of a dropped file, the extension, and the `userId/uuid.ext` storage path.
  - The capped progress simulation, and the `uploading`/`progress` state around an attempt.
- **Access decisions**:
  - the admin route guard (`AdminRoute`);
  - the sign-in page's redirect, pending screen, display-name derivation and loading flag (`AuthPage`);
  - the home page's view selection (`IndexPage`);
  - the auth store (`AuthStore`);
  - the admin dashboard's profile/role merge, filters, counts, labels and table snapshot (`AdminDashboard`).

`Common` holds `Option`, the user record, the role type and `TakeUntil` (`split(c)[0]`). `Spectrum` holds the bin index, amplitude and average shared by the visualizers.

Where the intended behaviour and the code differ, the model follows the code:

- **Seek and volume.** Both are meant to be clamped, the time to [0, duration] and the volume to [0, 1]. `handleSeek` and `setVolume` store what they are given; only the sliders' range keeps the values in bounds.
- **Replacing the analysis graph.** The previous graph is meant to be released before a new one is built. `initializeAudio` never closes the old `AudioContext`. The ghost field `AudioStore.contexts` records every context whose graph the store installed, and `Audio.Reinitialize` shows two live contexts after initialisations for two different elements.
- **`resumeAudioContext`.** `togglePlay` calls it, but the store shown does not define it. It is modelled as an outcome, `resumed`. As written the call would throw, the error would be caught, and nothing would change.

## Model

| member | source | states |
|---|---|---|
| Audio.AudioStore.constructor | src/stores/audio.ts:22-30 | initial state: not playing, time 0, duration 0, volume 1, no graph |
| Audio.AudioStore.SetPlaying | src/stores/audio.ts:32 | sets `isPlaying` and only it |
| Audio.AudioStore.SetCurrentTime | src/stores/audio.ts:33 | sets `currentTime` and only it |
| Audio.AudioStore.SetDuration | src/stores/audio.ts:34 | sets `duration` and only it |
| Audio.AudioStore.SetVolume | src/stores/audio.ts:35 | stores the level unclamped, changing only `volume` |
| Audio.AudioStore.InitializeAudio | src/stores/audio.ts:37-54 | fresh context, analyser and buffer set together (invariant `Valid`); buffer length fftSize/2 = 128, zeroed; the old context is kept alive in `contexts` |
| Audio.Reinitialize | src/stores/audio.ts:37-54 | initialising for two different elements leaves two distinct live contexts, the store holding the second graph and element |
| Audio.Refill | src/stores/audio.ts:59 | copying the magnitudes keeps the buffer length, overwrites the leading cells and keeps the rest |
| Audio.RefillExact | src/stores/audio.ts:59 | with one magnitude per cell the buffer becomes the spectrum |
| Audio.AudioStore.UpdateFrequencyData | src/stores/audio.ts:56-61 | refills the same buffer in place; a no-op without analyser or buffer |
| AudioControls.FormatTimeShape | src/components/visualizer/AudioControls.tsx:138-142 | for t ≥ 0: minutes ⌊t⌋ div 60, seconds ⌊t⌋ mod 60 < 60, padded to two characters |
| AudioControls.NatToString | src/components/visualizer/AudioControls.tsx:141 | decimal text is all digits, one digit exactly below 10 |
| AudioControls.ParseNatToString | src/components/visualizer/AudioControls.tsx:141 | the decimal text reads back as the number |
| AudioControls.FormatTimeRoundTrip | src/components/visualizer/AudioControls.tsx:138-142 | reading `m:ss` back gives ⌊t⌋ seconds for every t ≥ 0 |
| AudioControls.FormatTimeMinuteAndHalf | src/components/visualizer/AudioControls.tsx:138-142 | 90 seconds read "1:30" |
| AudioControls.FormatTimePadsSeconds | src/components/visualizer/AudioControls.tsx:141 | 5 seconds read "0:05": a single-digit seconds field is zero-padded |
| AudioControls.SeekTime | src/components/visualizer/AudioControls.tsx:132 | slider v ∈ [0,100] and d ≥ 0 give a time in [0, d] |
| AudioControls.ProgressValue | src/components/visualizer/AudioControls.tsx:181 | 0 without a duration, else a percentage in [0,100] for a time within the track |
| AudioControls.SeekThenProgress | src/components/visualizer/AudioControls.tsx:180-183 | seeking to v puts the progress slider at v |
| AudioControls.ProgressThenSeek | src/components/visualizer/AudioControls.tsx:180-183 | seeking to the progress slider's value keeps the playhead |
| AudioControls.VolumeFromSlider | src/components/visualizer/AudioControls.tsx:198 | v ∈ [0,100] maps into [0,1] |
| AudioControls.VolumeSliderValue | src/components/visualizer/AudioControls.tsx:197 | a level in [0,1] shows in [0,100] |
| AudioControls.VolumeSliderRoundTrip | src/components/visualizer/AudioControls.tsx:196-198 | the two volume mappings are inverse to each other |
| AudioControls.ToggledPlaying | src/components/visualizer/AudioControls.tsx:107-127 | from paused, playing iff element, resume and play all succeed; from playing, stopped unless there is no element or resume fails |
| AudioControls.TogglePlay | src/components/visualizer/AudioControls.tsx:107-127 | `isPlaying` follows `ToggledPlaying`; the element pauses or plays accordingly; errors are swallowed |
| AudioControls.SyncPlayback | src/components/visualizer/AudioControls.tsx:86-98 | afterwards the flag and the element agree; a rejected play clears the flag |
| AudioControls.OnEnded | src/components/visualizer/AudioControls.tsx:53-55 | `ended` forces `isPlaying` false |
| AudioControls.OnTimeUpdate | src/components/visualizer/AudioControls.tsx:48-51 | store time equals the element's; the buffer is refilled |
| AudioControls.OnLoadedMetadata | src/components/visualizer/AudioControls.tsx:37-46 | duration recorded; either a fresh graph with a zeroed 128-bin buffer, its context appended to `contexts`, or, when building fails, every graph field and `contexts` as they were |
| AudioControls.HandleSeek | src/components/visualizer/AudioControls.tsx:129-136 | with element and non-zero duration, element and store get the same seek time; otherwise nothing changes |
| AudioControls.OnVolumeSlider | src/components/visualizer/AudioControls.tsx:198 | the store's volume becomes the slider's level |
| AudioControls.ApplyVolume | src/components/visualizer/AudioControls.tsx:100-105 | the element's volume follows the store |
| Spectrum.BinIndex | src/components/visualizer/SpectrumRing.tsx:22 | ⌊i·len/N⌋ is below len when len > 0, and 0 for i = 0 |
| Spectrum.BinIndexMonotonic | src/components/visualizer/SpectrumRing.tsx:22 | the bin index never decreases with i |
| Spectrum.Amplitude | src/components/visualizer/SpectrumRing.tsx:23 | byte/255 lies in [0,1] |
| Spectrum.AmplitudeOrder | src/components/visualizer/SpectrumRing.tsx:23 | amplitude order and equality match byte order and equality |
| Spectrum.SumBound | src/components/visualizer/VinylRecord.tsx:17 | the byte sum is at most 255 per cell |
| Spectrum.SumConstant | src/components/visualizer/VinylRecord.tsx:17 | a constant buffer sums to length × value |
| Spectrum.Average | src/components/visualizer/VinylRecord.tsx:17 | the mean of a non-empty buffer lies in [0,255] |
| Spectrum.AverageConstant | src/components/visualizer/VinylRecord.tsx:17 | the mean of a constant buffer is that constant |
| SpectrumRing.Bar | src/components/visualizer/SpectrumRing.tsx:22-31 | height 0.2 + 2·amplitude ∈ [0.2, 2.2], placed at y = height/2 |
| SpectrumRing.BarHeightFollowsBin | src/components/visualizer/SpectrumRing.tsx:28 | a bar is taller iff its bin is louder |
| SpectrumRing.BarReadsEvenBins | src/components/visualizer/SpectrumRing.tsx:22 | with 128 bins, bar i reads bin 2i |
| SpectrumRing.Frame | src/components/visualizer/SpectrumRing.tsx:14-39 | writes exactly slots 0..63 from the spectrum and flags them; colours, their flag, rotation and height untouched; a no-op without mesh or buffer |
| FrequencyRings.Segment | src/components/visualizer/FrequencyRings.tsx:29-47 | height ≥ 0.3 for non-negative level, horizontal scale in [0.15, 0.45] equal on x and z, centred at half height |
| FrequencyRings.BeatDoublesAudioHeight | src/components/visualizer/FrequencyRings.tsx:37-40 | a beat exactly doubles the audio part of the height |
| FrequencyRings.RingMatrices | src/components/visualizer/FrequencyRings.tsx:25-53 | one transform per segment, 24 in all |
| FrequencyRings.UpdateRing | src/components/visualizer/FrequencyRings.tsx:17-56 | with a mesh and the buffer contents, slots 0..23 become the ring's segments and are flagged; colours, rotation and height untouched; a no-op without mesh or buffer |
| FrequencyRings.Move | src/components/visualizer/FrequencyRings.tsx:67-70 | the ring spins by its step and its height is lift × level |
| FrequencyRings.FrameRing | src/components/visualizer/FrequencyRings.tsx:55-79 | one ring after a frame: spun by its step, lifted to lift × level, matrices drawn from the spectrum and flagged, or kept without one; colours and their flag untouched |
| FrequencyRings.Frame | src/components/visualizer/FrequencyRings.tsx:55-79 | ring heights 4·bass, 3·mid, 2·treble; per ring, matrices drawn from the spectrum and flagged, or kept without one; colours and their flag untouched |
| NebulaParticles.MountLength | src/components/visualizer/NebulaParticles.tsx:33 | `length \|\| 128`: the buffer length, or 128 when absent or empty |
| NebulaParticles.StoreBufferLength | src/components/visualizer/NebulaParticles.tsx:33 | the length seen at mount, absent exactly when there is no buffer |
| NebulaParticles.MountIndexFitsStoreBuffer | src/components/visualizer/NebulaParticles.tsx:33 | with the store's invariant, the mount length is 128 and every chosen bin is in bounds of any later buffer |
| NebulaParticles.Particle.constructor | src/components/visualizer/NebulaParticles.tsx:18-34 | fields from the random draws; bin ⌊i·L/30⌋ |
| NebulaParticles.CreateParticles | src/components/visualizer/NebulaParticles.tsx:15-37 | 30 fresh, distinct particles, each bin below the mount length, fields in their random ranges |
| NebulaParticles.AngleStep | src/components/visualizer/NebulaParticles.tsx:49 | the step is at least 2·speed for non-negative bass |
| NebulaParticles.AngleStepMonotonic | src/components/visualizer/NebulaParticles.tsx:49 | more bass iff a larger step |
| NebulaParticles.OrbScale | src/components/visualizer/NebulaParticles.tsx:59 | scale ≥ 0.6·size > 0 for non-negative levels |
| NebulaParticles.Orb | src/components/visualizer/NebulaParticles.tsx:51-60 | radius grows by 4·amp, y by 3·amp, uniform scale |
| NebulaParticles.OrbGrowsWithAmplitude | src/components/visualizer/NebulaParticles.tsx:51-59 | a louder bin moves a particle out, up and makes it bigger |
| NebulaParticles.Glow | src/components/visualizer/NebulaParticles.tsx:70-71 | saturation ∈ [0.8,1], lightness ∈ [0.5,0.8], and saturation determines the amplitude |
| NebulaParticles.GlowInjective | src/components/visualizer/NebulaParticles.tsx:70-71 | equal colours iff equal amplitudes |
| NebulaParticles.ParticleAmplitude | src/components/visualizer/NebulaParticles.tsx:46 | the particle's amplitude lies in [0,1] |
| NebulaParticles.Cloud | src/components/visualizer/NebulaParticles.tsx:44-66 | one transform per particle |
| NebulaParticles.Glows | src/components/visualizer/NebulaParticles.tsx:69-74 | one colour per particle, each within the saturation and lightness ranges |
| NebulaParticles.Animate | src/components/visualizer/NebulaParticles.tsx:44-75 | one particle turns by its step; only its slot of the matrices and colours changes |
| NebulaParticles.Frame | src/components/visualizer/NebulaParticles.tsx:39-81 | every particle's angle grows by its step and nothing else of it changes; slot k gets particle k's transform and colour; both buffers flagged; the mesh's rotation and height untouched; a no-op without mesh or buffer |
| VinylRecord.Record.constructor | src/components/visualizer/VinylRecord.tsx:27 | the record starts at y = 0.1, unrotated |
| VinylRecord.Wobble | src/components/visualizer/VinylRecord.tsx:17-18 | the wobble lies in [0, 0.02] |
| VinylRecord.WobbleExtremes | src/components/visualizer/VinylRecord.tsx:17-18 | silence gives 0, a saturated buffer gives 0.02 |
| VinylRecord.BoundedProduct | src/components/visualizer/VinylRecord.tsx:19 | the height stays within ±0.02 |
| VinylRecord.Frame | src/components/visualizer/VinylRecord.tsx:10-22 | nothing changes when paused; rotation grows by exactly 2·delta; y untouched without a buffer, else sine × wobble |
| Common.TakeUntil | src/components/auth/AuthPage.tsx:49 | the text before the first separator is a separator-free prefix |
| Common.TakeUntilJoin | src/components/auth/AuthPage.tsx:49 | splitting a join recovers its first part |
| Common.TakeUntilAbsent | src/components/auth/AuthPage.tsx:49 | without a separator the whole text is kept |
| FileUploader.Extension | src/components/upload/FileUploader.tsx:50 | a dot-free tail of the name, preceded by a dot or the whole name |
| FileUploader.ExtensionUnique | src/components/upload/FileUploader.tsx:50 | that tail is unique: the text after the last dot |
| FileUploader.ExtensionWithoutDot | src/components/upload/FileUploader.tsx:50 | a name with no dot is its own extension |
| FileUploader.ExtensionAfterLastDot | src/components/upload/FileUploader.tsx:50 | `stem.ext` yields `ext` whatever the stem |
| FileUploader.StoragePathParts | src/components/upload/FileUploader.tsx:51-52 | the path starts with `userId/`, its first segment is the user id, and it keeps the file's extension |
| FileUploader.DecideDrop | src/components/upload/FileUploader.tsx:23-43 | no user → sign-in; empty drop → nothing; first file over 52,428,800 bytes → rejected; otherwise accepted |
| FileUploader.AcceptedPath | src/components/upload/FileUploader.tsx:50-52 | an accepted file is stored in the user's folder with its own extension |
| FileUploader.SizeGateBoundary | src/components/upload/FileUploader.tsx:36 | exactly 50 MiB is accepted, one byte more is not |
| FileUploader.Ticks | src/components/upload/FileUploader.tsx:57-68 | at most one shown value per tick |
| FileUploader.TicksShape | src/components/upload/FileUploader.tsx:57-68 | shown progress never falls, never exceeds 90, and reaches 90 only on the tick that stops the interval |
| FileUploader.SimulateProgress | src/components/upload/FileUploader.tsx:57-68 | the loop shows exactly `Ticks`, all within [0, 90] |
| FileUploader.Uploader.constructor | src/components/upload/FileUploader.tsx:17-18 | not uploading, progress 0 |
| FileUploader.Uploader.BeginAttempt | src/components/upload/FileUploader.tsx:45-77 | uploading set, progress 0, then the ticks, then 100 after the upload call |
| FileUploader.Uploader.Finish | src/components/upload/FileUploader.tsx:120-123 | uploading cleared and progress reset to 0 |
| FileUploader.Uploader.Attempt | src/components/upload/FileUploader.tsx:48-123 | the attempt as written: the path is stored; the track row is sent to the insert and completion reported per backend outcome; an unreadable file leaves `uploading` true |
| FileUploader.Uploader.AttemptSettling | src/components/upload/FileUploader.tsx:82-91 | with the probe also settling on error, `uploading` is false and progress 0 after every attempt |
| FileUploader.Uploader.OnDrop | src/components/upload/FileUploader.tsx:22-124 | as written: a rejected drop changes nothing; an accepted one stores the path, reports completion per backend outcome, and stays uploading (progress 100) exactly when the upload succeeds and the file cannot be read |
| FileUploader.Uploader.OnDropSettling | src/components/upload/FileUploader.tsx:22-124 | corrected: the same drop with the probe settling on error always ends not uploading, progress 0 |
| FileUploader.StuckAfterUnreadableFile | src/components/upload/FileUploader.tsx:86-91 | as written, an unreadable file leaves the drop zone disabled |
| FileUploader.RecoversAfterUnreadableFile | src/components/upload/FileUploader.tsx:86-91 | with the corrected probe, the drop zone accepts again |
| AdminDashboard.FirstMatch | src/components/admin/AdminDashboard.tsx:80 | the first row for the user, or none iff no row matches |
| AdminDashboard.FindRole | src/components/admin/AdminDashboard.tsx:80 | a found row belongs to the user |
| AdminDashboard.AccountRole | src/components/admin/AdminDashboard.tsx:85 | the shown role is never empty |
| AdminDashboard.AccountRoleIsFirstMatch | src/components/admin/AdminDashboard.tsx:80-85 | the role is that of the first matching row |
| AdminDashboard.AccountRoleUnmatched | src/components/admin/AdminDashboard.tsx:85 | no matching row, or no roles at all → 'pending' |
| AdminDashboard.DisplayName | src/components/admin/AdminDashboard.tsx:84 | a missing or empty name becomes 'Utilisateur sans nom' |
| AdminDashboard.MergeProfile | src/components/admin/AdminDashboard.tsx:81-88 | id and email are the profile's user id; name and role defaulted as above |
| AdminDashboard.MergeAccounts | src/components/admin/AdminDashboard.tsx:79-89 | one entry per profile in profile order; none without profiles |
| AdminDashboard.PendingRequests | src/components/admin/AdminDashboard.tsx:209 | exactly the requests with status 'pending' |
| AdminDashboard.PendingRequestsAppend | src/components/admin/AdminDashboard.tsx:209 | filtering distributes over concatenation, so order is kept |
| AdminDashboard.ActiveUserCount | src/components/admin/AdminDashboard.tsx:241 | the count never exceeds the list |
| AdminDashboard.ActiveUserCountAppend | src/components/admin/AdminDashboard.tsx:241 | the count is additive over concatenation |
| AdminDashboard.ActiveUserCountAdd | src/components/admin/AdminDashboard.tsx:241 | an added account counts iff its role is 'user'; admins never count |
| AdminDashboard.StatusLabel | src/components/admin/AdminDashboard.tsx:300-301 | approved → 'Approuvé', rejected → 'Rejeté', anything else → 'En attente' |
| AdminDashboard.StatusVariant | src/components/admin/AdminDashboard.tsx:296-299 | badge style per status, by the same three cases |
| AdminDashboard.ReviewButtonsOnPendingRequests | src/components/admin/AdminDashboard.tsx:209-305 | the rows offering approve/reject buttons are exactly the requests counted on the pending card |
| AdminDashboard.ReviewButtonsAndLabel | src/components/admin/AdminDashboard.tsx:296-305 | buttons imply 'En attente'; an unknown status shows 'En attente' without buttons |
| AdminDashboard.RoleLabel | src/components/admin/AdminDashboard.tsx:359-360 | admin → 'Admin', user → 'Utilisateur', anything else → 'En attente' |
| AdminDashboard.UnmatchedAccountShownWaiting | src/components/admin/AdminDashboard.tsx:355-360 | an account without a role row shows 'En attente' |
| AdminDashboard.ValidTablesDistinct | src/components/admin/AdminDashboard.tsx:104 | the five table names are distinct |
| AdminDashboard.Put | src/components/admin/AdminDashboard.tsx:114 | assignment keeps the key order, appending a new key at the end |
| AdminDashboard.SnapshotKeys | src/components/admin/AdminDashboard.tsx:107-116 | the kept tables are among those queried |
| AdminDashboard.Collected | src/components/admin/AdminDashboard.tsx:107-116 | the snapshot after the queries is well formed and holds only queried tables |
| AdminDashboard.CollectedContents | src/components/admin/AdminDashboard.tsx:104-116 | with distinct names: exactly the tables whose query returned data without error, each with its rows, keyed in query order |
| AdminDashboard.CollectTables | src/components/admin/AdminDashboard.tsx:104-116 | the loop builds `Collected`, hence exactly the loaded tables with their rows in query order |
| AdminDashboard.TableCountAfterFetch | src/components/admin/AdminDashboard.tsx:251 | after a fetch, a table's count (the Tracks card) is the number of rows its query returned, 0 when it failed or gave none |
| AdminDashboard.NextSelection | src/components/admin/AdminDashboard.tsx:119-121 | the first key is selected only when nothing was selected and the snapshot is non-empty |
| AdminDashboard.Dashboard.constructor | src/components/admin/AdminDashboard.tsx:37-40 | empty lists, empty snapshot, nothing selected |
| AdminDashboard.Dashboard.FetchAccountRequests | src/components/admin/AdminDashboard.tsx:44-61 | data replaces the list, `null` empties it, an error keeps it |
| AdminDashboard.Dashboard.FetchUserAccounts | src/components/admin/AdminDashboard.tsx:63-100 | the list becomes the merge, or is kept when a query fails |
| AdminDashboard.Dashboard.FetchDatabaseData | src/components/admin/AdminDashboard.tsx:102-121 | the snapshot becomes `Collected` over the five tables, hence exactly the loaded tables with their rows; the selection moves per `NextSelection` |
| AdminDashboard.Dashboard.PendingCount | src/components/admin/AdminDashboard.tsx:231 | at most the number of requests |
| AdminDashboard.Dashboard.ActiveUsers | src/components/admin/AdminDashboard.tsx:241 | at most the number of accounts |
| AdminRoute.Guard | src/components/admin/AdminRoute.tsx:14-35 | spinner iff loading; `/auth` iff no user; `/` iff a non-admin user; children iff an admin; the four outcomes are exhaustive and exclusive |
| AdminRoute.LoadingHidesIdentity | src/components/admin/AdminRoute.tsx:14-23 | while loading the spinner shows whatever the user and role |
| AdminRoute.NonAdminsSentHome | src/components/admin/AdminRoute.tsx:30-35 | null, pending and user roles are sent to `/`; admins are admitted |
| AuthPage.RedirectTarget | src/components/auth/AuthPage.tsx:22-33 | admin → `/admin`, user → `/`, no navigation for pending, null role or no user |
| IndexPage.PendingScreenMatchesPendingCard | src/components/auth/AuthPage.tsx:86 | the sign-in page's waiting screen shows for exactly the users the home page gives the pending card |
| AuthPage.PendingScreenStays | src/components/auth/AuthPage.tsx:22-33 | the waiting screen and a redirect never coincide |
| AuthPage.DisplayNameFromEmail | src/components/auth/AuthPage.tsx:49 | an '@'-free prefix of the email, ending at the first '@' |
| AuthPage.DisplayNameOfAddress | src/components/auth/AuthPage.tsx:49 | `local@domain` gives `local`; an address without '@' is used whole |
| AuthPage.AuthForm.constructor | src/components/auth/AuthPage.tsx:14-17 | empty fields, sign-in mode, not loading |
| AuthPage.AuthForm.PendingCall | src/components/auth/AuthPage.tsx:40-72 | sign-up iff in sign-up mode, carrying the derived display name |
| AuthPage.AuthForm.HandleAuth | src/components/auth/AuthPage.tsx:35-83 | loading raised then lowered on every path, one call made, the notice matches the mode and outcome |
| AuthPage.AuthForm.ToggleMode | src/components/auth/AuthPage.tsx:191 | the link flips sign-up mode |
| IndexPage.MainPanel | src/pages/Index.tsx:142-182 | sign-in card iff no user; pending card iff role 'pending'; uploader otherwise, including a null role; admin card iff admin |
| IndexPage.RoleBadge | src/pages/Index.tsx:80-86 | no badge without a role; one label per role |
| IndexPage.RecentTracksForRedirectedUsers | src/pages/Index.tsx:22-26 | recent tracks are fetched for exactly the users the sign-in page redirects away |
| IndexPage.View | src/pages/Index.tsx:56-186 | only the spinner while loading; user bar iff signed in; admin button iff admin; recent tracks iff fetched and non-empty |
| IndexPage.AdminFeaturesOnlyForAdmin | src/pages/Index.tsx:89-157 | the admin button and admin card appear exactly for an admin |
| IndexPage.RecentTracksBesideUploader | src/pages/Index.tsx:168-186 | recent tracks only beside an uploader; a null role gets the uploader without them |
| IndexPage.AdminButtonMatchesGuard | src/pages/Index.tsx:89-94 | the admin button shows exactly when the route guard would admit |
| IndexPage.SignInRedirectsAgree | src/components/auth/AuthPage.tsx:24-27 | a user sent to `/admin` is admitted by the guard; one sent to `/` gets an uploader |
| AuthStore.UserOf | src/stores/auth.ts:22 | `session?.user ?? null` |
| AuthStore.AuthStore.constructor | src/stores/auth.ts:15-17 | user and session null, loading |
| AuthStore.AuthStore.SetSession | src/stores/auth.ts:19-25 | session stored, user derived from it (null clears it), loading false; keeps user = user of session |

## Left out

- Band levels, smoothing, beat detection and `resumeAudioContext` are not defined by the store shown. They are inputs: `Bands` in `FrequencyRings`, `bass`/`mid` in `NebulaParticles`, and `resumed` in `AudioControls.TogglePlay`.
- Web Audio and the `<audio>` element are foreign.
  - `getByteFrequencyData` is the `magnitudes` parameter.
  - A failure of `initializeAudio` (for example `createMediaElementSource` on an element already bound) is the `graphBuilt` outcome.
  - `play()` resolving is `playStarted`.
  - The element is a small class with `paused`, `currentTime`, `duration` and `volume`.
- Trigonometry, rotations, hue and elapsed time are not modelled.
  - `Scene.Transform` keeps the audio-dependent parts of a matrix: distance from the axis, height and scales.
  - `Scene.Shade` keeps saturation and lightness.
  - `VinylRecord.Frame` takes `Math.sin(elapsedTime·4)` as `sine`.
- `Math.random`, `crypto.randomUUID` and the interval's timing are parameters.
  - The particle draws are `Draw` values in [0,1).
  - The progress increments are the ticks that fire before the upload returns.
- Numbers are exact reals and integers, not IEEE doubles. `⌊(i/N)·len⌋` is computed as `(i·len)/N`.
- All backend I/O is reduced to outcomes: Supabase queries, RPCs, storage, signed URLs and auth calls. This covers the approve/reject RPCs, `loadRecentTracks`, the dashboard's `loading` flag and query ordering/limits.
- Also not modelled:
  - `src/hooks/use-auth.ts`, and `initialize`/`signOut` in the auth store;
  - toasts, routing, JSX markup;
  - the decorative scene components.
- The drop zone's MIME filter and `maxFiles: 1` decide the `accepted` list, which is an input.
- `AudioControls.FormatTimeShape`: stated for non-negative times only. Negative times cannot come from the element.
- `NebulaParticles.Frame`: requires every particle's bin to be below 128, the store's bin count. `NebulaParticles.MountIndexFitsStoreBuffer` shows that every mount satisfies this. An out-of-range read, which yields `undefined` in JavaScript, is not modelled.
- `FrequencyRings.Frame`: the source calls `updateRing` for all three rings and then moves them. The model finishes one ring at a time. The rings share no state, so the final state is the same.
- `NebulaParticles.Frame`: `setColorAt` is taken to have created the colour buffer, so the colour flag is always raised.

## Findings

| source | as written | input that shows it | evidently intended | confidence | as-written member | corrected member |
|---|---|---|---|---|---|---|
| src/components/upload/FileUploader.tsx:86-91 | the duration promise resolves only on `loadedmetadata` and nothing rejects it, so an unreadable file never reaches `finally` | signed-in user drops `song.mp3` (1000 bytes); the storage upload succeeds; the browser fires `error` instead of `loadedmetadata` | the attempt fails like any other error; `uploading` returns to false and the drop zone accepts again | medium, not executed | FileUploader.StuckAfterUnreadableFile | FileUploader.Uploader.OnDropSettling |
