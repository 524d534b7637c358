# TennisMotion core, modelled in Dafny

TennisMotion is a React Native tennis app. A camera screen runs a native pose or
object detector on every frame and draws the result over the preview. A recorder
saves clips into a shared video list. A small SQLite helper builds SQL text. Two
profile screens store the player's name, height, gender, handedness and level in
the device's key/value store.

This project models the parts of that code that carry logic:

- `types.dfy` (`Types`): the twelve-landmark `PoseType` record and the pose
  detector options.
- `pose_draw.dfy` (`PoseDraw`): the per-frame pose transform, the pose overlay's
  state slot and the twelve skeleton segments it draws.
  - Axes are swapped, scaled by window/frame ratios and mirrored with `width - x`.
  - The transform itself is an imperative loop over the default pose's keys.
- `session_player.dfy` (`SessionPlayer`): the per-box rescale of detected objects
  and the object overlay's state slot.
- `camera_format.dfy` (`CameraFormat`): choosing the back camera and its capture
  format. The rule is first-match, else the first format.
- `database.dfy` (`Database`): the SQL builders of the `SQLite` helper and its `db`
  handle.
  - `updateItem`, `queryItems` and `selectItems` grow their statement with `+=`
    and are modelled as methods. Each is proved equal to a function that
    specifies the statement.
  - The engine's answer to a statement is an input (`Execution`).
- `video_context.dfy` (`VideoContext`): the shared, prepend-only video list.
- `video_player.dfy` (`VideoPlayer`): the recording toggle, `file://` URI
  normalisation and what a finished recording adds to the list.
- `profile.dfy` (`Profile`): store keys, height dropdown values, the
  `feet'inches"` height text and the fixed answers.
- `profile_setup.dfy` (`ProfileSetup`): the five-step first-run wizard.
- `profile_screen.dfy` (`ProfileScreen`): the edit menu, its five dialogs and the
  picture picker.
- `strings.dfy` and `wrappers.dfy`: JavaScript string helpers (`join`, `trim`,
  `indexOf`, number rendering) and `Option`/`Result`.

Numbers are `real` (pose and box coordinates) or `int` (SQL paging). The key/value
store is a `map<string, string>`. Plugins, the clock, gallery saves and thumbnail
creation become parameters.

How the pose transform works (src/screens/PoseDraw.tsx:75-99):

- The window's horizontal coordinate comes from the detector's `y`, scaled by
  `height / frame.width` and then mirrored (`width - ...`), whichever camera is in use.
- The window's vertical coordinate is the detector's `x` scaled by
  `width / frame.height`.
- `PoseDraw.ReferenceFrameExample` works one point through for a 1080x1920 frame
  in a 390x844 window: (960, 540) lands at (-32, 195).
- The code has no flag that switches the detector on and off, no fixed set of
  object slots and no guard for frames that arrive after teardown.

## Model

| member | source | states |
|---|---|---|
| Types.NameRoundTrip | src/utils/types.ts:3-14 | every landmark's record key reads back as that landmark, and only the twelve keys are landmark keys |
| Types.NameInjective | src/utils/types.ts:3-14 | distinct landmarks have distinct record keys |
| Types.LandmarkOrderComplete | src/utils/types.ts:2-15 | `PoseType` has exactly twelve fields, all distinct, and every landmark is one of them |
| Types.LandmarksPairUp | src/utils/types.ts:3-14 | the fields come in left/right pairs of the same joint |
| Types.DefaultPose | src/screens/PoseDraw.tsx:19-32 | the default pose has all twelve landmarks, each at (0, 0) |
| Types.OptionTextsRoundTrip | src/utils/types.ts:17-22 | `mode` is exactly `'stream'` or `'single'` and `performanceMode` exactly `'min'` or `'max'`; each reads back |
| Types.EffectiveMode | src/utils/types.ts:18-19 | an omitted `mode` means `stream`; a given one is used |
| Types.EffectivePerformanceMode | src/utils/types.ts:20-21 | an omitted `performanceMode` means `min`; a given one is used |
| Types.PoseOptionsInEffect | src/utils/detectPose.ts:7-10 | the app's detector runs in `stream` mode at `max` performance, overriding the documented `min` default |
| CameraFormat.SelectFormat | src/screens/PoseDraw.tsx:46-57 | the first 1920x1080 format whose fps range contains 30; else the first format; nothing when there are no formats (the same rule as src/screens/SessionPlayer.tsx:31-42) |
| CameraFormat.BackDevice | src/screens/PoseDraw.tsx:41 | the chosen device is the first listed back camera, and none is chosen only when no back camera is listed |
| PoseDraw.DisplayPointRoundTrip | src/screens/PoseDraw.tsx:75-99 | for a non-empty window the point mapping is undone exactly by `DetectorPoint`, both ways |
| PoseDraw.ExpectedPose | src/screens/PoseDraw.tsx:90-101 | the handed-over pose has all twelve landmarks: a mapped point where the detector reported the key, the origin where it did not |
| PoseDraw.TransformPose | src/screens/PoseDraw.tsx:90-101 | the key-by-key loop over a copy of the default pose produces exactly `ExpectedPose`; the default pose is a value and stays as it was |
| PoseDraw.PresentLandmark | src/screens/PoseDraw.tsx:75-99 | a reported landmark lands at `x = width - y * (height / frame.width)`, `y = x * (width / frame.height)` |
| PoseDraw.AbsentLandmark | src/screens/PoseDraw.tsx:90-101 | an unreported landmark stays at the origin and is not mirrored |
| PoseDraw.UnknownKeyIgnored | src/screens/PoseDraw.tsx:93-95 | a detector key that is not a `PoseType` field does not change the pose |
| PoseDraw.ReferenceFrameExample | src/screens/PoseDraw.tsx:75-99 | with a 1080x1920 frame and a 390x844 window, (960, 540) maps to (-32, 195) |
| PoseDraw.SkeletonShape | src/screens/PoseDraw.tsx:143-243 | twelve segments: the five wrist-to-ankle links on each side, then shoulder to shoulder and hip to hip; every landmark is an endpoint |
| PoseDraw.DrawSkeletonConnected | src/screens/PoseDraw.tsx:143-243 | the twelve drawn lines form connected limbs: on each side every arm and leg line starts where the previous one ends, and the two cross lines join the shoulder ends and the hip ends of the two sides |
| PoseDraw.PoseOverlay.constructor | src/screens/PoseDraw.tsx:42 | the overlay starts with the default pose |
| PoseDraw.PoseOverlay.HandlePose | src/screens/PoseDraw.tsx:59-64 | a delivered pose replaces the slot wholesale |
| PoseDraw.PoseOverlay.OnFrame | src/screens/PoseDraw.tsx:67-105 | a frame whose detector call fails leaves the pose; otherwise the slot becomes the transformed pose (the last delivery wins) |
| PoseDraw.PoseOverlay.Overlay | src/screens/PoseDraw.tsx:107-123 | nothing is drawn until a back camera exists and both camera and microphone report `'granted'`; then the skeleton of the current pose |
| SessionPlayer.RescaleObjects | src/screens/SessionPlayer.tsx:59-74 | same length and order; `x` scaled by `height / frame.width` and `y` by `width / frame.height`, with no mirroring; every other field, `width` and `height` included, copied unchanged |
| SessionPlayer.RescaleRoundTrip | src/screens/SessionPlayer.tsx:59-74 | for a non-empty window each rescaled box unscales to the detector's box |
| SessionPlayer.RescaleAppend | src/screens/SessionPlayer.tsx:70-74 | the rescale works box by box: rescaling a concatenation is concatenating the rescales |
| SessionPlayer.ObjectOverlay.constructor | src/screens/SessionPlayer.tsx:27 | the object slot starts empty |
| SessionPlayer.ObjectOverlay.HandlePositions | src/screens/SessionPlayer.tsx:44-48 | a delivered list replaces the slot wholesale |
| SessionPlayer.ObjectOverlay.OnFrame | src/screens/SessionPlayer.tsx:51-79 | a failed detector call leaves the slot; otherwise it becomes the rescaled copy |
| Database.ReduceFieldsShape | src/utils/database.ts:112-116 | the `reduce` from any field on appends the remaining definitions joined by `,` and closed by `);` |
| Database.CreateTableShape | src/utils/database.ts:108-116 | `CREATE TABLE IF NOT EXISTS t(` then ` col type` per field separated by `,` and closed by `);`; with no fields there is no `);` |
| Database.PlaceholderCount | src/utils/database.ts:146 | the placeholder list holds one `?` per key |
| Database.InsertPlaceholdersMatchValues | src/utils/database.ts:144-146 | placeholder count, key count and bound-value count agree; value `i` belongs to column `i` |
| Database.InsertColumnsInOrder | src/utils/database.ts:144-147 | one entry gives `INSERT INTO t (k) VALUES (?)` bound to `[v]`; the columns and values of concatenated entries are those of each part, in entry order |
| Database.ClauseSingle | src/utils/database.ts:166 | one entry gives one `k='v'` pair |
| Database.ClauseAppend | src/utils/database.ts:165-167 | pairs keep entry order: the clause of two lists is their clauses joined by one separator |
| Database.DeleteMatchesWhereTail | src/utils/database.ts:159-171 | with no condition or a one-pair condition, `deleteItem`'s statement is `DELETE FROM t` followed by the same tail `updateItem` and `queryItems` use; every delete statement ends in `;` |
| Database.DeleteJoinsInOrder | src/utils/database.ts:163-167 | from two pairs on, the condition's pairs are joined by the lower-case ` and ` in entry order |
| Database.WhereTail | src/utils/database.ts:193-200 | the WHERE tail always ends in `;` |
| Database.BuildUpdateSql | src/utils/database.ts:184-200 | the `+=` construction yields `UpdateSql` |
| Database.UpdateShape | src/utils/database.ts:187-200 | SET pairs joined by `, ` in entry order; ` WHERE` with pairs joined by ` AND ` exactly when a non-empty condition is given; ends in `;` |
| Database.ArrayConditionLosesKeys | src/utils/database.ts:184-196 | given the declared `Condition[]`, `[{id: '7'}]` renders `0='[object Object]'` where the object form renders `id='7'` |
| Database.BuildQuerySql | src/utils/database.ts:212-224 | the `+=` construction yields `SELECT DISTINCT * FROM t` plus the WHERE tail |
| Database.Pagination | src/utils/database.ts:262-266 | a LIMIT/OFFSET pair exists exactly when page and page size are both non-zero; LIMIT minus OFFSET is the page size and OFFSET is `(p-1)*n` |
| Database.BuildSelectSql | src/utils/database.ts:237-268 | the `+=` construction yields `SelectSql`: `*` or the columns joined by `, `, then WHERE, ORDER BY, LIMIT/OFFSET, then `;` |
| Database.SelectShape | src/utils/database.ts:251-268 | the statement always ends in `;`; with a condition the WHERE part carries its own `;` before any ORDER BY or LIMIT |
| Database.SelectPaged | src/utils/database.ts:262-268 | with only paging given the statement ends `LIMIT p*n OFFSET (p-1)*n;` |
| Database.QueryIsSelectAll | src/utils/database.ts:212-268 | `queryItems` equals `selectItems` over `*` without paging or order, except for the extra `;` `selectItems` adds after a condition |
| Database.SQLite.constructor | src/utils/database.ts:46-48 | a new helper has its name and location and no handle |
| Database.SQLite.Open | src/utils/database.ts:77-93 | a successful open sets the handle; a failed one leaves it as it was |
| Database.SQLite.Close | src/utils/database.ts:95-106 | the handle is cleared only when one exists and closing succeeds |
| Database.SQLite.EnsureOpen | src/utils/database.ts:110 | the database is opened first only when there is no handle |
| Database.SQLite.Answer | src/utils/database.ts:30-34 | the engine's result when it runs the statement; otherwise, or with no handle, the empty result set (insertId 0, rowsAffected 0, no rows) |
| Database.SQLite.CreateTable | src/utils/database.ts:108-126 | opens on demand, builds `CreateTableSql`, returns the result or the empty result set |
| Database.SQLite.DropTable | src/utils/database.ts:128-139 | opens on demand, runs `DROP TABLE t;`, returns the result or the empty result set |
| Database.SQLite.InsertItem | src/utils/database.ts:141-157 | opens on demand, builds `InsertSql` with the values in key order, and returns `true` exactly when the statement ran |
| Database.SQLite.DeleteItem | src/utils/database.ts:159-182 | opens on demand, builds `DeleteSql`, and returns `true` exactly when the statement ran |
| Database.SQLite.UpdateItem | src/utils/database.ts:184-210 | opens on demand, builds `UpdateSql`, returns the result or the empty result set |
| Database.SQLite.QueryItems | src/utils/database.ts:212-235 | opens on demand, builds `QuerySql`, returns the result or the empty result set |
| Database.SQLite.SelectItems | src/utils/database.ts:237-280 | opens on demand, builds `SelectSql`, returns the result or the empty result set |
| VideoContext.MockVideosShape | src/context/VideoContext.tsx:10-15 | the initial list has four entries with ids `1` to `4`; only the third poster is empty |
| VideoContext.AfterAdds | src/context/VideoContext.tsx:21 | each addition grows the list by exactly one |
| VideoContext.AfterAddsReverses | src/context/VideoContext.tsx:21 | successive additions are newest first and the earlier list follows unchanged, repeated ids included |
| VideoContext.VideoStore.constructor | src/context/VideoContext.tsx:20 | the list starts as the four sample videos |
| VideoContext.VideoStore.AddVideo | src/context/VideoContext.tsx:21 | the new item is at index 0 and the old list follows unchanged |
| VideoContext.UseVideoContext | src/context/VideoContext.tsx:29-32 | outside a provider the hook fails with `useVideoContext must be used within VideoProvider`; inside it returns the provider's store |
| VideoPlayer.NormaliseUri | src/screens/VideoPlayer.tsx:66 | the URI starts with `file://`; a prefixed path is kept; otherwise the path follows the prefix |
| VideoPlayer.NormaliseUriIdempotent | src/screens/VideoPlayer.tsx:66 | normalising twice is normalising once; a path is unchanged exactly when it already starts with `file://` |
| VideoPlayer.Poster | src/screens/VideoPlayer.tsx:52-55 | no poster when thumbnail creation failed or gave an empty path; otherwise the thumbnail path |
| VideoPlayer.RecordingErrorAlert | src/screens/VideoPlayer.tsx:76-79 | the alert shows the error's message, or `Unknown error` when it is empty |
| VideoPlayer.SavedVideoShape | src/screens/VideoPlayer.tsx:66-69 | a saved clip has a `file://` URI, an id that reads back as its timestamp, and no empty poster |
| VideoPlayer.VideoRecorder.constructor | src/screens/VideoPlayer.tsx:26-27 | permissions not yet granted, not recording |
| VideoPlayer.VideoRecorder.RequestPermissions | src/screens/VideoPlayer.tsx:31-42 | permissions count as granted only when camera and microphone both report `'granted'` |
| VideoPlayer.VideoRecorder.HandleStartRecording | src/screens/VideoPlayer.tsx:59-85 | no-op without a camera or while recording; otherwise recording begins, and ends again with an alert when the camera cannot start |
| VideoPlayer.VideoRecorder.HandleStopRecording | src/screens/VideoPlayer.tsx:87-91 | the camera is asked to stop exactly when one exists and a recording runs |
| VideoPlayer.VideoRecorder.OnRecordingFinished | src/screens/VideoPlayer.tsx:64-75 | a saved clip is prepended to the shared list; a failed save adds nothing and alerts; either way recording ends and the list screen shows |
| VideoPlayer.VideoRecorder.OnRecordingError | src/screens/VideoPlayer.tsx:76-79 | the error is alerted and recording ends |
| Profile.IsNameFilled | src/screens/ProfileSetup.tsx:43 | a name counts as filled exactly when it is not all whitespace |
| Profile.HeightOptionsAreNumbers | src/screens/ProfileSetup.tsx:14-38 | the feet values are `1` to `7` and the inches values `0` to `12`, in decimal |
| Profile.HeightOptionsUnquoted | src/screens/ProfileSetup.tsx:14-38 | no dropdown value contains `'` or `"` |
| Profile.HeightRoundTrip | src/screens/ProfileSetup.tsx:105 | the `feet'inches"` text splits back into its feet and inches when the feet contain no `'` |
| Profile.ChosenHeightRoundTrip | src/screens/ProfileScreen.tsx:201 | every height the dropdowns allow is stored as text that reads back as the chosen pair |
| Profile.ChoiceTextsRoundTrip | src/screens/ProfileSetup.tsx:120-160 | stored answers are exactly {Male, Female}, {Left, Right} and {Beginner, Intermediate, Advanced}, each reading back as its choice |
| ProfileSetup.ProfileWizard.constructor | src/screens/ProfileSetup.tsx:8-46 | only the name step shows; name, feet and inches are empty |
| ProfileSetup.ProfileWizard.ChangeName | src/screens/ProfileSetup.tsx:60 | every edit of the name is written to the store at once, before Next |
| ProfileSetup.ProfileWizard.NextFromName | src/screens/ProfileSetup.tsx:62-66 | Next moves to the height step only when the trimmed name is non-empty; otherwise nothing changes |
| ProfileSetup.ProfileWizard.SelectFeet | src/screens/ProfileSetup.tsx:85-88 | the chosen feet value is kept |
| ProfileSetup.ProfileWizard.SelectInches | src/screens/ProfileSetup.tsx:97-99 | the chosen inches value is kept |
| ProfileSetup.ProfileWizard.NextFromHeight | src/screens/ProfileSetup.tsx:103-107 | disabled while feet or inches is empty; otherwise stores `feet'inches"` and moves to the gender step |
| ProfileSetup.ProfileWizard.ChooseGender | src/screens/ProfileSetup.tsx:120-123 | stores Male or Female and moves to the handedness step |
| ProfileSetup.ProfileWizard.ChooseHandedness | src/screens/ProfileSetup.tsx:137-140 | stores Left or Right and moves to the level step |
| ProfileSetup.ProfileWizard.ChooseLevel | src/screens/ProfileSetup.tsx:154-160 | stores the level and closes the wizard with no step showing and all five answers stored and well-formed; at most one step shows throughout |
| ProfileScreen.GetData | src/screens/ProfileScreen.tsx:28-40 | the stored value, or `""` when the key is absent or the read fails |
| ProfileScreen.ProfileEditor.constructor | src/screens/ProfileScreen.tsx:67-72 | every dialog starts hidden |
| ProfileScreen.ProfileEditor.PressEdit | src/screens/ProfileScreen.tsx:260 | Edit shows the menu |
| ProfileScreen.ProfileEditor.OpenDialog | src/screens/ProfileScreen.tsx:85-98 | a menu button hides the menu and shows exactly the chosen field's dialog |
| ProfileScreen.ProfileEditor.TypeName | src/screens/ProfileScreen.tsx:121 | typing changes only the dialog's local name; nothing is stored |
| ProfileScreen.ProfileEditor.CancelName | src/screens/ProfileScreen.tsx:126 | Cancel closes the name dialog and stores nothing |
| ProfileScreen.ProfileEditor.ConfirmName | src/screens/ProfileScreen.tsx:132-135 | Confirm stores the typed name only when its trim is non-empty, and closes either way |
| ProfileScreen.ProfileEditor.SelectFeet | src/screens/ProfileScreen.tsx:186 | the chosen feet value is kept in the dialog's local |
| ProfileScreen.ProfileEditor.SelectInches | src/screens/ProfileScreen.tsx:195 | the chosen inches value is kept in the dialog's local |
| ProfileScreen.ProfileEditor.SaveHeight | src/screens/ProfileScreen.tsx:201 | `feet'inches"` is stored only when both are chosen; the dialog closes either way |
| ProfileScreen.ProfileEditor.ChooseGender | src/screens/ProfileScreen.tsx:155-158 | stores Male or Female and closes the dialog |
| ProfileScreen.ProfileEditor.ChooseHandedness | src/screens/ProfileScreen.tsx:219-222 | stores Left or Right and closes the dialog |
| ProfileScreen.ProfileEditor.ChooseLevel | src/screens/ProfileScreen.tsx:240-246 | stores the level and closes the dialog; every dialog keeps a well-formed profile well-formed |
| ProfileScreen.ProfileOptionsComplete | src/screens/ProfileScreen.tsx:7-16 | the picker lists each of the seven icons exactly once |
| ProfileScreen.ProfilePic.constructor | src/screens/ProfileScreen.tsx:286-287 | the picture starts as the first option and the picker is closed |
| ProfileScreen.ProfilePic.OpenPicker | src/screens/ProfileScreen.tsx:301 | the pencil button opens the picker and keeps the picture |
| ProfileScreen.ProfilePic.HandleSelect | src/screens/ProfileScreen.tsx:289-292 | the chosen icon is shown and the picker closes |

## Left out

- Cross-thread delivery (`Worklets.createRunOnJS`) is concurrency. A frame's transform and its delivery are one sequential step (`OnFrame`).
- The native detectors (src/utils/detectPose.ts, src/utils/detectObjects.ts, src/utils/detectCourt.ts) wrap plugins whose code is not part of this model. A detector call is an input `Result`, whose failure case stands for a missing plugin.
- A detector entry that is `null` or `undefined` counts as missing. An entry whose value is not a point is not modelled.
- `ObjectType` is not defined in the source. It is modelled from its use: a class name, a confidence and a box.
- Permission requests (src/utils/permissions.ts), gallery code (src/utils/gallery.ts) and the picker code in src/screens/AnalyzeScreen.tsx are left out. Their status strings are inputs.
- CameraRoll saving, thumbnail creation, `Date.now()` and SQLite execution are inputs: a failure flag, the thumbnail path, a millisecond count, and `Execution`.
- `SQLite.delete` is not modelled. It only asks the platform to delete a file and logs errors.
- Logging is not modelled (console and `successInfo`/`errorInfo`). Alert dialogs are kept only by the recorder, as a list of the alerts shown.
- Navigation is only the recorder's `route` field. The other screens and all layout and drawing are not part of this model (src/App.tsx, src/screens/VideoScreen.tsx, src/screens/RecordScreen.tsx, src/screens/PoseScreen.tsx).
- IEEE floating point is not modelled: coordinates are exact reals. Frame sizes must be positive, because the source divides by them unguarded.
- Database.Entries: item and condition values are `string | number` in the source. The model takes them as strings: in the WHERE and SET clauses as a template literal renders them, and in `insertItem` as the bound parameters, which the source passes to the engine unrendered. How a JavaScript number prints, and how the engine binds a number, are not modelled.
- Database.SQLite: each operation is one atomic step. In the source every operation awaits `open()` before it awaits `executeSql`, so calls can interleave: two calls on an unopened helper can both open, and a `close()` between another call's open and its statement makes `this.db!` throw, which that call answers with the empty result set or `false`. This interleaving is not modelled.
- Database.Pagination: page numbers are integers. `NaN` and fractional page sizes are not modelled.
- No property is stated about SQL quoting or injection: values are interpolated raw.
- The SQL engine is not modelled. Only the statement text and whether the engine answered are.
- `Profile.Store`: a failed or pending `AsyncStorage.setItem` is not modelled. Writes take effect at once.
- `ProfileScreen` passes `getData` promises straight into `ProfilePic` and `Info` props. That rendering is not modelled; `GetData` gives the value the promise resolves to.
- React scheduling is not modelled: each handler acts on the current state. Stale closures and batched updates are out of scope.
- A re-render is assumed to follow every change of a visibility flag. It re-declares the `let` locals of the name and height dialogs as empty.
- Handlers of a dialog or wizard step are callable only while that dialog or step shows. This is a `requires`, because a hidden modal's buttons cannot be pressed. The same holds for the Edit button, which is reachable only while no dialog covers the screen.

## Findings

| source | as written | input that shows it | evidently intended | confidence | as-written member | corrected member |
|---|---|---|---|---|---|---|
| src/utils/database.ts:184-196 | `updateItem` declares its condition as `Condition[]`; a type-correct array renders its indices and `[object Object]` into the WHERE clause | condition `[{id: '7'}]` gives `WHERE 0='[object Object]';` | a single `Condition` object, as in `deleteItem` and `queryItems`, giving `WHERE id='7';` | not executed; high | Database.ArrayConditionLosesKeys | Database.UpdateShape |
