# Hot-reload layer of the welcome-screen application

The application shows a facility's welcome, live and timer screens. Every
screen reads its content from files on disk, and the screens change when those
files change. Three C++ objects make up the file-backed hot-reload layer:

- **DataManager** watches a data directory. A change notification puts the path
  in a single pending slot and re-arms a one-shot delay timer. When the timer
  fires, a two-sample (size, modification time) check decides whether the file
  has stopped changing; while it has not, the path is retried. Once the file is
  stable, the first matching suffix in a fixed chain hands the path to exactly
  one loader. Each loader updates one published field and emits its change
  signal, following rules of its own: trimmed text compared before storing, a
  default on an empty read, wholesale replacement of JSON maps, and existence
  flags.
- **ConfigManager** reads an INI settings file into typed sections: theme
  colours through a six-hex-digit scanner, integer-coded flags, the
  `render_window` "W;H" size, and a sparse-to-dense platform list. It reloads
  the file at once on every change.
- **FileIOHelper** keeps the list of paths the application wants watched and
  the set the OS watcher actually holds. A poll tick registers wanted files
  once they appear, emitting fileAppeared and then fileChanged.

Modelling conventions:

- The filesystem is a `map` from path to (size, modification time, readable,
  content); a missing file is a path that is not a key.
- The OS watcher's registration is a set of paths. Adding a path succeeds only
  when the file exists.
- Signals are appended to an event log.
- Timer expiry is an explicit method call.
- JSON and INI parsing are function values held by the objects.

Modules:

- `Files`: the filesystem, reading a file, and registering a path.
- `Text`: `QString::trimmed`, `toInt`, `split`, `join` and `endsWith`.
- `Stability`: the stability check and its retry loop.
- `Dispatch`: the suffix chain.
- `Loaders`: the loaders as functions.
- `Data`: the DataManager class.
- `HexColor`: `parseHexColor`.
- `Config`: the INI sections and the ConfigManager class.
- `FileIO`: the FileIOHelper class.

`parseHexColor` keeps the case of the digits it copies; it does not normalise
them.

## Model

| member | source | states |
|---|---|---|
| Stability.IsFileStable | src/datamanager.cpp:150-175 | a missing file is not stable and stores nothing; a sample equal to the stored one confirms the file and drops both entries; any other sample replaces the stored one and is not stable; other paths' entries never change |
| Stability.RunChecks | src/datamanager.cpp:99-108 | the retry loop yields one outcome per timer tick |
| Stability.SecondIdenticalSampleConfirms | src/datamanager.cpp:150-175 | two checks of an unchanged existing file with nothing stored: the first fails, the second confirms and restores the maps |
| Stability.RunRemembersLastSample | src/datamanager.cpp:99-108 | during retries with no success, the stored sample is the one taken the last time the file existed |
| Stability.StableExactlyOnRepeatedSample | src/datamanager.cpp:99-108 | after failed retries, a check succeeds exactly when the file exists and matches the last sample seen |
| Stability.GrowingFileNeverStable | src/datamanager.cpp:99-108 | a file whose sample differs at every tick is never confirmed, however many retries |
| Stability.MissingFileNeverStable | src/datamanager.cpp:150-155 | a file missing at every tick is never confirmed and no sample is stored |
| Dispatch.FirstMatch | src/datamanager.cpp:118-146 | the action of the first row whose suffix matches, and Ignore exactly when no suffix matches |
| Dispatch.RouteIsFirstMatch | src/datamanager.cpp:118-146 | the if-chain equals the first match over the ordered suffix table, so a path goes to exactly one loader |
| Files.ReadFile | src/datamanager.cpp:177-188 | safeReadFile is empty exactly when the file is missing, unreadable or empty, and otherwise gives its content |
| Files.AddPath | src/datamanager.cpp:113-115 | the watcher gains the path exactly when the file exists, and loses nothing |
| Loaders.LoadText | src/datamanager.cpp:255-271 | non-empty data is trimmed and stored, and signals exactly when the value changes; empty data gives the default with a signal, or keeps the value silently when there is no default |
| Loaders.LoadJson | src/datamanager.cpp:205-228 | signals exactly when the data is non-empty and parses to an object, which then replaces the map; otherwise the map is kept |
| Loaders.CheckFlag | src/datamanager.cpp:401-423 | the flag ends equal to file existence and signals exactly when it flips |
| Loaders.Perform | src/datamanager.cpp:205-483 | a loader only appends to the log, at most one signal, and that signal is its own |
| Loaders.LoadFirst | src/datamanager.cpp:190-203 | the first n loaders only append to the log, at most n signals |
| Loaders.LoadAll | src/datamanager.cpp:190-203 | loadAllData only appends to the log, at most one signal per loader |
| Loaders.DispatchEffect | src/datamanager.cpp:118-146 | an ignored path changes nothing; the image branch changes no field; both image branches end with imagesChanged; at most two signals are added |
| Loaders.ReloadIsSilent | src/datamanager.cpp:361-379 | rerunning a text loader on the same non-empty file, or an existence check, changes nothing; the first run signals at most once |
| Loaders.JsonReloadAlwaysSignals | src/datamanager.cpp:223-227 | a JSON object file signals on every load, even when the map is unchanged |
| Loaders.EmptyReadFallback | src/datamanager.cpp:366-370 | on an empty read, text fields with a default reset to it and signal; the facility name and JSON maps stay unchanged and silent |
| Loaders.RunChangesOnlyItsField | src/datamanager.cpp:205-483 | each loader changes only its own field and only appends signals |
| Loaders.PerformIsLocal | src/datamanager.cpp:205-483 | a loader's new field value depends only on that field's old value |
| Loaders.LoadFirstFieldwise | src/datamanager.cpp:190-203 | after the first n loaders, each field is what its own loader makes of the start if it ran, else its start value |
| Loaders.LoadAllSteps | src/datamanager.cpp:190-203 | loadAllData is the eleven loaders in source order |
| Loaders.LoadAllFieldwise | src/datamanager.cpp:190-203 | after loadAllData each field is what its own loader alone makes of it; both flags equal file existence |
| Loaders.UnmatchedPathIsIgnored | src/datamanager.cpp:118-147 | a path matching no suffix changes no field and emits nothing |
| Data.DataManager.constructor | src/datamanager.cpp:11-32 | default fields and data path; exactly the listed files that exist are watched; the fields are what loadAllData makes of the defaults |
| Data.DataManager.SetDataPath | src/datamanager.cpp:34-41 | the current path is a no-op; a new path re-registers the watches, reloads every field, then emits dataPathChanged |
| Data.DataManager.Reload | src/datamanager.cpp:38-39 | the watcher holds exactly the listed files that exist, and the fields and log become Loaders.LoadAll of the old ones |
| Data.DataManager.SetupFileWatching | src/datamanager.cpp:44-82 | afterwards the watcher holds exactly the listed files that exist; missing ones are skipped and not retried |
| Data.DataManager.OnFileChanged | src/datamanager.cpp:84-91 | the path overwrites the pending slot and the timer is re-armed; the samples stay unchanged, so in a burst "p then q" only q is pending |
| Data.DataManager.OnDelayedFileRead | src/datamanager.cpp:93-148 | an empty slot changes nothing; an unstable path goes back into the slot with the timer re-armed and no loader run; a stable path is re-registered and dispatched by its suffix |
| Data.DataManager.ReadStableFile | src/datamanager.cpp:110-147 | the stable path is registered again if dropped, then given the effect its suffix selects |
| Data.DataManager.IsFileStableCheck | src/datamanager.cpp:150-175 | the in-place check returns and stores what Stability.IsFileStable gives |
| Data.DataManager.DispatchPath | src/datamanager.cpp:118-146 | the fields and signals change exactly as the routed action prescribes |
| Data.DataManager.RunLoader | src/datamanager.cpp:118-146 | the loader method the dispatched branch calls changes the fields and log as Loaders.Perform does |
| Data.DataManager.Emit | src/datamanager.cpp:40 | emitting a signal appends it to the log and changes no field |
| Data.DataManager.LoadAllData | src/datamanager.cpp:190-203 | the fields and signals become Loaders.LoadAll of the old ones |
| Data.DataManager.LoadFacilityData | src/datamanager.cpp:205-228 | the fields and log become the JSON loader's outcome for facility_data.json |
| Data.DataManager.LoadUserData | src/datamanager.cpp:230-253 | the fields and log become the JSON loader's outcome for user_data.json |
| Data.DataManager.LoadFacilityName | src/datamanager.cpp:255-271 | the fields and log become the text loader's outcome for facility_name.txt, with no default |
| Data.DataManager.LoadFacilityColors | src/datamanager.cpp:273-296 | the fields and log become the JSON loader's outcome for facility_colors |
| Data.DataManager.LoadScrollUpperText | src/datamanager.cpp:361-379 | the fields and log become the text loader's outcome for scroll_upper.txt, with its default |
| Data.DataManager.LoadScrollLowerText | src/datamanager.cpp:381-399 | the fields and log become the text loader's outcome for scroll_lower.txt, with its default |
| Data.DataManager.CheckQRCodeAvailability | src/datamanager.cpp:401-411 | the fields and log become the existence check's outcome for qr_support.png |
| Data.DataManager.CheckFacilityLogoType | src/datamanager.cpp:413-423 | the fields and log become the existence check's outcome for facility_logo.gif |
| Data.DataManager.LoadTextDaily | src/datamanager.cpp:425-443 | the fields and log become the text loader's outcome for text_daily, default "LAB HOURS" |
| Data.DataManager.LoadTextCount | src/datamanager.cpp:445-463 | the fields and log become the text loader's outcome for text_count, default "PLAYERS" |
| Data.DataManager.LoadTextRound | src/datamanager.cpp:465-483 | the fields and log become the text loader's outcome for text_round, default "NEW RELEASES" |
| Data.DataManager.FacilityLogoPath | src/datamanager.cpp:312-328 | png if present, else gif if present, else ""; empty exactly when neither file exists |
| Data.DataManager.GameLabGifPath | src/datamanager.cpp:351-359 | the animation's path exactly when that file exists, else "" |
| HexColor.MatchAtCapture | src/configmanager.cpp:84-86 | a regex attempt captures a six-digit run, and no run starts between the attempt and the capture |
| HexColor.Scan | src/configmanager.cpp:84-86 | the search finds the leftmost six-hex-digit run, or reports that there is none |
| HexColor.ParseHexColor | src/configmanager.cpp:82-94 | the result is always "#" followed by six hexadecimal digits |
| HexColor.ParseHexColorLeftmostRun | src/configmanager.cpp:82-94 | the result is "#" plus the leftmost six-digit run, copied with its case |
| HexColor.ParseHexColorNoRun | src/configmanager.cpp:91-93 | without a six-digit run the result is "#000000" |
| HexColor.ParseHexColorSpellings | src/configmanager.cpp:82-94 | "0x", "#" and bare spellings give the same digits with case kept |
| HexColor.ParseHexColorSearch | src/configmanager.cpp:82-94 | the match may sit inside the value; five digits are not a colour |
| Text.ToInt | src/configmanager.cpp:127 | QString::toInt gives a 32-bit value, and 0 for anything that is not a number |
| Text.ToIntOfIntString | src/configmanager.cpp:186-188 | toInt of a 32-bit integer's decimal spelling gives it back |
| Text.Split | src/configmanager.cpp:184-185 | split gives one more part than there are separators, and no part contains one |
| Text.JoinSplit | src/configmanager.cpp:184-185 | joining the parts of a split gives the string back |
| Text.SplitJoin | src/configmanager.cpp:184-185 | splitting a join of separator-free parts gives the parts back |
| Text.TrimIdempotent | src/datamanager.cpp:265-270 | trimming twice is trimming once |
| Text.EndsWithIsTail | src/datamanager.cpp:118-146 | endsWith holds exactly when the suffix is the string's tail |
| Config.ThemeOf | src/configmanager.cpp:122-128 | the four theme colours are always well formed, whatever the file holds, and color_flip is on exactly when it reads as 1 |
| Config.HelloOf | src/configmanager.cpp:133-152 | hello_state is on unless present and reading as something other than 1 |
| Config.Layers | src/configmanager.cpp:161-170 | layer i is the value of layer_i, or "" when the key is missing |
| Config.Transitions | src/configmanager.cpp:173-182 | transition i is layer_transition_i read as an integer, or 300 when the key is missing |
| Config.LiveOf | src/configmanager.cpp:158-196 | ten layers and ten transitions are read |
| Config.TimerOf | src/configmanager.cpp:213-221 | timer_state and timer_count are on exactly when present and reading as 1 |
| Config.ImageOf | src/configmanager.cpp:227-232 | image_bg_color is stored as written, "#000000" when missing; image_show_bg is on exactly when present and reading as 1 |
| Config.Load | src/configmanager.cpp:122-232 | a completed load has well-formed theme colours, at most ten platforms, and ten layers and transitions |
| Config.PlatformsUpToSpec | src/configmanager.cpp:260-275 | after n iterations the list has at most n entries, in ascending index order, with index i present exactly when its category key is |
| Config.PlatformListSpec | src/configmanager.cpp:248-280 | at most ten entries, strictly ascending; index i in 0..9 is listed exactly when hello_list-cat{i} is present, and each entry is read from its own keys |
| Config.PlatformDefaults | src/configmanager.cpp:267-269 | icon defaults to "" and total to 0, also when the total is not numeric |
| Config.ColorDefault | src/configmanager.cpp:122-126 | a missing theme colour gives "#" plus its default digits; a present one gives parseHexColor of its value |
| Config.ThemeDefaults | src/configmanager.cpp:122-128 | an empty theme section gives #00AEEF, #002657, #00529b, #fb6502, not flipped |
| Config.FlagsAreIntegerOne | src/configmanager.cpp:122-232 | color_flip, hello_state, timer_state, timer_count and image_show_bg are true exactly when the value, or its default, reads as 1 |
| Config.FlagSpellingsOff | src/configmanager.cpp:127 | "true" and "2" do not set a flag |
| Config.FlagSpellingsOn | src/configmanager.cpp:127 | "1", " 1" and "01" set a flag |
| Config.RenderWindowMalformedKeepsSize | src/configmanager.cpp:184-189 | a render_window value not splitting into two parts keeps the previous width and height |
| Config.RenderWindowRoundTrip | src/configmanager.cpp:184-189 | render_window "W;H" sets the size to W by H |
| Config.RenderWindowDefault | src/configmanager.cpp:184-189 | without render_window the size is 1024 by 600 |
| Config.ImageBgColorVerbatim | src/configmanager.cpp:229 | image_bg_color is stored as written, where a theme colour with the same text is parsed |
| Config.LoadIdempotent | src/configmanager.cpp:122-232 | loading the same file again gives the same members |
| Config.LoadIgnoresPreviousState | src/configmanager.cpp:122-232 | a load depends on the previous members only through the render size |
| Config.ConfigManager.constructor | src/configmanager.cpp:6-53 | the members hold the constructor's defaults, and no file is read |
| Config.ConfigManager.LoadConfig | src/configmanager.cpp:96-246 | an empty path or missing file changes nothing and emits nothing; otherwise the members become the total load of the file and configChanged is emitted once |
| Config.ConfigManager.ReadSettings | src/configmanager.cpp:108-232 | the settings are replaced and every section is read from the file or its default |
| Config.ConfigManager.ParsePlatformList | src/configmanager.cpp:248-280 | the list is rebuilt as the platform list of app_hello, or empty without settings |
| Config.ConfigManager.SetConfigPath | src/configmanager.cpp:62-80 | the new path replaces every watch and is watched only if it exists, then the file is loaded |
| Config.ConfigManager.OnFileChanged | src/configmanager.cpp:282-293 | the path is re-registered if dropped and existing, and the file is reloaded at once with no debounce |
| Config.ReloadTwice | src/configmanager.cpp:282-293 | two notifications for an unchanged file leave the members as one load does, with two configChanged |
| FileIO.RemoveAll | src/fileiohelper.cpp:110 | removeAll drops every occurrence of the path and keeps every other element with its multiplicity; a list without the path is returned unchanged |
| FileIO.RemoveAllAppend | src/fileiohelper.cpp:110 | removal works piece by piece over a concatenation, so the kept elements stay in their order |
| FileIO.RemoveAllNoDuplicates | src/fileiohelper.cpp:110 | removing from a duplicate-free list keeps it duplicate-free |
| FileIO.PollTickSpec | src/fileiohelper.cpp:130-141 | after a tick a path is registered exactly when it was already or is wanted and exists; events come in fileAppeared/fileChanged pairs, exactly for the wanted, existing, unregistered paths |
| FileIO.SecondTickQuiet | src/fileiohelper.cpp:130-141 | a second tick over an unchanged filesystem registers nothing and emits nothing |
| FileIO.TickKeepsRegisteredWanted | src/fileiohelper.cpp:130-141 | a tick keeps the registered paths among the wanted ones |
| FileIO.FileIOHelper.constructor | src/fileiohelper.cpp:8-19 | nothing is wanted, registered or emitted |
| FileIO.FileIOHelper.WatchFile | src/fileiohelper.cpp:89-106 | an already wanted path is a no-op; otherwise it is appended and registered exactly when it exists; no duplicates and registered within wanted are kept |
| FileIO.FileIOHelper.UnwatchFile | src/fileiohelper.cpp:108-116 | the path leaves the list and the set, everything else stays, and the invariant is kept |
| FileIO.FileIOHelper.OnFileChanged | src/fileiohelper.cpp:118-128 | re-registers the path if dropped and existing, and emits exactly one fileChanged(path) |
| FileIO.FileIOHelper.CheckForNewFiles | src/fileiohelper.cpp:130-141 | the registered set and events are those of the poll tick over the wanted list, and the invariant is kept |

## Left out

- Timers: the 500 ms intervals and Qt's scheduling are not modelled. The DataManager timer is a flag, and its expiry is a call to `OnDelayedFileRead`. The FileIOHelper poll timer is a call to `CheckForNewFiles`.
- OS watcher internals: the watcher dropping a path after an atomic replace is not modelled as an operation of its own. Any state of the public `registered` set stands for it.
- JSON parsing (`QJsonDocument::fromJson`) and INI parsing (`QSettings`) are function parameters fixed at construction. The INI syntax, key escaping and QSettings caching are not modelled.
- Files.ReadFile: the content of a file is its decoded text. The code reads the raw bytes in text mode, tests them for emptiness, and only then decodes them with `QString::fromUtf8`. The model tests emptiness on the decoded text, so it does not capture bytes that are non-empty but decode to nothing, such as a lone byte-order mark, nor text-mode line-ending conversion.
- Loaders.LoadText and Loaders.LoadJson decide "empty read" on that decoded text, for the same reason.
- File I/O: `safeReadFile` reads the modelled filesystem (`Files.ReadFile`). `writeFile`, `readFile`, `deleteFile` and `fileExists` of FileIOHelper (src/fileiohelper.cpp:25-87) are thin I/O wrappers and are not modelled.
- URL formation: `QUrl::fromLocalFile` and absolute paths in the `get*Path` getters are not modelled; only the existence-based choice is. `getGameImagePath`, `getBannerImagePath`, `getLeftImagePath`, `getRightImagePath` and `getQRCodePath` (src/datamanager.cpp:298-349) make no choice and are not modelled.
- Logging: all debug and warning output.
- src/main.cpp is not part of this model (application setup and the choice of data root).
- The two sample hashes `m_fileSizes` and `m_fileModificationTimes` are one map from a path to a (size, modification time) pair. The code always writes and removes them together.
- ConfigManager's many members are grouped by INI section into records. The ten layer names and transition times are sequences.
- `m_renderScreen` is declared in the header but never initialised or loaded by the code; it is not modelled.
- Text.ToInt: models the conversion of a settings value to int as `QString::toInt` in base 10 (surrounding whitespace ignored, 32-bit range, 0 on failure). A Qt version that converts through a 64-bit integer and then truncates is not modelled, nor are other bases or locale digits.
- `Data.DataManager.Reload` and `Config.ConfigManager.ReadSettings` are groupings of consecutive statements of the source, not functions of their own there.
- Concurrency: Qt delivers every signal on one thread; the model runs operations one at a time.
