/**
 * DataManager: the multi-file content loader. A raw change notification puts
 * the path in a single pending slot and re-arms a one-shot delay timer; when
 * the timer fires the path is checked for stability, retried while it is still
 * changing, and once stable handed to the one loader its suffix selects.
 */
module Data {
  import opened Wrappers
  import opened Files
  import opened Text
  import opened Json
  import opened Stability
  import opened Dispatch
  import opened Loaders

  /** The files setupFileWatching asks the watcher for, under the data directory. */
  function WatchList(root: string): seq<string>
  {
    [ root + "/facility_data.json", root + "/user_data.json", root + "/facility_name.txt",
      root + "/facility_colors", root + "/scroll_upper.txt", root + "/scroll_lower.txt",
      root + "/qr_support.png", root + "/facility_logo.png", root + "/facility_logo.gif",
      root + "/game1_image.jpg", root + "/game2_image.jpg", root + "/game3_image.jpg",
      root + "/game4_image.jpg", root + "/left_image.png", root + "/right_image.png",
      root + "/banner_image.png", root + "/text_daily", root + "/text_count", root + "/text_round" ]
  }

  const DefaultDataPath: string := "welcome-data"

  class DataManager {
    /** QJsonDocument::fromJson, which this model does not open up. */
    const parseJson: string -> Document

    // The watcher, the debounce slot and the stability samples.
    var registered: set<string>
    var pending: string
    var timerArmed: bool
    var samples: SampleStore

    // The published fields.
    var dataPath: string
    var facilityData: JsonObject
    var userData: JsonObject
    var facilityName: string
    var facilityColors: JsonObject
    var scrollUpperText: string
    var scrollLowerText: string
    var qrCodeAvailable: bool
    var facilityLogoIsGif: bool
    var textDaily: string
    var textCount: string
    var textRound: string

    /** Every signal emitted so far, in order. */
    var events: seq<DataEvent>

    function Snap(): Snapshot
      reads this`facilityData, this`userData, this`facilityName, this`facilityColors, this`scrollUpperText,
               this`scrollLowerText, this`qrCodeAvailable, this`facilityLogoIsGif, this`textDaily,
               this`textCount, this`textRound
    {
      Snapshot(facilityData, userData, facilityName, facilityColors, scrollUpperText,
               scrollLowerText, qrCodeAvailable, facilityLogoIsGif, textDaily, textCount, textRound)
    }

    /** The published fields and the signal log. */
    function View(): Published
      reads this`facilityData, this`userData, this`facilityName, this`facilityColors, this`scrollUpperText,
               this`scrollLowerText, this`qrCodeAvailable, this`facilityLogoIsGif, this`textDaily,
               this`textCount, this`textRound, this`events
    {
      Published(Snap(), events)
    }

    /** The constructor: defaults, then setupFileWatching and loadAllData. */
    constructor (fs: FileSystem, parse: string -> Document)
      ensures parseJson == parse
      ensures dataPath == DefaultDataPath && pending == "" && !timerArmed && samples == EmptyStore
      ensures forall p :: p in registered <==> p in WatchList(dataPath) && p in fs
      ensures View() == LoadAll(Published(InitialSnapshot, []), dataPath, fs, parse)
    {
      parseJson := parse;
      registered := {};
      pending := "";
      timerArmed := false;
      samples := EmptyStore;
      dataPath := DefaultDataPath;
      facilityData, userData, facilityName, facilityColors := map[], map[], "", map[];
      scrollUpperText, scrollLowerText := "", "";
      qrCodeAvailable, facilityLogoIsGif := false, false;
      textDaily, textCount, textRound := DefaultTextDaily, DefaultTextCount, DefaultTextRound;
      events := [];
      new;
      Reload(fs);
    }

    /** setDataPath: a new directory re-registers the watches, reloads every
        field and signals dataPathChanged; the current directory is a no-op. */
    method SetDataPath(fs: FileSystem, path: string)
      modifies this
      ensures old(dataPath) == path ==> unchanged(this)
      ensures old(dataPath) != path ==>
                && dataPath == path
                && (forall p :: p in registered <==> p in WatchList(path) && p in fs)
                && View() == Emitted(LoadAll(old(View()), path, fs, parseJson), DataPathChanged)
      ensures pending == old(pending) && timerArmed == old(timerArmed) && samples == old(samples)
    {
      if dataPath != path {
        dataPath := path;
        Reload(fs);
        Emit(DataPathChanged);
      }
    }

    /** What the constructor and setDataPath do for the current directory:
        setupFileWatching, then loadAllData. */
    method Reload(fs: FileSystem)
      modifies this`registered, this`facilityData, this`userData, this`facilityName, this`facilityColors,
               this`scrollUpperText, this`scrollLowerText, this`qrCodeAvailable,
               this`facilityLogoIsGif, this`textDaily, this`textCount, this`textRound, this`events
      ensures forall p :: p in registered <==> p in WatchList(dataPath) && p in fs
      ensures View() == LoadAll(old(View()), dataPath, fs, parseJson)
    {
      SetupFileWatching(fs);
      LoadAllData(fs);
    }

    /** setupFileWatching: drops every registration, then registers the listed
        files that exist. A missing file is skipped and never retried here. */
    method SetupFileWatching(fs: FileSystem)
      modifies this`registered
      ensures forall p :: p in registered <==> p in WatchList(dataPath) && p in fs
    {
      registered := {};
      var files := WatchList(dataPath);
      for i := 0 to |files|
        invariant forall p :: p in registered <==> p in files[..i] && p in fs
      {
        if files[i] in fs {
          registered := AddPath(registered, fs, files[i]);
        }
        assert files[..i + 1] == files[..i] + [files[i]];
      }
      assert files[..|files|] == files;
    }

    /** onFileChanged: the path overwrites the single pending slot and the timer
        is re-armed. Nothing else changes; in particular the samples of a path
        the slot held before stay where they are. */
    method OnFileChanged(path: string)
      modifies this`pending, this`timerArmed
      ensures pending == path && timerArmed
    {
      pending := path;
      timerArmed := true;
    }

    /** onDelayedFileRead: the timer has fired. An empty slot does nothing. A
        path that is not yet stable goes back into the slot and re-arms the timer
        with no loader run. A stable path is re-registered if the watcher dropped
        it and handed to the loader its suffix selects. */
    method OnDelayedFileRead(fs: FileSystem)
      modifies this`pending, this`timerArmed, this`samples, this`registered,
               this`facilityData, this`userData, this`facilityName, this`facilityColors,
               this`scrollUpperText, this`scrollLowerText, this`qrCodeAvailable,
               this`facilityLogoIsGif, this`textDaily, this`textCount, this`textRound, this`events
      ensures old(pending) == "" ==>
                && pending == "" && !timerArmed && samples == old(samples)
                && registered == old(registered) && View() == old(View())
      ensures old(pending) != "" ==>
                var check := IsFileStable(old(samples), fs, old(pending));
                && samples == check.store
                && if check.stable then
                     && pending == "" && !timerArmed
                     && registered == AddPath(old(registered), fs, old(pending))
                     && View() == DispatchEffect(Route(old(pending)), old(View()), dataPath, fs, parseJson)
                   else
                     && pending == old(pending) && timerArmed && registered == old(registered)
                     && View() == old(View())
    {
      timerArmed := false;
      if pending == "" {
        return;
      }
      var path := pending;
      pending := "";
      var stable := IsFileStableCheck(fs, path);
      if !stable {
        pending := path;
        timerArmed := true;
        return;
      }
      ReadStableFile(fs, path);
    }

    /** The stable-file tail of onDelayedFileRead: the path is registered again
        if the watcher dropped it, then handed to its loader. */
    method ReadStableFile(fs: FileSystem, path: string)
      modifies this`registered, this`facilityData, this`userData, this`facilityName,
               this`facilityColors, this`scrollUpperText, this`scrollLowerText, this`qrCodeAvailable,
               this`facilityLogoIsGif, this`textDaily, this`textCount, this`textRound, this`events
      ensures registered == AddPath(old(registered), fs, path)
      ensures View() == DispatchEffect(Route(path), old(View()), dataPath, fs, parseJson)
    {
      if path !in registered {
        registered := AddPath(registered, fs, path);
      }
      DispatchPath(fs, path);
    }

    /** isFileStable, updating the two sample maps in place. */
    method IsFileStableCheck(fs: FileSystem, path: string) returns (stable: bool)
      modifies this`samples
      ensures Check(stable, samples) == IsFileStable(old(samples), fs, path)
    {
      if path !in fs {
        return false;
      }
      var size, mtime := fs[path].size, fs[path].mtime;
      if path in samples {
        if samples[path].size == size && samples[path].mtime == mtime {
          samples := samples - {path};
          return true;
        }
      }
      samples := samples[path := Sample(size, mtime)];
      return false;
    }

    /** The tail of onDelayedFileRead: the action the path's suffix selects
        (Dispatch.Route is that if-chain) is carried out. */
    method DispatchPath(fs: FileSystem, path: string)
      modifies this`facilityData, this`userData, this`facilityName, this`facilityColors,
               this`scrollUpperText, this`scrollLowerText, this`qrCodeAvailable,
               this`facilityLogoIsGif, this`textDaily, this`textCount, this`textRound, this`events
      ensures View() == DispatchEffect(Route(path), old(View()), dataPath, fs, parseJson)
    {
      match Route(path)
      case Load(op) =>
        RunLoader(fs, op);
      case LogoChanged =>
        CheckFacilityLogoType(fs);
        Emit(ImagesChanged);
      case ImageChanged =>
        Emit(ImagesChanged);
      case Ignore =>
    }

    /** Calls the loader method `op` names. */
    method RunLoader(fs: FileSystem, op: LoadOp)
      modifies this`facilityData, this`userData, this`facilityName, this`facilityColors,
               this`scrollUpperText, this`scrollLowerText, this`qrCodeAvailable,
               this`facilityLogoIsGif, this`textDaily, this`textCount, this`textRound, this`events
      ensures View() == Perform(op, old(View()), dataPath, fs, parseJson)
    {
      match op
      case LoadFacilityData => LoadFacilityData(fs);
      case LoadUserData => LoadUserData(fs);
      case LoadFacilityName => LoadFacilityName(fs);
      case LoadFacilityColors => LoadFacilityColors(fs);
      case LoadScrollUpperText => LoadScrollUpperText(fs);
      case LoadScrollLowerText => LoadScrollLowerText(fs);
      case CheckQRCodeAvailability => CheckQRCodeAvailability(fs);
      case CheckFacilityLogoType => CheckFacilityLogoType(fs);
      case LoadTextDaily => LoadTextDaily(fs);
      case LoadTextCount => LoadTextCount(fs);
      case LoadTextRound => LoadTextRound(fs);
    }

    /** Emitting a Qt signal: it is appended to the log. */
    method Emit(e: DataEvent)
      modifies this`events
      ensures View() == Emitted(old(View()), e)
    {
      events := events + [e];
    }

    /** loadAllData: every loader once, in order. */
    method LoadAllData(fs: FileSystem)
      modifies this`facilityData, this`userData, this`facilityName, this`facilityColors,
               this`scrollUpperText, this`scrollLowerText, this`qrCodeAvailable,
               this`facilityLogoIsGif, this`textDaily, this`textCount, this`textRound, this`events
      ensures View() == LoadAll(old(View()), dataPath, fs, parseJson)
    {
      LoadFacilityData(fs);
      LoadUserData(fs);
      LoadFacilityName(fs);
      LoadFacilityColors(fs);
      LoadScrollUpperText(fs);
      LoadScrollLowerText(fs);
      CheckQRCodeAvailability(fs);
      CheckFacilityLogoType(fs);
      LoadTextDaily(fs);
      LoadTextCount(fs);
      LoadTextRound(fs);
      LoadAllSteps(old(View()), dataPath, fs, parseJson);
    }

    // -------------------------------------------------------------------------
    // The loaders. Each reads one file under the data directory, assigns its
    // own field and emits its own signal.

    method LoadFacilityData(fs: FileSystem)
      modifies this`facilityData, this`events
      ensures View() == Perform(LoadOp.LoadFacilityData, old(View()), dataPath, fs, parseJson)
    {
      var data := ReadFile(fs, dataPath + "/facility_data.json");
      if data == [] {
        return;
      }
      match parseJson(data)
      case ObjectDocument(members) =>
        facilityData := members;
        events := events + [FacilityDataChanged];
      case _ =>
    }

    method LoadUserData(fs: FileSystem)
      modifies this`userData, this`events
      ensures View() == Perform(LoadOp.LoadUserData, old(View()), dataPath, fs, parseJson)
    {
      var data := ReadFile(fs, dataPath + "/user_data.json");
      if data == [] {
        return;
      }
      match parseJson(data)
      case ObjectDocument(members) =>
        userData := members;
        events := events + [UserDataChanged];
      case _ =>
    }

    method LoadFacilityName(fs: FileSystem)
      modifies this`facilityName, this`events
      ensures View() == Perform(LoadOp.LoadFacilityName, old(View()), dataPath, fs, parseJson)
    {
      var data := ReadFile(fs, dataPath + "/facility_name.txt");
      if data == [] {
        return;
      }
      var name := Trim(data);
      if facilityName != name {
        facilityName := name;
        events := events + [FacilityNameChanged];
      }
    }

    method LoadFacilityColors(fs: FileSystem)
      modifies this`facilityColors, this`events
      ensures View() == Perform(LoadOp.LoadFacilityColors, old(View()), dataPath, fs, parseJson)
    {
      var data := ReadFile(fs, dataPath + "/facility_colors");
      if data == [] {
        return;
      }
      match parseJson(data)
      case ObjectDocument(members) =>
        facilityColors := members;
        events := events + [FacilityColorsChanged];
      case _ =>
    }

    method LoadScrollUpperText(fs: FileSystem)
      modifies this`scrollUpperText, this`events
      ensures View() == Perform(LoadOp.LoadScrollUpperText, old(View()), dataPath, fs, parseJson)
    {
      var data := ReadFile(fs, dataPath + "/scroll_upper.txt");
      if data == [] {
        scrollUpperText := DefaultScrollText;
        events := events + [ScrollUpperTextChanged];
        return;
      }
      var text := Trim(data);
      if scrollUpperText != text {
        scrollUpperText := text;
        events := events + [ScrollUpperTextChanged];
      }
    }

    method LoadScrollLowerText(fs: FileSystem)
      modifies this`scrollLowerText, this`events
      ensures View() == Perform(LoadOp.LoadScrollLowerText, old(View()), dataPath, fs, parseJson)
    {
      var data := ReadFile(fs, dataPath + "/scroll_lower.txt");
      if data == [] {
        scrollLowerText := DefaultScrollText;
        events := events + [ScrollLowerTextChanged];
        return;
      }
      var text := Trim(data);
      if scrollLowerText != text {
        scrollLowerText := text;
        events := events + [ScrollLowerTextChanged];
      }
    }

    method CheckQRCodeAvailability(fs: FileSystem)
      modifies this`qrCodeAvailable, this`events
      ensures View() == Perform(LoadOp.CheckQRCodeAvailability, old(View()), dataPath, fs, parseJson)
    {
      var available := dataPath + "/qr_support.png" in fs;
      if qrCodeAvailable != available {
        qrCodeAvailable := available;
        events := events + [QrCodeAvailableChanged];
      }
    }

    method CheckFacilityLogoType(fs: FileSystem)
      modifies this`facilityLogoIsGif, this`events
      ensures View() == Perform(LoadOp.CheckFacilityLogoType, old(View()), dataPath, fs, parseJson)
    {
      var isGif := dataPath + "/facility_logo.gif" in fs;
      if facilityLogoIsGif != isGif {
        facilityLogoIsGif := isGif;
        events := events + [FacilityLogoIsGifChanged];
      }
    }

    method LoadTextDaily(fs: FileSystem)
      modifies this`textDaily, this`events
      ensures View() == Perform(LoadOp.LoadTextDaily, old(View()), dataPath, fs, parseJson)
    {
      var data := ReadFile(fs, dataPath + "/text_daily");
      if data == [] {
        textDaily := DefaultTextDaily;
        events := events + [TextDailyChanged];
        return;
      }
      var text := Trim(data);
      if textDaily != text {
        textDaily := text;
        events := events + [TextDailyChanged];
      }
    }

    method LoadTextCount(fs: FileSystem)
      modifies this`textCount, this`events
      ensures View() == Perform(LoadOp.LoadTextCount, old(View()), dataPath, fs, parseJson)
    {
      var data := ReadFile(fs, dataPath + "/text_count");
      if data == [] {
        textCount := DefaultTextCount;
        events := events + [TextCountChanged];
        return;
      }
      var text := Trim(data);
      if textCount != text {
        textCount := text;
        events := events + [TextCountChanged];
      }
    }

    method LoadTextRound(fs: FileSystem)
      modifies this`textRound, this`events
      ensures View() == Perform(LoadOp.LoadTextRound, old(View()), dataPath, fs, parseJson)
    {
      var data := ReadFile(fs, dataPath + "/text_round");
      if data == [] {
        textRound := DefaultTextRound;
        events := events + [TextRoundChanged];
        return;
      }
      var text := Trim(data);
      if textRound != text {
        textRound := text;
        events := events + [TextRoundChanged];
      }
    }

    // -------------------------------------------------------------------------
    // Path resolvers that depend on which files exist.

    /** getFacilityLogoPath: the png logo when it exists, else the gif logo when
        it exists, else the empty string. */
    function FacilityLogoPath(fs: FileSystem): (r: string)
      reads this
      ensures r == "" <==> dataPath + "/facility_logo.png" !in fs && dataPath + "/facility_logo.gif" !in fs
      ensures r != "" ==> r in fs && (r == dataPath + "/facility_logo.png" || r == dataPath + "/facility_logo.gif")
      ensures dataPath + "/facility_logo.png" in fs ==> r == dataPath + "/facility_logo.png"
    {
      var png := dataPath + "/facility_logo.png";
      var gif := dataPath + "/facility_logo.gif";
      if png in fs then png else if gif in fs then gif else ""
    }

    /** getGameLabGifPath: the animation's path when the file exists, else empty. */
    function GameLabGifPath(fs: FileSystem): (r: string)
      reads this
      ensures r != "" <==> dataPath + "/gamelab.gif" in fs
      ensures r != "" ==> r == dataPath + "/gamelab.gif"
    {
      var path := dataPath + "/gamelab.gif";
      if path in fs then path else ""
    }
  }
}
