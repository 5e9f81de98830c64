/**
 * The per-field loaders of DataManager (loadFacilityData ... loadTextRound,
 * checkQRCodeAvailability, checkFacilityLogoType) as functions from the current
 * snapshot and the filesystem to the new snapshot and the signals emitted.
 */
module Loaders {
  import opened Wrappers
  import opened Files
  import opened Text
  import opened Json
  import opened Dispatch

  /** The signals DataManager emits. */
  datatype DataEvent =
    | FacilityDataChanged | UserDataChanged | FacilityNameChanged | FacilityColorsChanged
    | DataPathChanged | ScrollUpperTextChanged | ScrollLowerTextChanged
    | QrCodeAvailableChanged | ImagesChanged | FacilityLogoIsGifChanged
    | TextDailyChanged | TextCountChanged | TextRoundChanged

  /** Every field the content loader publishes. */
  datatype Snapshot = Snapshot(
    facilityData: JsonObject,
    userData: JsonObject,
    facilityName: string,
    facilityColors: JsonObject,
    scrollUpperText: string,
    scrollLowerText: string,
    qrCodeAvailable: bool,
    facilityLogoIsGif: bool,
    textDaily: string,
    textCount: string,
    textRound: string)

  const DefaultScrollText: string := "SEAMLESS SCROLLING TEXT NOTIFICATION"
  const DefaultTextDaily: string := "LAB HOURS"
  const DefaultTextCount: string := "PLAYERS"
  const DefaultTextRound: string := "NEW RELEASES"

  /** The values the constructor gives the fields before anything is loaded. */
  const InitialSnapshot: Snapshot := Snapshot(
    map[], map[], "", map[], "", "", false, false,
    DefaultTextDaily, DefaultTextCount, DefaultTextRound)

  /** The new value of one field and whether its change signal fires. */
  datatype Outcome<T> = Outcome(value: T, notify: bool)

  /** A trimmed-text loader. Non-empty data is trimmed and stored, and the
      signal fires only when the stored value changes. Empty data (an empty,
      missing or unreadable file) resets the field to its default and always
      signals when the field has one, and keeps the field silently otherwise. */
  function LoadText(current: string, data: string, default: Option<string>): (o: Outcome<string>)
    ensures data != [] ==> o.value == Trim(data) && (o.notify <==> o.value != current)
    ensures data == [] && default.Some? ==> o.value == default.value && o.notify
    ensures data == [] && default.None? ==> o.value == current && !o.notify
  {
    if data == [] then
      match default
      case Some(d) => Outcome(d, true)
      case None => Outcome(current, false)
    else
      var text := Trim(data);
      if current != text then Outcome(text, true) else Outcome(current, false)
  }

  /** A JSON map loader. A document whose top level is an object replaces the
      map wholesale and always signals; empty data, a parse error or any other
      document keeps the map and stays silent. */
  function LoadJson(current: JsonObject, data: string, parse: string -> Document): (o: Outcome<JsonObject>)
    ensures o.notify <==> data != [] && parse(data).ObjectDocument?
    ensures o.notify ==> o.value == parse(data).members
    ensures !o.notify ==> o.value == current
  {
    if data == [] then Outcome(current, false)
    else
      match parse(data)
      case ObjectDocument(members) => Outcome(members, true)
      case _ => Outcome(current, false)
  }

  /** An existence flag: it always ends equal to whether the file exists, and
      signals only when that flips it. */
  function CheckFlag(current: bool, present: bool): (o: Outcome<bool>)
    ensures o.value == present
    ensures o.notify <==> current != present
  {
    if current != present then Outcome(present, true) else Outcome(current, false)
  }

  function Signal(notify: bool, e: DataEvent): seq<DataEvent>
  {
    if notify then [e] else []
  }

  /** The published fields together with every signal emitted so far. */
  datatype Published = Published(snapshot: Snapshot, events: seq<DataEvent>)

  /** One more signal emitted, the fields untouched. */
  function Emitted(p: Published, e: DataEvent): Published
  {
    Published(p.snapshot, p.events + [e])
  }

  // ---------------------------------------------------------------------------
  // The eleven loaders share three shapes: six trimmed-text loaders, three JSON
  // map loaders and two existence checks. Each reads one file under the data
  // directory, sets its own field and emits its own signal; the functions below
  // say which file, field, default and signal belong to each.

  predicate IsTextLoad(op: LoadOp)
  {
    op.LoadFacilityName? || op.LoadScrollUpperText? || op.LoadScrollLowerText?
    || op.LoadTextDaily? || op.LoadTextCount? || op.LoadTextRound?
  }

  predicate IsJsonLoad(op: LoadOp)
  {
    op.LoadFacilityData? || op.LoadUserData? || op.LoadFacilityColors?
  }

  predicate IsFlagCheck(op: LoadOp)
  {
    op.CheckQRCodeAvailability? || op.CheckFacilityLogoType?
  }

  /** The file each loader reads, under the data directory. */
  function FileOf(op: LoadOp): string
  {
    match op
    case LoadFacilityData => "/facility_data.json"
    case LoadUserData => "/user_data.json"
    case LoadFacilityName => "/facility_name.txt"
    case LoadFacilityColors => "/facility_colors"
    case LoadScrollUpperText => "/scroll_upper.txt"
    case LoadScrollLowerText => "/scroll_lower.txt"
    case CheckQRCodeAvailability => "/qr_support.png"
    case CheckFacilityLogoType => "/facility_logo.gif"
    case LoadTextDaily => "/text_daily"
    case LoadTextCount => "/text_count"
    case LoadTextRound => "/text_round"
  }

  /** The signal each loader emits when it changes its field. */
  function EventOf(op: LoadOp): DataEvent
  {
    match op
    case LoadFacilityData => FacilityDataChanged
    case LoadUserData => UserDataChanged
    case LoadFacilityName => FacilityNameChanged
    case LoadFacilityColors => FacilityColorsChanged
    case LoadScrollUpperText => ScrollUpperTextChanged
    case LoadScrollLowerText => ScrollLowerTextChanged
    case CheckQRCodeAvailability => QrCodeAvailableChanged
    case CheckFacilityLogoType => FacilityLogoIsGifChanged
    case LoadTextDaily => TextDailyChanged
    case LoadTextCount => TextCountChanged
    case LoadTextRound => TextRoundChanged
  }

  /** The value a text loader falls back to on empty data; the facility name
      has none and keeps its value. */
  function TextDefault(op: LoadOp): Option<string>
    requires IsTextLoad(op)
  {
    if op.LoadFacilityName? then None
    else if op.LoadScrollUpperText? || op.LoadScrollLowerText? then Some(DefaultScrollText)
    else if op.LoadTextDaily? then Some(DefaultTextDaily)
    else if op.LoadTextCount? then Some(DefaultTextCount)
    else Some(DefaultTextRound)
  }

  /** The text field a text loader owns. */
  function TextOf(op: LoadOp, s: Snapshot): string
    requires IsTextLoad(op)
  {
    if op.LoadFacilityName? then s.facilityName
    else if op.LoadScrollUpperText? then s.scrollUpperText
    else if op.LoadScrollLowerText? then s.scrollLowerText
    else if op.LoadTextDaily? then s.textDaily
    else if op.LoadTextCount? then s.textCount
    else s.textRound
  }

  function WithText(op: LoadOp, s: Snapshot, v: string): Snapshot
    requires IsTextLoad(op)
  {
    if op.LoadFacilityName? then s.(facilityName := v)
    else if op.LoadScrollUpperText? then s.(scrollUpperText := v)
    else if op.LoadScrollLowerText? then s.(scrollLowerText := v)
    else if op.LoadTextDaily? then s.(textDaily := v)
    else if op.LoadTextCount? then s.(textCount := v)
    else s.(textRound := v)
  }

  /** The JSON map a JSON loader owns. */
  function JsonOf(op: LoadOp, s: Snapshot): JsonObject
    requires IsJsonLoad(op)
  {
    if op.LoadFacilityData? then s.facilityData
    else if op.LoadUserData? then s.userData
    else s.facilityColors
  }

  function WithJson(op: LoadOp, s: Snapshot, v: JsonObject): Snapshot
    requires IsJsonLoad(op)
  {
    if op.LoadFacilityData? then s.(facilityData := v)
    else if op.LoadUserData? then s.(userData := v)
    else s.(facilityColors := v)
  }

  /** The flag an existence check owns. */
  function FlagOf(op: LoadOp, s: Snapshot): bool
    requires IsFlagCheck(op)
  {
    if op.CheckQRCodeAvailability? then s.qrCodeAvailable else s.facilityLogoIsGif
  }

  function WithFlag(op: LoadOp, s: Snapshot, v: bool): Snapshot
    requires IsFlagCheck(op)
  {
    if op.CheckQRCodeAvailability? then s.(qrCodeAvailable := v) else s.(facilityLogoIsGif := v)
  }

  /** The loader `op` names, run against the directory `root`. It only appends
      to the log, and at most once, its own signal. */
  function Perform(op: LoadOp, p: Published, root: string, fs: FileSystem, parse: string -> Document): (r: Published)
    ensures p.events <= r.events && |r.events| <= |p.events| + 1
    ensures |r.events| > |p.events| ==> r.events[|p.events|] == EventOf(op)
  {
    var s := p.snapshot;
    if IsTextLoad(op) then
      var o := LoadText(TextOf(op, s), ReadFile(fs, root + FileOf(op)), TextDefault(op));
      Published(WithText(op, s, o.value), p.events + Signal(o.notify, EventOf(op)))
    else if IsJsonLoad(op) then
      var o := LoadJson(JsonOf(op, s), ReadFile(fs, root + FileOf(op)), parse);
      Published(WithJson(op, s, o.value), p.events + Signal(o.notify, EventOf(op)))
    else
      var o := CheckFlag(FlagOf(op, s), root + FileOf(op) in fs);
      Published(WithFlag(op, s, o.value), p.events + Signal(o.notify, EventOf(op)))
  }

  /** Whether two snapshots agree on the field `op` owns. Every field of a
      snapshot is owned by exactly one loader. */
  predicate SameField(op: LoadOp, a: Snapshot, b: Snapshot)
  {
    FieldOf(op, a) == FieldOf(op, b)
  }

  /** The value of one snapshot field, whatever its type. */
  datatype Field = TextField(text: string) | JsonField(json: JsonObject) | FlagField(flag: bool)

  /** The field `op` owns, as a Field. */
  function FieldOf(op: LoadOp, s: Snapshot): Field
  {
    if IsTextLoad(op) then TextField(TextOf(op, s))
    else if IsJsonLoad(op) then JsonField(JsonOf(op, s))
    else FlagField(FlagOf(op, s))
  }

  // ---------------------------------------------------------------------------
  // loadAllData

  /** The loaders in the order loadAllData calls them. */
  const LoadOrder: seq<LoadOp> := [
    LoadFacilityData, LoadUserData, LoadFacilityName, LoadFacilityColors, LoadScrollUpperText,
    LoadScrollLowerText, CheckQRCodeAvailability, CheckFacilityLogoType, LoadTextDaily,
    LoadTextCount, LoadTextRound]

  /** The position of each loader in LoadOrder. */
  function IndexOf(op: LoadOp): (i: nat)
    ensures i < |LoadOrder| && LoadOrder[i] == op
  {
    match op
    case LoadFacilityData => 0
    case LoadUserData => 1
    case LoadFacilityName => 2
    case LoadFacilityColors => 3
    case LoadScrollUpperText => 4
    case LoadScrollLowerText => 5
    case CheckQRCodeAvailability => 6
    case CheckFacilityLogoType => 7
    case LoadTextDaily => 8
    case LoadTextCount => 9
    case LoadTextRound => 10
  }

  /** LoadOrder lists every loader exactly once. */
  lemma IndexOfLoadOrder(i: nat)
    requires i < |LoadOrder|
    ensures IndexOf(LoadOrder[i]) == i
  {
    if i == 0 {} else if i == 1 {} else if i == 2 {} else if i == 3 {} else if i == 4 {}
    else if i == 5 {} else if i == 6 {} else if i == 7 {} else if i == 8 {} else if i == 9 {}
  }

  /** The first `n` loaders of loadAllData, run in order; together they emit
      at most one signal each. */
  function LoadFirst(n: nat, p: Published, root: string, fs: FileSystem, parse: string -> Document): (r: Published)
    requires n <= |LoadOrder|
    ensures p.events <= r.events && |r.events| <= |p.events| + n
  {
    if n == 0 then p else Perform(LoadOrder[n - 1], LoadFirst(n - 1, p, root, fs, parse), root, fs, parse)
  }

  /** DataManager::loadAllData: every loader once, in the source's order. */
  function LoadAll(p: Published, root: string, fs: FileSystem, parse: string -> Document): (r: Published)
    ensures p.events <= r.events && |r.events| <= |p.events| + |LoadOrder|
  {
    LoadFirst(|LoadOrder|, p, root, fs, parse)
  }

  /** Running one more loader: the first m = n + 1 loaders are the first n
      followed by loader n. */
  lemma LoadFirstNext(n: nat, m: nat, op: LoadOp, p: Published, q: Published, root: string, fs: FileSystem, parse: string -> Document)
    requires m == n + 1 <= |LoadOrder| && LoadOrder[n] == op
    requires LoadFirst(n, p, root, fs, parse) == q
    ensures LoadFirst(m, p, root, fs, parse) == Perform(op, q, root, fs, parse)
  {
  }

  // LoadFirst2 .. LoadFirst11 unroll the eleven loaders two or three at a time,
  // each from the state the previous group left.

  lemma LoadFirst2(p0: Published, q: Published, root: string, fs: FileSystem, parse: string -> Document)
    requires LoadFirst(0, p0, root, fs, parse) == q
    ensures LoadFirst(2, p0, root, fs, parse) == Perform(LoadUserData, Perform(LoadFacilityData, q, root, fs, parse), root, fs, parse)
  {
    LoadFirstNext(0, 1, LoadFacilityData, p0, q, root, fs, parse);
    var q1 := Perform(LoadFacilityData, q, root, fs, parse);
    LoadFirstNext(1, 2, LoadUserData, p0, q1, root, fs, parse);
  }

  lemma LoadFirst4(p0: Published, q: Published, root: string, fs: FileSystem, parse: string -> Document)
    requires LoadFirst(2, p0, root, fs, parse) == q
    ensures LoadFirst(4, p0, root, fs, parse) == Perform(LoadFacilityColors, Perform(LoadFacilityName, q, root, fs, parse), root, fs, parse)
  {
    LoadFirstNext(2, 3, LoadFacilityName, p0, q, root, fs, parse);
    var q3 := Perform(LoadFacilityName, q, root, fs, parse);
    LoadFirstNext(3, 4, LoadFacilityColors, p0, q3, root, fs, parse);
  }

  lemma LoadFirst6(p0: Published, q: Published, root: string, fs: FileSystem, parse: string -> Document)
    requires LoadFirst(4, p0, root, fs, parse) == q
    ensures LoadFirst(6, p0, root, fs, parse) == Perform(LoadScrollLowerText, Perform(LoadScrollUpperText, q, root, fs, parse), root, fs, parse)
  {
    LoadFirstNext(4, 5, LoadScrollUpperText, p0, q, root, fs, parse);
    var q5 := Perform(LoadScrollUpperText, q, root, fs, parse);
    LoadFirstNext(5, 6, LoadScrollLowerText, p0, q5, root, fs, parse);
  }

  lemma LoadFirst8(p0: Published, q: Published, root: string, fs: FileSystem, parse: string -> Document)
    requires LoadFirst(6, p0, root, fs, parse) == q
    ensures LoadFirst(8, p0, root, fs, parse) == Perform(CheckFacilityLogoType, Perform(CheckQRCodeAvailability, q, root, fs, parse), root, fs, parse)
  {
    LoadFirstNext(6, 7, CheckQRCodeAvailability, p0, q, root, fs, parse);
    var q7 := Perform(CheckQRCodeAvailability, q, root, fs, parse);
    LoadFirstNext(7, 8, CheckFacilityLogoType, p0, q7, root, fs, parse);
  }

  lemma LoadFirst11(p0: Published, q: Published, root: string, fs: FileSystem, parse: string -> Document)
    requires LoadFirst(8, p0, root, fs, parse) == q
    ensures LoadFirst(11, p0, root, fs, parse) == Perform(LoadTextRound, Perform(LoadTextCount, Perform(LoadTextDaily, q, root, fs, parse), root, fs, parse), root, fs, parse)
  {
    LoadFirstNext(8, 9, LoadTextDaily, p0, q, root, fs, parse);
    var q9 := Perform(LoadTextDaily, q, root, fs, parse);
    LoadFirstNext(9, 10, LoadTextCount, p0, q9, root, fs, parse);
    var q10 := Perform(LoadTextCount, q9, root, fs, parse);
    LoadFirstNext(10, 11, LoadTextRound, p0, q10, root, fs, parse);
  }

  /** loadAllData, written out: the eleven loaders one after the other. */
  lemma LoadAllSteps(p0: Published, root: string, fs: FileSystem, parse: string -> Document)
    ensures
      var p1 := Perform(LoadFacilityData, p0, root, fs, parse);
      var p2 := Perform(LoadUserData, p1, root, fs, parse);
      var p3 := Perform(LoadFacilityName, p2, root, fs, parse);
      var p4 := Perform(LoadFacilityColors, p3, root, fs, parse);
      var p5 := Perform(LoadScrollUpperText, p4, root, fs, parse);
      var p6 := Perform(LoadScrollLowerText, p5, root, fs, parse);
      var p7 := Perform(CheckQRCodeAvailability, p6, root, fs, parse);
      var p8 := Perform(CheckFacilityLogoType, p7, root, fs, parse);
      var p9 := Perform(LoadTextDaily, p8, root, fs, parse);
      var p10 := Perform(LoadTextCount, p9, root, fs, parse);
      LoadAll(p0, root, fs, parse) == Perform(LoadTextRound, p10, root, fs, parse)
  {
    LoadFirst2(p0, p0, root, fs, parse);
    LoadFirst4(p0, LoadFirst(2, p0, root, fs, parse), root, fs, parse);
    LoadFirst6(p0, LoadFirst(4, p0, root, fs, parse), root, fs, parse);
    LoadFirst8(p0, LoadFirst(6, p0, root, fs, parse), root, fs, parse);
    LoadFirst11(p0, LoadFirst(8, p0, root, fs, parse), root, fs, parse);
    assert |LoadOrder| == 11;
  }

  /** What a stable path does: its loader, the logo check followed by
      imagesChanged, imagesChanged alone, or nothing. Both image branches end
      with imagesChanged, only the logo branch touches a field, and an ignored
      path changes nothing. */
  function DispatchEffect(a: Action, p: Published, root: string, fs: FileSystem, parse: string -> Document): (r: Published)
    ensures p.events <= r.events && |r.events| <= |p.events| + 2
    ensures a.Ignore? ==> r == p
    ensures a.ImageChanged? ==> r.snapshot == p.snapshot
    ensures a.LogoChanged? || a.ImageChanged? ==> |r.events| > |p.events| && r.events[|r.events| - 1] == ImagesChanged
  {
    match a
    case Load(op) => Perform(op, p, root, fs, parse)
    case LogoChanged => Emitted(Perform(CheckFacilityLogoType, p, root, fs, parse), ImagesChanged)
    case ImageChanged => Emitted(p, ImagesChanged)
    case Ignore => p
  }

  // ---------------------------------------------------------------------------
  // Properties of the loaders

  /** Running a text loader or an existence check twice on an unchanged, non-empty
      file signals at most once: the second run finds the value already stored. */
  lemma ReloadIsSilent(op: LoadOp, p: Published, root: string, fs: FileSystem, parse: string -> Document)
    requires IsTextLoad(op) || IsFlagCheck(op)
    requires IsTextLoad(op) ==> ReadFile(fs, root + FileOf(op)) != []
    ensures var first := Perform(op, p, root, fs, parse);
            && Perform(op, first, root, fs, parse) == first
            && |p.events| <= |first.events| <= |p.events| + 1
  {
  }

  /** A JSON object file signals on every load, even when nothing changed. */
  lemma JsonReloadAlwaysSignals(op: LoadOp, p: Published, root: string, fs: FileSystem, parse: string -> Document)
    requires IsJsonLoad(op)
    requires ReadFile(fs, root + FileOf(op)) != []
    requires parse(ReadFile(fs, root + FileOf(op))).ObjectDocument?
    ensures var first := Perform(op, p, root, fs, parse);
            var second := Perform(op, first, root, fs, parse);
            && first.events == p.events + [EventOf(op)]
            && second.snapshot == first.snapshot
            && second.events == first.events + [EventOf(op)]
  {
  }

  /** When the file reads as empty (missing, unreadable or empty), a text loader
      with a default resets its field to it and signals, while the facility name
      and the JSON maps keep their value and stay silent. */
  lemma EmptyReadFallback(op: LoadOp, p: Published, root: string, fs: FileSystem, parse: string -> Document)
    requires IsTextLoad(op) || IsJsonLoad(op)
    requires ReadFile(fs, root + FileOf(op)) == []
    ensures var r := Perform(op, p, root, fs, parse);
            if IsTextLoad(op) && TextDefault(op).Some? then
              r == Published(WithText(op, p.snapshot, TextDefault(op).value), p.events + [EventOf(op)])
            else r == p
  {
  }

  /** Each loader changes only its own field and only appends signals. */
  lemma RunChangesOnlyItsField(op: LoadOp, other: LoadOp, p: Published, root: string, fs: FileSystem, parse: string -> Document)
    requires other != op
    ensures p.events <= Perform(op, p, root, fs, parse).events
    ensures SameField(other, Perform(op, p, root, fs, parse).snapshot, p.snapshot)
  {
  }

  /** A loader's new value depends on its own field only, not on the rest of
      the snapshot or on the signals emitted so far. */
  lemma PerformIsLocal(op: LoadOp, p: Published, q: Published, root: string, fs: FileSystem, parse: string -> Document)
    requires SameField(op, p.snapshot, q.snapshot)
    ensures SameField(op, Perform(op, p, root, fs, parse).snapshot, Perform(op, q, root, fs, parse).snapshot)
  {
  }

  /** After the first n loaders each field holds what its own loader alone makes
      of the starting snapshot if it was among them, and its starting value
      otherwise. */
  lemma {:induction false} LoadFirstFieldwise(n: nat, op: LoadOp, p: Published, root: string, fs: FileSystem, parse: string -> Document)
    requires n <= |LoadOrder|
    ensures SameField(op, LoadFirst(n, p, root, fs, parse).snapshot,
                      if IndexOf(op) < n then Perform(op, p, root, fs, parse).snapshot else p.snapshot)
  {
    if n > 0 {
      var last := LoadOrder[n - 1];
      var q := LoadFirst(n - 1, p, root, fs, parse);
      LoadFirstNext(n - 1, n, last, p, q, root, fs, parse);
      IndexOfLoadOrder(n - 1);
      LoadFirstFieldwise(n - 1, op, p, root, fs, parse);
      FieldwiseStep(n, op, last, p, q, root, fs, parse);
    }
  }

  /** One step of LoadFirstFieldwise: running loader number n - 1 keeps every
      other field and gives its own field what it would make of the start. */
  lemma FieldwiseStep(n: nat, op: LoadOp, last: LoadOp, p: Published, q: Published, root: string, fs: FileSystem, parse: string -> Document)
    requires IndexOf(last) == n - 1
    requires SameField(op, q.snapshot, if IndexOf(op) < n - 1 then Perform(op, p, root, fs, parse).snapshot else p.snapshot)
    ensures SameField(op, Perform(last, q, root, fs, parse).snapshot,
                      if IndexOf(op) < n then Perform(op, p, root, fs, parse).snapshot else p.snapshot)
  {
    if op == last {
      PerformIsLocal(op, q, p, root, fs, parse);
    } else {
      RunChangesOnlyItsField(last, op, q, root, fs, parse);
    }
  }

  /** The loaders of loadAllData are independent: each field ends as its own
      loader alone makes it from the starting snapshot, whatever ran before it.
      In particular both existence flags end equal to whether their file exists. */
  lemma LoadAllFieldwise(p: Published, root: string, fs: FileSystem, parse: string -> Document)
    ensures forall op :: SameField(op, LoadAll(p, root, fs, parse).snapshot, Perform(op, p, root, fs, parse).snapshot)
    ensures LoadAll(p, root, fs, parse).snapshot.qrCodeAvailable == (root + "/qr_support.png" in fs)
    ensures LoadAll(p, root, fs, parse).snapshot.facilityLogoIsGif == (root + "/facility_logo.gif" in fs)
  {
    forall op
      ensures SameField(op, LoadAll(p, root, fs, parse).snapshot, Perform(op, p, root, fs, parse).snapshot)
    {
      LoadFirstFieldwise(|LoadOrder|, op, p, root, fs, parse);
    }
    LoadFirstFieldwise(|LoadOrder|, CheckQRCodeAvailability, p, root, fs, parse);
    LoadFirstFieldwise(|LoadOrder|, CheckFacilityLogoType, p, root, fs, parse);
  }

  /** A path that matches no suffix changes no field and emits nothing. */
  lemma UnmatchedPathIsIgnored(path: string, p: Published, root: string, fs: FileSystem, parse: string -> Document)
    requires forall i :: 0 <= i < |Table| ==> !EndsWith(path, Table[i].0)
    ensures DispatchEffect(Route(path), p, root, fs, parse) == p
  {
    RouteIsFirstMatch(path);
  }
}
