/**
 * ConfigManager: the typed INI loader. The INI file, as QSettings reads it, is
 * a map from a group (INI section) to that group's key/value map; loadConfig is
 * then a total function of that map and of the render size in force before the
 * load, and the manager writes its result into its members section by section.
 */
module Config {
  import opened Wrappers
  import opened Files
  import opened Text
  import opened HexColor

  /** One INI group: key to raw value. */
  type Group = map<string, string>

  /** The whole file: group name to group. */
  type Ini = map<string, Group>

  /** What QSettings reads from the file at `path`: nothing when the file
      cannot be opened. */
  function IniOf(fs: FileSystem, path: string, parse: string -> Ini): Ini
  {
    if path in fs && fs[path].readable then parse(fs[path].content) else map[]
  }

  /** beginGroup(name): the keys of one section; a missing section has none. */
  function GroupOf(ini: Ini, name: string): Group
  {
    if name in ini then ini[name] else map[]
  }

  /** value(key, default).toString(). */
  function StringValue(g: Group, key: string, default: string): string
  {
    if key in g then g[key] else default
  }

  /** value(key, default).toInt() with an integer default. */
  function IntValue(g: Group, key: string, default: int): int
  {
    if key in g then ToInt(g[key]) else default
  }

  /** value(key, default).toInt() == 1: the integer-coded flags. */
  predicate FlagValue(g: Group, key: string, default: int)
  {
    IntValue(g, key, default) == 1
  }

  // ---------------------------------------------------------------------------
  // The sections

  datatype Theme = Theme(colorMain: string, colorBg01: string, colorBg02: string, colorText: string, colorFlip: bool)

  datatype Hello = Hello(
    state: bool, news1: string, news2: string, lead: string, main: string, spinText: string,
    spinImg1: string, spinImg2: string, spinImg3: string, spinImg4: string, show1: string, show2: string,
    hourText: string, hourData: string, listText: string, listData: string, logo: string, scan: string)

  /** The ten layer_N values are held as one sequence, and so are the ten
      layer_transition_N values. */
  datatype Live = Live(
    layers: seq<string>, transitions: seq<int>, width: int, height: int, rotate: int, mouse: int,
    mousePoint: string, mouseHover: string, mouseField: string, mouseDelay: string)

  datatype Timer = Timer(
    state: bool, count: bool, max: int, text: string, menuLeft: string, menuMiddle: string, menuRight: string)

  datatype Image = Image(source: string, bgColor: string, fillMode: int, showBg: bool)

  /** One entry of the platform list: the QVariantMap with keys icon, category,
      total and index. */
  datatype Platform = Platform(icon: string, category: string, total: int, index: int)

  /** Every member loadConfig writes. */
  datatype Loaded = Loaded(theme: Theme, hello: Hello, platforms: seq<Platform>, live: Live, timer: Timer, image: Image)

  /** A theme colour: the value, or the default written as "0x" and six
      digits, through parseHexColor. */
  function ColorValue(g: Group, key: string, digits: string): string
  {
    ParseHexColor(StringValue(g, key, "0x" + digits))
  }

  /** The app_theme group: every colour is well formed, whatever the file
      holds, and the flip flag is on exactly when color_flip reads as 1. */
  function ThemeOf(g: Group): (t: Theme)
    ensures IsColor(t.colorMain) && IsColor(t.colorBg01) && IsColor(t.colorBg02) && IsColor(t.colorText)
    ensures t.colorFlip <==> "color_flip" in g && ToInt(g["color_flip"]) == 1
  {
    Theme(
      ColorValue(g, "color_main", "00AEEF"),
      ColorValue(g, "color_bg01", "002657"),
      ColorValue(g, "color_bg02", "00529b"),
      ColorValue(g, "color_text", "fb6502"),
      FlagValue(g, "color_flip", 0))
  }

  const VarsDir: string := "/home/gladis/app/vars/"

  /** The app_hello group, without the platform list. The hello screen is on
      unless hello_state is present and reads as something other than 1. */
  function HelloOf(g: Group): (h: Hello)
    ensures h.state <==> "hello_state" !in g || ToInt(g["hello_state"]) == 1
  {
    Hello(
      FlagValue(g, "hello_state", 1),
      StringValue(g, "hello_news-1", "Welcome!"),
      StringValue(g, "hello_news-2", "Welcome!"),
      StringValue(g, "hello_lead", VarsDir + "banner_image.png"),
      StringValue(g, "hello_main", VarsDir + "facility_logo.png"),
      StringValue(g, "hello_spin-text", "NEW RELEASES"),
      StringValue(g, "hello_spin-img1", VarsDir + "game1_image.jpg"),
      StringValue(g, "hello_spin-img2", VarsDir + "game2_image.jpg"),
      StringValue(g, "hello_spin-img3", VarsDir + "game3_image.jpg"),
      StringValue(g, "hello_spin-img4", VarsDir + "game4_image.jpg"),
      StringValue(g, "hello_show-1", VarsDir + "left_image.png"),
      StringValue(g, "hello_show-2", VarsDir + "right_image.png"),
      StringValue(g, "hello_hour-text", "LAB HOURS"),
      StringValue(g, "hello_hour-data", VarsDir + "facility_data.json"),
      StringValue(g, "hello_list-text", "PLAYERS"),
      StringValue(g, "hello_list-data", VarsDir + "user_data.json"),
      StringValue(g, "hello_logo", VarsDir + "gamelab.gif"),
      StringValue(g, "hello_scan", VarsDir + "qr_support.png"))
  }

  function LayerKey(i: nat): string { "layer_" + DecimalString(i) }

  function TransitionKey(i: nat): string { "layer_transition_" + DecimalString(i) }

  /** layer_0 .. layer_{n - 1}, each defaulting to "". */
  function Layers(g: Group, n: nat): (r: seq<string>)
    ensures |r| == n
    ensures forall i :: 0 <= i < n ==> r[i] == if LayerKey(i) in g then g[LayerKey(i)] else ""
  {
    if n == 0 then [] else Layers(g, n - 1) + [StringValue(g, LayerKey(n - 1), "")]
  }

  /** layer_transition_0 .. layer_transition_{n - 1}, each defaulting to 300. */
  function Transitions(g: Group, n: nat): (r: seq<int>)
    ensures |r| == n
    ensures forall i :: 0 <= i < n ==> r[i] == if TransitionKey(i) in g then ToInt(g[TransitionKey(i)]) else 300
  {
    if n == 0 then [] else Transitions(g, n - 1) + [IntValue(g, TransitionKey(n - 1), 300)]
  }

  const LayerCount: nat := 10

  /** The app_live group. The render size changes only when render_window
      splits on ';' into exactly two parts; otherwise the size in force before
      the load (`width`, `height`) is kept. */
  function LiveOf(g: Group, width: int, height: int): (l: Live)
    ensures |l.layers| == LayerCount && |l.transitions| == LayerCount
  {
    var dims := Split(StringValue(g, "render_window", "1024" + ";600"), ';');
    Live(
      Layers(g, LayerCount),
      Transitions(g, LayerCount),
      if |dims| == 2 then ToInt(dims[0]) else width,
      if |dims| == 2 then ToInt(dims[1]) else height,
      IntValue(g, "render_rotate", 0),
      IntValue(g, "render_mouse", 1),
      StringValue(g, "mouse-point", "mouse_assets/mouse-point.png"),
      StringValue(g, "mouse-hover", "mouse_assets/mouse-hover.png"),
      StringValue(g, "mouse-field", "mouse_assets/mouse-field.png"),
      StringValue(g, "mouse-delay", "mouse_assets/mouse-delay.png"))
  }

  /** The app_timer group: both flags are off unless their key reads as 1. */
  function TimerOf(g: Group): (t: Timer)
    ensures t.state <==> "timer_state" in g && ToInt(g["timer_state"]) == 1
    ensures t.count <==> "timer_count" in g && ToInt(g["timer_count"]) == 1
  {
    Timer(
      FlagValue(g, "timer_state", 0),
      FlagValue(g, "timer_count", 0),
      IntValue(g, "timer_max", 99),
      StringValue(g, "timer_text", "FINISH SSO LOGIN"),
      StringValue(g, "timer_menu-l", "NEED MORE TIME"),
      StringValue(g, "timer_menu-m", ""),
      StringValue(g, "timer_menu-r", "START OVER"))
  }

  /** The app_image group. The background colour is stored as written, not
      through parseHexColor. */
  function ImageOf(g: Group): (m: Image)
    ensures m.bgColor == if "image_bg_color" in g then g["image_bg_color"] else DefaultColor
    ensures m.showBg <==> "image_show_bg" in g && ToInt(g["image_show_bg"]) == 1
  {
    Image(
      StringValue(g, "image_source", ""),
      StringValue(g, "image_bg_color", "#000000"),
      IntValue(g, "image_fill_mode", 1),
      FlagValue(g, "image_show_bg", 0))
  }

  // ---------------------------------------------------------------------------
  // parsePlatformList

  function ImgKey(i: nat): string { "hello_list-img" + DecimalString(i) }
  function CatKey(i: nat): string { "hello_list-cat" + DecimalString(i) }
  function TotKey(i: nat): string { "hello_list-tot" + DecimalString(i) }

  /** The entry for index i: a missing image is "", a missing or non-numeric
      total is 0. */
  function PlatformAt(g: Group, i: nat): Platform
  {
    Platform(StringValue(g, ImgKey(i), ""), StringValue(g, CatKey(i), ""), ToInt(StringValue(g, TotKey(i), "0")), i)
  }

  /** The list after the loop has looked at indices 0 .. n - 1. */
  function PlatformsUpTo(g: Group, n: nat): seq<Platform>
  {
    if n == 0 then []
    else PlatformsUpTo(g, n - 1) + (if CatKey(n - 1) in g then [PlatformAt(g, n - 1)] else [])
  }

  const MaxPlatforms: nat := 10

  function Platforms(g: Group): seq<Platform>
  {
    PlatformsUpTo(g, MaxPlatforms)
  }

  /** The loop's list holds, in ascending index order, one entry for each index
      below n whose category key is present, and nothing else. */
  lemma {:induction false} PlatformsUpToSpec(g: Group, n: nat)
    ensures var ps := PlatformsUpTo(g, n);
            && |ps| <= n
            && (forall a, b :: 0 <= a < b < |ps| ==> ps[a].index < ps[b].index)
            && (forall k :: 0 <= k < |ps| ==> 0 <= ps[k].index < n && ps[k] == PlatformAt(g, ps[k].index))
            && (forall i :: 0 <= i < n ==> (CatKey(i) in g <==> exists k :: 0 <= k < |ps| && ps[k].index == i))
  {
    if n > 0 {
      PlatformsUpToSpec(g, n - 1);
      var before := PlatformsUpTo(g, n - 1);
      var ps := PlatformsUpTo(g, n);
      assert forall k :: 0 <= k < |before| ==> ps[k] == before[k];
      if CatKey(n - 1) in g {
        assert ps[|before|].index == n - 1;
      }
      forall i | 0 <= i < n
        ensures CatKey(i) in g <==> exists k :: 0 <= k < |ps| && ps[k].index == i
      {
        if i < n - 1 {
          if exists k :: 0 <= k < |ps| && ps[k].index == i {
            var k :| 0 <= k < |ps| && ps[k].index == i;
            assert k < |before|;
          }
        } else if exists k :: 0 <= k < |ps| && ps[k].index == i {
          var k :| 0 <= k < |ps| && ps[k].index == i;
          assert k == |before|;
        }
      }
    }
  }

  /** parsePlatformList: at most ten entries, in strictly ascending index
      order; index i is listed exactly when hello_list-cat{i} is present (even
      with an empty value), and its entry is read from that index's keys. */
  lemma PlatformListSpec(g: Group)
    ensures |Platforms(g)| <= MaxPlatforms
    ensures forall a, b :: 0 <= a < b < |Platforms(g)| ==> Platforms(g)[a].index < Platforms(g)[b].index
    ensures forall i :: 0 <= i < MaxPlatforms ==>
              (CatKey(i) in g <==> exists k :: 0 <= k < |Platforms(g)| && Platforms(g)[k].index == i)
    ensures forall k :: 0 <= k < |Platforms(g)| ==>
              0 <= Platforms(g)[k].index < MaxPlatforms && Platforms(g)[k] == PlatformAt(g, Platforms(g)[k].index)
  {
    PlatformsUpToSpec(g, MaxPlatforms);
  }

  /** An entry's image defaults to "" and its total to 0, also when the total
      is not a number. */
  lemma PlatformDefaults(g: Group, i: nat)
    ensures ImgKey(i) !in g ==> PlatformAt(g, i).icon == ""
    ensures TotKey(i) !in g ==> PlatformAt(g, i).total == 0
    ensures TotKey(i) in g && ParseDecimal(Trim(g[TotKey(i)])).None? ==> PlatformAt(g, i).total == 0
  {
    if TotKey(i) !in g {
      ToIntOfIntString(0);
    }
  }

  // ---------------------------------------------------------------------------
  // loadConfig as a function

  /** Everything a completed loadConfig writes, from the file's groups and the
      render size in force before the load: well-formed theme colours, at most
      ten platforms, ten layers and ten transitions, whatever the file holds. */
  function Load(ini: Ini, width: int, height: int): (l: Loaded)
    ensures IsColor(l.theme.colorMain) && IsColor(l.theme.colorBg01)
            && IsColor(l.theme.colorBg02) && IsColor(l.theme.colorText)
    ensures |l.platforms| <= MaxPlatforms
    ensures |l.live.layers| == LayerCount && |l.live.transitions| == LayerCount
  {
    var hello := GroupOf(ini, "app_hello");
    PlatformListSpec(hello);
    Loaded(ThemeOf(GroupOf(ini, "app_theme")), HelloOf(hello), Platforms(hello),
           LiveOf(GroupOf(ini, "app_live"), width, height), TimerOf(GroupOf(ini, "app_timer")),
           ImageOf(GroupOf(ini, "app_image")))
  }

  /** A missing theme colour falls back to its default, which also goes
      through parseHexColor and keeps the case of its digits. */
  lemma ColorDefault(g: Group, key: string, digits: string)
    requires |digits| == 6 && forall k :: 0 <= k < 6 ==> IsHexDigit(digits[k])
    ensures key !in g ==> ColorValue(g, key, digits) == "#" + digits
    ensures key in g ==> ColorValue(g, key, digits) == ParseHexColor(g[key])
  {
    var v := "0x" + digits;
    assert !IsHexDigit(v[1]);
    assert v[2..8] == digits;
    ParseHexColorLeftmostRun(v, 2);
  }

  /** The theme defaults are six hexadecimal digits each, so a theme without
      any key is "#00AEEF", "#002657", "#00529b" and "#fb6502", not flipped. */
  lemma ThemeDefaults()
    ensures ThemeOf(map[]) == Theme("#" + "00AEEF", "#" + "002657", "#" + "00529b", "#" + "fb6502", false)
  {
    ColorDefault(map[], "color_main", "00AEEF");
    ColorDefault(map[], "color_bg01", "002657");
    ColorDefault(map[], "color_bg02", "00529b");
    ColorDefault(map[], "color_text", "fb6502");
  }

  /** The integer-coded flags are true exactly when the value, or the default
      when the key is missing, reads as the integer 1. */
  lemma FlagsAreIntegerOne(ini: Ini, width: int, height: int)
    ensures var l := Load(ini, width, height);
            var theme, hello := GroupOf(ini, "app_theme"), GroupOf(ini, "app_hello");
            var timer, image := GroupOf(ini, "app_timer"), GroupOf(ini, "app_image");
            && (l.theme.colorFlip <==> "color_flip" in theme && ToInt(theme["color_flip"]) == 1)
            && (l.hello.state <==> "hello_state" !in hello || ToInt(hello["hello_state"]) == 1)
            && (l.timer.state <==> "timer_state" in timer && ToInt(timer["timer_state"]) == 1)
            && (l.timer.count <==> "timer_count" in timer && ToInt(timer["timer_count"]) == 1)
            && (l.image.showBg <==> "image_show_bg" in image && ToInt(image["image_show_bg"]) == 1)
  {
  }

  /** "true" and "2" do not switch a flag on. */
  lemma FlagSpellingsOff()
    ensures !FlagValue(map["color_flip" := "true"], "color_flip", 0)
    ensures !FlagValue(map["color_flip" := "2"], "color_flip", 0)
  {
  }

  /** "1", " 1" and "01" switch a flag on. */
  lemma FlagSpellingsOn()
    ensures FlagValue(map["color_flip" := "1"], "color_flip", 0)
    ensures FlagValue(map["color_flip" := " 1"], "color_flip", 0)
    ensures FlagValue(map["color_flip" := "01"], "color_flip", 0)
  {
    assert Trim(" 1") == "1" by {
      assert TrimStart(" 1") == TrimStart(" 1"[1..]);
      assert " 1"[1..] == "1";
    }
    assert DigitsValue("01") == 1 by {
      assert "01"[..1] == "0";
    }
  }

  /** render_window: a value that does not split into exactly two parts keeps
      the previous size; the other groups' values never affect it. */
  lemma RenderWindowMalformedKeepsSize(g: Group, width: int, height: int)
    requires "render_window" in g && Count(g["render_window"], ';') != 1
    ensures LiveOf(g, width, height).width == width && LiveOf(g, width, height).height == height
  {
  }

  /** render_window written as "W;H" sets the size to W by H. */
  lemma RenderWindowRoundTrip(g: Group, w: int, h: int, width: int, height: int)
    requires IntMin <= w <= IntMax && IntMin <= h <= IntMax
    requires StringValue(g, "render_window", "1024" + ";600") == IntString(w) + ";" + IntString(h)
    ensures LiveOf(g, width, height).width == w && LiveOf(g, width, height).height == h
  {
    var rw := IntString(w) + ";" + IntString(h);
    var parts := [IntString(w), IntString(h)];
    assert ';' !in IntString(w) && ';' !in IntString(h) by {
      IntStringHasNoSeparator(w);
      IntStringHasNoSeparator(h);
    }
    assert Join(parts, ';') == rw;
    SplitJoin(parts, ';');
    ToIntOfIntString(w);
    ToIntOfIntString(h);
  }

  lemma IntStringHasNoSeparator(v: int)
    ensures ';' !in IntString(v)
  {
    var d := DecimalString(if v < 0 then -v else v);
    assert forall k :: 0 <= k < |d| ==> IsDigit(d[k]);
    if v < 0 {
      assert IntString(v) == "-" + d;
    }
  }

  /** Without a render_window key the size is 1024 by 600, whatever it was. */
  lemma RenderWindowDefault(g: Group, width: int, height: int)
    requires "render_window" !in g
    ensures LiveOf(g, width, height).width == 1024 && LiveOf(g, width, height).height == 600
  {
    assert IntString(1024) + ";" + IntString(600) == "1024;600";
    RenderWindowRoundTrip(g, 1024, 600, width, height);
  }

  /** image_bg_color is stored exactly as written, where a theme colour with
      the same text goes through parseHexColor. */
  lemma ImageBgColorVerbatim(g: Group)
    ensures "image_bg_color" in g ==> ImageOf(g).bgColor == g["image_bg_color"]
    ensures "image_bg_color" !in g ==> ImageOf(g).bgColor == "#000000"
    ensures ImageOf(map["image_bg_color" := "red"]).bgColor == "red"
    ensures ThemeOf(map["color_main" := "red"]).colorMain == DefaultColor
  {
    var t: Group := map["color_main" := "red"];
    assert forall j :: 0 <= j ==> !HexRunAt(t["color_main"], j) by {
      assert !IsHexDigit('r');
    }
    ParseHexColorNoRun(t["color_main"]);
  }

  /** Loading the same file again gives the same members: the only state a
      load reads, the render size, is itself what the first load set or kept. */
  lemma LoadIdempotent(ini: Ini, width: int, height: int)
    ensures var l := Load(ini, width, height);
            Load(ini, l.live.width, l.live.height) == l
  {
  }

  /** A load depends on the previous members only through the render size. */
  lemma LoadIgnoresPreviousState(ini: Ini, w1: int, h1: int, w2: int, h2: int)
    ensures var a, b := Load(ini, w1, h1), Load(ini, w2, h2);
            a.theme == b.theme && a.hello == b.hello && a.platforms == b.platforms
            && a.timer == b.timer && a.image == b.image && a.live.layers == b.live.layers
            && a.live.transitions == b.live.transitions
  {
  }

  // ---------------------------------------------------------------------------
  // The manager

  datatype ConfigEvent = ConfigChanged

  const InitialTheme: Theme := Theme("", "", "", "", false)
  const InitialHello: Hello := Hello(true, "", "", "", "", "", "", "", "", "", "", "", "", "", "", "", "", "")
  const InitialLive: Live := Live(
    ["", "", "", "", "", "", "", "", "", ""], [300, 300, 300, 300, 300, 300, 300, 300, 300, 300], 1024, 600, 0, 1,
    "mouse_assets/mouse-point.png", "mouse_assets/mouse-hover.png",
    "mouse_assets/mouse-field.png", "mouse_assets/mouse-delay.png")
  const InitialTimer: Timer := Timer(false, false, 99, "FINISH SSO LOGIN", "NEED MORE TIME", "", "START OVER")
  const InitialImage: Image := Image("", "#000000", 1, false)

  class ConfigManager {
    /** The INI reader QSettings uses, which this model does not open up. */
    const parseIni: string -> Ini

    var configPath: string
    /** The paths the watcher holds. */
    var registered: set<string>
    /** m_settings: None until the first completed load. */
    var settings: Option<Ini>

    var theme: Theme
    var hello: Hello
    var platformList: seq<Platform>
    var live: Live
    var timer: Timer
    var image: Image

    /** Every configChanged emitted so far. */
    var events: seq<ConfigEvent>

    /** The members a load writes. */
    function Members(): Loaded
      reads this`theme, this`hello, this`platformList, this`live, this`timer, this`image
    {
      Loaded(theme, hello, platformList, live, timer, image)
    }

    /** The constructor's defaults; no file is read. */
    constructor (parse: string -> Ini)
      ensures parseIni == parse && configPath == "" && registered == {} && settings == None && events == []
      ensures Members() == Loaded(InitialTheme, InitialHello, [], InitialLive, InitialTimer, InitialImage)
    {
      parseIni := parse;
      configPath := "";
      registered := {};
      settings := None;
      theme, hello, platformList := InitialTheme, InitialHello, [];
      live, timer, image := InitialLive, InitialTimer, InitialImage;
      events := [];
    }

    /** Whether loadConfig would get past its two early returns. */
    predicate CanLoad(fs: FileSystem)
      reads this`configPath
    {
      configPath != "" && configPath in fs
    }

    /** loadConfig: with an empty path or a missing file nothing changes and
        nothing is emitted. Otherwise every member is rewritten from the file
        or its default and configChanged is emitted once. */
    method LoadConfig(fs: FileSystem)
      modifies this`settings, this`theme, this`hello, this`platformList, this`live, this`timer,
               this`image, this`events
      ensures !old(CanLoad(fs)) ==> unchanged(this)
      ensures old(CanLoad(fs)) ==>
                var ini := IniOf(fs, configPath, parseIni);
                && settings == Some(ini)
                && Members() == Load(ini, old(live.width), old(live.height))
                && events == old(events) + [ConfigChanged]
    {
      if configPath == "" {
        return;
      }
      if configPath !in fs {
        return;
      }
      ReadSettings(IniOf(fs, configPath, parseIni));
      events := events + [ConfigChanged];
    }

    /** The part of loadConfig after its early returns, up to the notification:
        the settings are replaced and every section is read from its group. */
    method ReadSettings(ini: Ini)
      modifies this`settings, this`theme, this`hello, this`platformList, this`live, this`timer, this`image
      ensures settings == Some(ini)
      ensures Members() == Load(ini, old(live.width), old(live.height))
    {
      settings := Some(ini);
      theme := ThemeOf(GroupOf(ini, "app_theme"));
      hello := HelloOf(GroupOf(ini, "app_hello"));
      ParsePlatformList();
      live := LiveOf(GroupOf(ini, "app_live"), live.width, live.height);
      timer := TimerOf(GroupOf(ini, "app_timer"));
      image := ImageOf(GroupOf(ini, "app_image"));
    }

    /** parsePlatformList: clears the list, then appends an entry for each index
        0 .. 9 whose category key is present in app_hello. */
    method ParsePlatformList()
      modifies this`platformList
      ensures platformList == if settings.Some? then Platforms(GroupOf(settings.value, "app_hello")) else []
    {
      platformList := [];
      if settings.None? {
        return;
      }
      var g := GroupOf(settings.value, "app_hello");
      for i := 0 to MaxPlatforms
        invariant platformList == PlatformsUpTo(g, i)
      {
        if CatKey(i) in g {
          platformList := platformList + [PlatformAt(g, i)];
        }
      }
    }

    /** setConfigPath: the new path replaces every watch (it is watched only if
        the file exists), then the file is loaded. */
    method SetConfigPath(fs: FileSystem, path: string)
      modifies this`configPath, this`registered, this`settings, this`theme, this`hello,
               this`platformList, this`live, this`timer, this`image, this`events
      ensures configPath == path
      ensures registered == AddPath({}, fs, path)
      ensures !CanLoad(fs) ==>
                settings == old(settings) && Members() == old(Members()) && events == old(events)
      ensures CanLoad(fs) ==>
                var ini := IniOf(fs, path, parseIni);
                && settings == Some(ini)
                && Members() == Load(ini, old(live.width), old(live.height))
                && events == old(events) + [ConfigChanged]
    {
      configPath := path;
      registered := {};
      if path in fs {
        registered := AddPath(registered, fs, path);
      }
      LoadConfig(fs);
    }

    /** onFileChanged: the path is watched again if the watcher dropped it, and
        the file is reloaded at once, with no debounce. */
    method OnFileChanged(fs: FileSystem, path: string)
      modifies this`registered, this`settings, this`theme, this`hello, this`platformList,
               this`live, this`timer, this`image, this`events
      ensures registered == AddPath(old(registered), fs, path)
      ensures !CanLoad(fs) ==>
                settings == old(settings) && Members() == old(Members()) && events == old(events)
      ensures CanLoad(fs) ==>
                var ini := IniOf(fs, configPath, parseIni);
                && settings == Some(ini)
                && Members() == Load(ini, old(live.width), old(live.height))
                && events == old(events) + [ConfigChanged]
    {
      if path !in registered {
        registered := AddPath(registered, fs, path);
      }
      LoadConfig(fs);
    }
  }

  /** Two change notifications for an unchanged file leave the members as the
      first left them and emit configChanged twice. */
  method ReloadTwice(m: ConfigManager, fs: FileSystem)
    requires m.CanLoad(fs)
    modifies m
    ensures m.Members() == Load(IniOf(fs, m.configPath, m.parseIni), old(m.live.width), old(m.live.height))
    ensures m.events == old(m.events) + [ConfigChanged, ConfigChanged]
  {
    var path := m.configPath;
    m.OnFileChanged(fs, path);
    ghost var first := m.Members();
    m.OnFileChanged(fs, path);
    LoadIdempotent(IniOf(fs, path, m.parseIni), old(m.live.width), old(m.live.height));
  }
}
