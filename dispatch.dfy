/**
 * The suffix dispatcher of DataManager::onDelayedFileRead: which loader a
 * confirmed-stable path is handed to. The if-chain is checked in a fixed order
 * and the first matching suffix wins.
 */
module Dispatch {
  import opened Text

  /** The load / check member functions of the content loader. */
  datatype LoadOp =
    | LoadFacilityData | LoadUserData | LoadFacilityName | LoadFacilityColors
    | LoadScrollUpperText | LoadScrollLowerText | CheckQRCodeAvailability
    | CheckFacilityLogoType | LoadTextDaily | LoadTextCount | LoadTextRound

  /** What a stable path leads to: one loader, the logo branch (type check plus
      imagesChanged), the image branch (imagesChanged only), or nothing. */
  datatype Action = Load(op: LoadOp) | LogoChanged | ImageChanged | Ignore

  /** The dispatcher's if-chain, branch by branch. */
  function Route(path: string): Action
  {
    if EndsWith(path, "facility_data.json") then Load(LoadFacilityData)
    else if EndsWith(path, "user_data.json") then Load(LoadUserData)
    else if EndsWith(path, "facility_name.txt") then Load(LoadFacilityName)
    else if EndsWith(path, "facility_colors") then Load(LoadFacilityColors)
    else if EndsWith(path, "scroll_upper.txt") then Load(LoadScrollUpperText)
    else if EndsWith(path, "scroll_lower.txt") then Load(LoadScrollLowerText)
    else if EndsWith(path, "qr_support.png") then Load(CheckQRCodeAvailability)
    else if EndsWith(path, "facility_logo.png") || EndsWith(path, "facility_logo.gif") then LogoChanged
    else if EndsWith(path, "_image.jpg") || EndsWith(path, "_image.png") then ImageChanged
    else if EndsWith(path, "text_daily") then Load(LoadTextDaily)
    else if EndsWith(path, "text_count") then Load(LoadTextCount)
    else if EndsWith(path, "text_round") then Load(LoadTextRound)
    else Ignore
  }

  /** The same precedence written as a table of (suffix, action) rows. */
  const Table: seq<(string, Action)> := [
    ("facility_data.json", Load(LoadFacilityData)),
    ("user_data.json", Load(LoadUserData)),
    ("facility_name.txt", Load(LoadFacilityName)),
    ("facility_colors", Load(LoadFacilityColors)),
    ("scroll_upper.txt", Load(LoadScrollUpperText)),
    ("scroll_lower.txt", Load(LoadScrollLowerText)),
    ("qr_support.png", Load(CheckQRCodeAvailability)),
    ("facility_logo.png", LogoChanged),
    ("facility_logo.gif", LogoChanged),
    ("_image.jpg", ImageChanged),
    ("_image.png", ImageChanged),
    ("text_daily", Load(LoadTextDaily)),
    ("text_count", Load(LoadTextCount)),
    ("text_round", Load(LoadTextRound))
  ]

  /** The action of the first row whose suffix the path ends with, or Ignore
      when no row matches. */
  function FirstMatch(table: seq<(string, Action)>, path: string): (a: Action)
    requires forall i :: 0 <= i < |table| ==> table[i].1 != Ignore
    ensures a == Ignore <==> forall i :: 0 <= i < |table| ==> !EndsWith(path, table[i].0)
    ensures a != Ignore ==>
              exists i :: 0 <= i < |table| && EndsWith(path, table[i].0) && table[i].1 == a
                          && forall j :: 0 <= j < i ==> !EndsWith(path, table[j].0)
    decreases |table|
  {
    if table == [] then Ignore
    else if EndsWith(path, table[0].0) then table[0].1
    else
      var a := FirstMatch(table[1..], path);
      assert forall i :: 1 <= i < |table| ==> table[i] == table[1..][i - 1];
      a
  }

  /** The if-chain routes every path to the first table row it matches, so a
      path is handed to exactly one loader, and a path matching no suffix to
      none. */
  lemma RouteIsFirstMatch(path: string)
    ensures Route(path) == FirstMatch(Table, path)
  {
    var t0 := Table;
    var t1 := FirstMatchStep(t0, path);
    var t2 := FirstMatchStep(t1, path);
    var t3 := FirstMatchStep(t2, path);
    var t4 := FirstMatchStep(t3, path);
    var t5 := FirstMatchStep(t4, path);
    var t6 := FirstMatchStep(t5, path);
    var t7 := FirstMatchStep(t6, path);
    var t8 := FirstMatchStep(t7, path);
    var t9 := FirstMatchStep(t8, path);
    var t10 := FirstMatchStep(t9, path);
    var t11 := FirstMatchStep(t10, path);
    var t12 := FirstMatchStep(t11, path);
    var t13 := FirstMatchStep(t12, path);
    var t14 := FirstMatchStep(t13, path);
    assert t14 == [];
  }

  /** One row of the table: either it matches, or the rest decides. */
  lemma FirstMatchStep(table: seq<(string, Action)>, path: string) returns (rest: seq<(string, Action)>)
    requires table != []
    requires forall i :: 0 <= i < |table| ==> table[i].1 != Ignore
    ensures rest == table[1..]
    ensures forall i :: 0 <= i < |rest| ==> rest[i].1 != Ignore
    ensures FirstMatch(table, path) == if EndsWith(path, table[0].0) then table[0].1 else FirstMatch(rest, path)
  {
    rest := table[1..];
  }
}
