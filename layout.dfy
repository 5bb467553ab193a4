/** The layout updates of the card generator: for one CSV row, which layer
    sets and layers of the card template become visible, which texts they
    show, which font size they get and which asset a smart object shows.
    Line numbers in this module refer to CreateCards.jsx.

    The template is a `Document` whose `folders` map every layer set's name
    to its visibility and whose `layers` map every art layer, top-level or
    directly inside a layer set, to its record. A lookup that the host would
    fail (`getByName` on a missing name) is a key that is not in the map; the
    enclosing `try` then leaves the rest of the update undone. */
module Layout {
  import opened Text
  import opened CardHelpers
  import Csv

  /** Where a layer is looked up: `artLayers` of the document or of a layer set. */
  datatype Place = Top | In(folder: string)

  datatype Ref = Ref(place: Place, name: string)

  datatype Kind = TextLayer | SmartObject | OtherLayer

  /** An image under the template's `assets` directory: a sub-directory and a
      file name. */
  datatype Asset = Asset(dir: string, file: string)

  datatype Layer = Layer(kind: Kind, visible: bool, text: string, size: int,
                         baselineShift: int, placed: Option<Asset>)

  datatype Scene = Scene(folders: map<string, bool>, layers: map<Ref, Layer>)

  /** `dir + "\\" + sanitizeFileName(value) + ".png"` below `assets`. */
  function AssetFor(dir: string, value: string): Asset {
    Asset(dir, SanitizeFileName(value) + ".png")
  }

  /** `row[key]`, `None` for a column the file does not have. */
  function Get(row: Csv.Row, key: string): Option<string> {
    if key in row then Some(row[key]) else None
  }

  /** The text a text item shows after `contents = value`; the host writes
      `undefined` as that word. */
  function JsText(value: Option<string>): string {
    if value.Some? then value.value else "undefined"
  }

  /** Both `getByName` calls of a lookup succeed. */
  predicate Found(s: Scene, r: Ref) {
    r in s.layers && (r.place.In? ==> r.place.folder in s.folders)
  }

  /** `t` differs from `s` at most in the layer `r`. */
  predicate OnlyLayer(s: Scene, t: Scene, r: Ref) {
    t.folders == s.folders && t.layers.Keys == s.layers.Keys
    && forall q :: q in s.layers && q != r ==> t.layers[q] == s.layers[q]
  }

  /** `t` differs from `s` at most in the layer set `f` and the layers inside it. */
  predicate OnlyFolder(s: Scene, t: Scene, f: string) {
    t.folders.Keys == s.folders.Keys
    && (forall g :: g in s.folders && g != f ==> t.folders[g] == s.folders[g])
    && t.layers.Keys == s.layers.Keys
    && forall q :: q in s.layers && q.place != In(f) ==> t.layers[q] == s.layers[q]
  }

  // ---------------------------------------------------------------------------
  // Single-layer updates

  /** `updateTextLayer`: only a text layer takes the new contents. */
  function SetText(s: Scene, r: Ref, text: string): (t: Scene)
    ensures OnlyLayer(s, t, r)
    ensures r in s.layers ==> t.layers[r].visible == s.layers[r].visible && t.layers[r].kind == s.layers[r].kind
    ensures Found(s, r) && s.layers[r].kind == TextLayer ==> t.layers[r].text == text
    ensures !(Found(s, r) && s.layers[r].kind == TextLayer) ==> t == s
    ensures r in s.layers ==> t.layers[r] == s.layers[r].(text := t.layers[r].text)
  {
    if Found(s, r) && s.layers[r].kind == TextLayer
    then s.(layers := s.layers[r := s.layers[r].(text := text)])
    else s
  }

  /** `replaceContents`: only a smart object takes the file, and only when
      the file exists. */
  function PlaceAsset(s: Scene, assets: set<Asset>, r: Ref, a: Asset): (t: Scene)
    ensures OnlyLayer(s, t, r)
    ensures r in s.layers ==> t.layers[r].visible == s.layers[r].visible && t.layers[r].kind == s.layers[r].kind
    ensures Found(s, r) && s.layers[r].kind == SmartObject ==> t.layers[r].placed == if a in assets then Some(a) else s.layers[r].placed
    ensures !(Found(s, r) && s.layers[r].kind == SmartObject && a in assets) ==> t == s
    ensures r in s.layers ==> t.layers[r] == s.layers[r].(placed := t.layers[r].placed)
  {
    if Found(s, r) && s.layers[r].kind == SmartObject && a in assets
    then s.(layers := s.layers[r := s.layers[r].(placed := Some(a))])
    else s
  }

  /** Lines 339-345: the font size and baseline shift for `text`. */
  function FontFor(text: string, defaultSize: int, reducedSize: int, charLimit: int): (int, int) {
    if |text| > charLimit then (reducedSize, -5) else (defaultSize, 0)
  }

  /** `adjustFontSize`: the text is written again and then sized. */
  function Resize(s: Scene, r: Ref, text: string, defaultSize: int, reducedSize: int, charLimit: int): (t: Scene)
    ensures OnlyLayer(s, t, r)
    ensures r in s.layers ==> t.layers[r].visible == s.layers[r].visible && t.layers[r].kind == s.layers[r].kind
    ensures Found(s, r) && s.layers[r].kind == TextLayer ==>
              t.layers[r].text == text
              && (t.layers[r].size, t.layers[r].baselineShift) == FontFor(text, defaultSize, reducedSize, charLimit)
    ensures !(Found(s, r) && s.layers[r].kind == TextLayer) ==> t == s
    ensures r in s.layers ==>
              t.layers[r] == s.layers[r].(text := t.layers[r].text, size := t.layers[r].size,
                                          baselineShift := t.layers[r].baselineShift)
  {
    if Found(s, r) && s.layers[r].kind == TextLayer
    then
      var (size, shift) := FontFor(text, defaultSize, reducedSize, charLimit);
      s.(layers := s.layers[r := s.layers[r].(text := text, size := size, baselineShift := shift)])
    else s
  }

  function ShowLayer(s: Scene, r: Ref, visible: bool): (t: Scene)
    requires r in s.layers
    ensures OnlyLayer(s, t, r)
  {
    s.(layers := s.layers[r := s.layers[r].(visible := visible)])
  }

  function ShowFolder(s: Scene, f: string, visible: bool): Scene {
    s.(folders := s.folders[f := visible])
  }

  // ---------------------------------------------------------------------------
  // The row updates

  /** `updateFolder`: the layer set is shown and its text layer filled when
      the value has text, and only hidden otherwise. */
  function FolderUpdate(s: Scene, f: string, layerName: string, value: Option<string>): Scene {
    if f !in s.folders then s
    else if HasText(value) then SetText(ShowFolder(s, f, true), Ref(In(f), layerName), value.value)
    else ShowFolder(s, f, false)
  }

  /** `updateSecondary` on the layer set `f`, which the caller has found. */
  function SecondaryUpdate(s: Scene, assets: set<Asset>, f: string, layerName: string, value: Option<string>): (t: Scene)
    ensures t.folders == s.folders && t.layers.Keys == s.layers.Keys
    ensures forall q :: q in s.layers && q.place != In(f) ==> t.layers[q] == s.layers[q]
    ensures forall q :: q in s.layers && q != Ref(In(f), layerName) && q != Ref(In(f), layerName + "BG") ==>
              t.layers[q] == s.layers[q]
  {
    var r, bg := Ref(In(f), layerName), Ref(In(f), layerName + "BG");
    if !(r in s.layers && bg in s.layers) then s
    else if HasText(value) then
      PlaceAsset(ShowLayer(ShowLayer(s, r, true), bg, true), assets, r, AssetFor("secondaries", value.value))
    else ShowLayer(ShowLayer(s, r, false), bg, false)
  }

  const TwoMain := "TWOMAIN"
  const OneMain := "ONEMAIN"

  /** Lines 115-136: which of the two main-character layer sets is shown. */
  function MainChoice(s: Scene, assets: set<Asset>, main1: Option<string>, main2: Option<string>): (t: Scene)
    requires TwoMain in s.folders && OneMain in s.folders
    ensures t.layers.Keys == s.layers.Keys
    ensures !HasText(main1) ==> t.layers == s.layers
    ensures t.folders == s.folders[TwoMain := HasText(main1) && HasText(main2)][OneMain := HasText(main1) && !HasText(main2)]
  {
    if HasText(main1) then
      if HasText(main2) then
        var s1 := ShowFolder(ShowFolder(s, TwoMain, true), OneMain, false);
        var s2 := PlaceAsset(s1, assets, Ref(In(TwoMain), "MAIN1"), AssetFor("mains", main1.value));
        PlaceAsset(s2, assets, Ref(In(TwoMain), "MAIN2"), AssetFor("mains", main2.value))
      else
        var s1 := ShowFolder(ShowFolder(s, TwoMain, false), OneMain, true);
        PlaceAsset(s1, assets, Ref(In(OneMain), "MAIN1"), AssetFor("mains", main1.value))
    else ShowFolder(ShowFolder(s, TwoMain, false), OneMain, false)
  }

  /** `updateMainFolders`: nothing happens unless both layer sets exist; then
      the main choice, and the secondaries in both layer sets. */
  function MainFoldersUpdate(s: Scene, assets: set<Asset>, row: Csv.Row): Scene {
    if !(TwoMain in s.folders && OneMain in s.folders) then s
    else
      var secondary1, secondary2 := Get(row, "SECONDARY1"), Get(row, "SECONDARY2");
      var s1 := MainChoice(s, assets, Get(row, "MAIN1"), Get(row, "MAIN2"));
      var s2 := SecondaryUpdate(s1, assets, TwoMain, "SECONDARY1", secondary1);
      var s3 := SecondaryUpdate(s2, assets, TwoMain, "SECONDARY2", secondary2);
      var s4 := SecondaryUpdate(s3, assets, OneMain, "SECONDARY1", secondary1);
      SecondaryUpdate(s4, assets, OneMain, "SECONDARY2", secondary2)
  }

  /** One of the two `try` blocks of `updateTeamFolders`; only `TEAM1`
      resizes its name. */
  function TeamUpdate(s: Scene, assets: set<Asset>, row: Csv.Row, team: string, resize: bool): (t: Scene)
    ensures OnlyFolder(s, t, team)
  {
    if team !in s.folders then s
    else
      var teamName := Get(row, team);
      if HasText(teamName) then
        var nameLayer := Ref(In(team), "TEAMNAME");
        var s1 := SetText(ShowFolder(s, team, true), nameLayer, teamName.value);
        var s2 := if resize then Resize(s1, nameLayer, teamName.value, 45, 38, 21) else s1;
        PlaceAsset(s2, assets, Ref(In(team), "TEAMLOGO"), AssetFor("teams", teamName.value))
      else ShowFolder(s, team, false)
  }

  function TeamFoldersUpdate(s: Scene, assets: set<Asset>, row: Csv.Row): Scene {
    TeamUpdate(TeamUpdate(s, assets, row, "TEAM1", true), assets, row, "TEAM2", false)
  }

  function EventFolder(n: nat): string {
    "EVENT" + NatToString(n)
  }

  /** Lines 370-375: the place and its ordinal suffix. */
  function EventLabels(s: Scene, f: string, place: Option<string>): (t: Scene)
    requires f in s.folders
    ensures t.folders == s.folders && t.layers.Keys == s.layers.Keys
    ensures forall q :: q in s.layers && q != Ref(In(f), "PLACEMENT") && q != Ref(In(f), "SUFFIX") ==> t.layers[q] == s.layers[q]
    ensures var placement := Ref(In(f), "PLACEMENT");
            placement in s.layers && s.layers[placement].kind == TextLayer ==> t.layers[placement].text == JsText(place)
    ensures var suffix := Ref(In(f), "SUFFIX");
            suffix in s.layers && s.layers[suffix].kind == TextLayer ==> t.layers[suffix].text == PlacementSuffix(place)
  {
    var placement, suffix := Ref(In(f), "PLACEMENT"), Ref(In(f), "SUFFIX");
    assert placement != suffix by {
      assert "PLACEMENT"[0] != "SUFFIX"[0];
    }
    SetText(SetText(s, placement, JsText(place)), suffix, PlacementSuffix(place))
  }

  /** Lines 377-379: the event name, sized by the 65/54 rule with a
      21-character limit. */
  function EventName(s: Scene, f: string, name: string): (t: Scene)
    requires f in s.folders
    ensures OnlyLayer(s, t, Ref(In(f), "NAME"))
    ensures var nameLayer := Ref(In(f), "NAME");
            nameLayer in s.layers && s.layers[nameLayer].kind == TextLayer ==>
              t.layers[nameLayer].text == name
              && (t.layers[nameLayer].size, t.layers[nameLayer].baselineShift) == FontFor(name, 65, 54, 21)
  {
    var nameLayer := Ref(In(f), "NAME");
    Resize(SetText(s, nameLayer, name), nameLayer, name, 65, 54, 21)
  }

  /** Lines 368-382: a shown event layer set gets the place, its ordinal
      suffix, the event name sized by the 65/54 rule with a 21-character
      limit, and the event's logo. */
  function EventFill(s: Scene, assets: set<Asset>, f: string, name: string, place: Option<string>): (t: Scene)
    requires f in s.folders
    ensures OnlyFolder(s, t, f)
    ensures t.folders == s.folders[f := true]
    ensures var placement := Ref(In(f), "PLACEMENT");
            placement in s.layers && s.layers[placement].kind == TextLayer ==> t.layers[placement].text == JsText(place)
    ensures var suffix := Ref(In(f), "SUFFIX");
            suffix in s.layers && s.layers[suffix].kind == TextLayer ==> t.layers[suffix].text == PlacementSuffix(place)
    ensures var nameLayer := Ref(In(f), "NAME");
            nameLayer in s.layers && s.layers[nameLayer].kind == TextLayer ==>
              t.layers[nameLayer].text == name
              && (t.layers[nameLayer].size, t.layers[nameLayer].baselineShift) == FontFor(name, 65, 54, 21)
    ensures var logo, a := Ref(In(f), "LOGO"), AssetFor("events", name);
            logo in s.layers && s.layers[logo].kind == SmartObject ==>
              t.layers[logo].placed == if a in assets then Some(a) else s.layers[logo].placed
  {
    var placement, suffix, nameLayer, logo := Ref(In(f), "PLACEMENT"), Ref(In(f), "SUFFIX"), Ref(In(f), "NAME"), Ref(In(f), "LOGO");
    assert suffix != nameLayer && suffix != logo && nameLayer != logo
           && placement != nameLayer && placement != logo by {
      assert "SUFFIX"[0] != "NAME"[0] && "SUFFIX"[0] != "LOGO"[0] && "NAME"[0] != "LOGO"[0];
      assert "PLACEMENT"[0] != "NAME"[0] && "PLACEMENT"[0] != "LOGO"[0];
    }
    var s1 := ShowFolder(s, f, true);
    var s2 := EventLabels(s1, f, place);
    var s3 := EventName(s2, f, name);
    assert s1.layers == s.layers && s3.folders == s1.folders;
    assert logo in s.layers ==> Found(s3, logo) && s3.layers[logo] == s.layers[logo];
    assert nameLayer in s.layers ==> s2.layers[nameLayer] == s.layers[nameLayer];
    assert forall q :: q in s.layers && q != nameLayer ==> s3.layers[q] == s2.layers[q];
    PlaceAsset(s3, assets, logo, AssetFor("events", name))
  }

  /** `updateEventFolder(n, row)`. */
  function EventUpdate(s: Scene, assets: set<Asset>, row: Csv.Row, n: nat): (t: Scene)
    ensures OnlyFolder(s, t, EventFolder(n))
  {
    var f := EventFolder(n);
    if f !in s.folders then s
    else
      var resultName := Get(row, "RESULT" + NatToString(n) + "NAME");
      var resultPlace := Get(row, "RESULT" + NatToString(n) + "PLACE");
      if HasText(resultName) then EventFill(s, assets, f, resultName.value, resultPlace)
      else ShowFolder(s, f, false)
  }

  /** The `eventNum` loop of lines 74-76, up to event `n`. */
  function EventsUpdate(s: Scene, assets: set<Asset>, row: Csv.Row, n: nat): Scene
    decreases n
  {
    if n == 0 then s else EventUpdate(EventsUpdate(s, assets, row, n - 1), assets, row, n)
  }

  const PronounsBg := Ref(Top, "PRONOUNSBG")

  /** Lines 41-46: the pronouns background shows unless the field is "";
      a file without the column leaves `row["PRONOUNS"]` undefined, which is
      not "" either. */
  function PronounsToggle(s: Scene, row: Csv.Row): Scene
    requires PronounsBg in s.layers
  {
    ShowLayer(s, PronounsBg, Get(row, "PRONOUNS") != Some(""))
  }

  // ---------------------------------------------------------------------------
  // Properties of the updates

  /** `updateFolder` shows the layer set exactly when the value has text,
      writes the value into its text layer only then, and leaves everything
      else alone; without the layer set it does nothing. */
  lemma FolderUpdateShows(s: Scene, f: string, layerName: string, value: Option<string>)
    ensures f !in s.folders ==> FolderUpdate(s, f, layerName, value) == s
    ensures f in s.folders ==> FolderUpdate(s, f, layerName, value).folders == s.folders[f := HasText(value)]
    ensures !HasText(value) ==> FolderUpdate(s, f, layerName, value).layers == s.layers
    ensures var r := Ref(In(f), layerName);
            f in s.folders && HasText(value) && r in s.layers && s.layers[r].kind == TextLayer
            ==> FolderUpdate(s, f, layerName, value).layers[r].text == value.value
  {
  }

  /** `updateSecondary` shows or hides the layer and its background
      together, by whether the value has text. */
  lemma SecondaryShows(s: Scene, assets: set<Asset>, f: string, layerName: string, value: Option<string>)
    ensures var r, bg := Ref(In(f), layerName), Ref(In(f), layerName + "BG");
            r in s.layers && bg in s.layers ==>
              SecondaryUpdate(s, assets, f, layerName, value).layers[r].visible == HasText(value)
              && SecondaryUpdate(s, assets, f, layerName, value).layers[bg].visible == HasText(value)
    ensures var r, bg := Ref(In(f), layerName), Ref(In(f), layerName + "BG");
            !(r in s.layers && bg in s.layers) ==> SecondaryUpdate(s, assets, f, layerName, value) == s
    ensures var r, bg := Ref(In(f), layerName), Ref(In(f), layerName + "BG");
            f in s.folders && r in s.layers && bg in s.layers && HasText(value) && s.layers[r].kind == SmartObject ==>
              var a := AssetFor("secondaries", value.value);
              SecondaryUpdate(s, assets, f, layerName, value).layers[r].placed
              == if a in assets then Some(a) else s.layers[r].placed
  {
    var r, bg := Ref(In(f), layerName), Ref(In(f), layerName + "BG");
    assert r != bg by { assert |layerName + "BG"| != |layerName|; }
  }

  /** Lines 115-136: `TWOMAIN` shows when both mains have text and `ONEMAIN`
      when only the first has; with no first main neither shows, and the two
      never show together. Nothing happens unless both layer sets exist. */
  lemma MainFoldersShow(s: Scene, assets: set<Asset>, row: Csv.Row)
    ensures !(TwoMain in s.folders && OneMain in s.folders) ==> MainFoldersUpdate(s, assets, row) == s
    ensures var main1, main2 := Get(row, "MAIN1"), Get(row, "MAIN2");
            TwoMain in s.folders && OneMain in s.folders ==>
              MainFoldersUpdate(s, assets, row).folders
              == s.folders[TwoMain := HasText(main1) && HasText(main2)][OneMain := HasText(main1) && !HasText(main2)]
    ensures TwoMain in s.folders && OneMain in s.folders ==>
              !(MainFoldersUpdate(s, assets, row).folders[TwoMain] && MainFoldersUpdate(s, assets, row).folders[OneMain])
  {
  }

  /** The main characters' images that `MainChoice` places. */
  lemma MainChoicePlaces(s: Scene, assets: set<Asset>, main1: Option<string>, main2: Option<string>)
    requires TwoMain in s.folders && OneMain in s.folders
    ensures var r := Ref(In(TwoMain), "MAIN1");
            HasText(main1) && HasText(main2)
            && r in s.layers && s.layers[r].kind == SmartObject ==>
              var a := AssetFor("mains", main1.value);
              MainChoice(s, assets, main1, main2).layers[r].placed == if a in assets then Some(a) else s.layers[r].placed
    ensures var r := Ref(In(TwoMain), "MAIN2");
            HasText(main1) && HasText(main2)
            && r in s.layers && s.layers[r].kind == SmartObject ==>
              var a := AssetFor("mains", main2.value);
              MainChoice(s, assets, main1, main2).layers[r].placed == if a in assets then Some(a) else s.layers[r].placed
    ensures var r := Ref(In(OneMain), "MAIN1");
            HasText(main1) && !HasText(main2)
            && r in s.layers && s.layers[r].kind == SmartObject ==>
              var a := AssetFor("mains", main1.value);
              MainChoice(s, assets, main1, main2).layers[r].placed == if a in assets then Some(a) else s.layers[r].placed
  {
  }

  /** Lines 120-130: with both mains `MAIN1` and `MAIN2` of `TWOMAIN` show
      their images, with only the first `MAIN1` of `ONEMAIN` shows it; the
      secondaries that follow leave these layers alone. */
  lemma MainFoldersPlace(s: Scene, assets: set<Asset>, row: Csv.Row)
    ensures var main1, main2, r := Get(row, "MAIN1"), Get(row, "MAIN2"), Ref(In(TwoMain), "MAIN1");
            TwoMain in s.folders && OneMain in s.folders && HasText(main1) && HasText(main2)
            && r in s.layers && s.layers[r].kind == SmartObject ==>
              var a := AssetFor("mains", main1.value);
              MainFoldersUpdate(s, assets, row).layers[r].placed == if a in assets then Some(a) else s.layers[r].placed
    ensures var main1, main2, r := Get(row, "MAIN1"), Get(row, "MAIN2"), Ref(In(TwoMain), "MAIN2");
            TwoMain in s.folders && OneMain in s.folders && HasText(main1) && HasText(main2)
            && r in s.layers && s.layers[r].kind == SmartObject ==>
              var a := AssetFor("mains", main2.value);
              MainFoldersUpdate(s, assets, row).layers[r].placed == if a in assets then Some(a) else s.layers[r].placed
    ensures var main1, main2, r := Get(row, "MAIN1"), Get(row, "MAIN2"), Ref(In(OneMain), "MAIN1");
            TwoMain in s.folders && OneMain in s.folders && HasText(main1) && !HasText(main2)
            && r in s.layers && s.layers[r].kind == SmartObject ==>
              var a := AssetFor("mains", main1.value);
              MainFoldersUpdate(s, assets, row).layers[r].placed == if a in assets then Some(a) else s.layers[r].placed
  {
    if TwoMain in s.folders && OneMain in s.folders {
      MainChoicePlaces(s, assets, Get(row, "MAIN1"), Get(row, "MAIN2"));
      forall r | r in s.layers && (r.name == "MAIN1" || r.name == "MAIN2")
        ensures MainFoldersUpdate(s, assets, row).layers[r] == MainChoice(s, assets, Get(row, "MAIN1"), Get(row, "MAIN2")).layers[r]
      {
        SecondariesKeepMains(s, assets, row, r);
      }
    }
  }

  /** The four `updateSecondary` calls after the main choice do not touch a
      `MAIN1` or `MAIN2` layer. */
  lemma SecondariesKeepMains(s: Scene, assets: set<Asset>, row: Csv.Row, r: Ref)
    requires TwoMain in s.folders && OneMain in s.folders
    requires r in s.layers && (r.name == "MAIN1" || r.name == "MAIN2")
    ensures MainFoldersUpdate(s, assets, row).layers[r] == MainChoice(s, assets, Get(row, "MAIN1"), Get(row, "MAIN2")).layers[r]
  {
    var secondary1, secondary2 := Get(row, "SECONDARY1"), Get(row, "SECONDARY2");
    var s1 := MainChoice(s, assets, Get(row, "MAIN1"), Get(row, "MAIN2"));
    var s2 := SecondaryUpdate(s1, assets, TwoMain, "SECONDARY1", secondary1);
    var s3 := SecondaryUpdate(s2, assets, TwoMain, "SECONDARY2", secondary2);
    var s4 := SecondaryUpdate(s3, assets, OneMain, "SECONDARY1", secondary1);
    var s5 := SecondaryUpdate(s4, assets, OneMain, "SECONDARY2", secondary2);
    assert r.name != "SECONDARY1" && r.name != "SECONDARY1BG" by { assert |r.name| == 5; }
    assert r.name != "SECONDARY2" && r.name != "SECONDARY2BG" by { assert |r.name| == 5; }
    SecondaryKeeps(s1, assets, TwoMain, "SECONDARY1", secondary1, r);
    SecondaryKeeps(s2, assets, TwoMain, "SECONDARY2", secondary2, r);
    SecondaryKeeps(s3, assets, OneMain, "SECONDARY1", secondary1, r);
    SecondaryKeeps(s4, assets, OneMain, "SECONDARY2", secondary2, r);
  }

  lemma SecondaryKeeps(s: Scene, assets: set<Asset>, f: string, layerName: string, value: Option<string>, q: Ref)
    requires q in s.layers && q.name != layerName && q.name != layerName + "BG"
    ensures q in SecondaryUpdate(s, assets, f, layerName, value).layers
    ensures SecondaryUpdate(s, assets, f, layerName, value).layers[q] == s.layers[q]
  {
  }

  /** A team layer set shows exactly when its column has text, and a shown
      one carries the team name, sized by the 45/38 rule with a 21-character
      limit when `resize` is set and keeping its size otherwise. */
  lemma TeamShows(s: Scene, assets: set<Asset>, row: Csv.Row, team: string, resize: bool)
    ensures team in s.folders ==> TeamUpdate(s, assets, row, team, resize).folders[team] == HasText(Get(row, team))
    ensures var r := Ref(In(team), "TEAMNAME");
            team in s.folders && HasText(Get(row, team)) && r in s.layers && s.layers[r].kind == TextLayer ==>
              TeamUpdate(s, assets, row, team, resize).layers[r].text == Get(row, team).value
    ensures var r := Ref(In(team), "TEAMNAME");
            team in s.folders && HasText(Get(row, team)) && r in s.layers && s.layers[r].kind == TextLayer && resize ==>
              (TeamUpdate(s, assets, row, team, resize).layers[r].size, TeamUpdate(s, assets, row, team, resize).layers[r].baselineShift)
              == FontFor(Get(row, team).value, 45, 38, 21)
    ensures var r := Ref(In(team), "TEAMNAME");
            r in s.layers && !resize ==>
              TeamUpdate(s, assets, row, team, resize).layers[r].size == s.layers[r].size
              && TeamUpdate(s, assets, row, team, resize).layers[r].baselineShift == s.layers[r].baselineShift
    ensures var r := Ref(In(team), "TEAMLOGO");
            team in s.folders && HasText(Get(row, team)) && r in s.layers && s.layers[r].kind == SmartObject ==>
              var a := AssetFor("teams", Get(row, team).value);
              TeamUpdate(s, assets, row, team, resize).layers[r].placed == if a in assets then Some(a) else s.layers[r].placed
    ensures !HasText(Get(row, team)) ==> TeamUpdate(s, assets, row, team, resize).layers == s.layers
    ensures team !in s.folders ==> TeamUpdate(s, assets, row, team, resize) == s
  {
  }

  /** Of the two team layer sets each shows exactly when its own column has
      text, and only the first one's name is resized. */
  lemma TeamFoldersShow(s: Scene, assets: set<Asset>, row: Csv.Row)
    ensures "TEAM1" in s.folders ==> TeamFoldersUpdate(s, assets, row).folders["TEAM1"] == HasText(Get(row, "TEAM1"))
    ensures "TEAM2" in s.folders ==> TeamFoldersUpdate(s, assets, row).folders["TEAM2"] == HasText(Get(row, "TEAM2"))
    ensures var r := Ref(In("TEAM1"), "TEAMNAME");
            "TEAM1" in s.folders && HasText(Get(row, "TEAM1")) && r in s.layers && s.layers[r].kind == TextLayer ==>
              (TeamFoldersUpdate(s, assets, row).layers[r].size, TeamFoldersUpdate(s, assets, row).layers[r].baselineShift)
              == FontFor(Get(row, "TEAM1").value, 45, 38, 21)
    ensures var r := Ref(In("TEAM2"), "TEAMNAME");
            r in s.layers ==> TeamFoldersUpdate(s, assets, row).layers[r].size == s.layers[r].size
    ensures var r := Ref(In("TEAM1"), "TEAMNAME");
            "TEAM1" in s.folders && HasText(Get(row, "TEAM1")) && r in s.layers && s.layers[r].kind == TextLayer ==>
              TeamFoldersUpdate(s, assets, row).layers[r].text == Get(row, "TEAM1").value
    ensures var r := Ref(In("TEAM2"), "TEAMNAME");
            "TEAM2" in s.folders && HasText(Get(row, "TEAM2")) && r in s.layers && s.layers[r].kind == TextLayer ==>
              TeamFoldersUpdate(s, assets, row).layers[r].text == Get(row, "TEAM2").value
    ensures var r := Ref(In("TEAM1"), "TEAMLOGO");
            "TEAM1" in s.folders && HasText(Get(row, "TEAM1")) && r in s.layers && s.layers[r].kind == SmartObject ==>
              var a := AssetFor("teams", Get(row, "TEAM1").value);
              TeamFoldersUpdate(s, assets, row).layers[r].placed == if a in assets then Some(a) else s.layers[r].placed
    ensures var r := Ref(In("TEAM2"), "TEAMLOGO");
            "TEAM2" in s.folders && HasText(Get(row, "TEAM2")) && r in s.layers && s.layers[r].kind == SmartObject ==>
              var a := AssetFor("teams", Get(row, "TEAM2").value);
              TeamFoldersUpdate(s, assets, row).layers[r].placed == if a in assets then Some(a) else s.layers[r].placed
    ensures !HasText(Get(row, "TEAM1")) ==>
              forall q :: q in s.layers && q.place == In("TEAM1") ==> TeamFoldersUpdate(s, assets, row).layers[q] == s.layers[q]
    ensures !HasText(Get(row, "TEAM2")) ==>
              forall q :: q in s.layers && q.place == In("TEAM2") ==> TeamFoldersUpdate(s, assets, row).layers[q] == s.layers[q]
    ensures !HasText(Get(row, "TEAM1")) && !HasText(Get(row, "TEAM2")) ==> TeamFoldersUpdate(s, assets, row).layers == s.layers
    ensures "TEAM1" !in s.folders && "TEAM2" !in s.folders ==> TeamFoldersUpdate(s, assets, row) == s
  {
    var s1 := TeamUpdate(s, assets, row, "TEAM1", true);
    TeamShows(s, assets, row, "TEAM1", true);
    TeamShows(s1, assets, row, "TEAM2", false);
    assert Ref(In("TEAM2"), "TEAMNAME").place != In("TEAM1");
    assert Ref(In("TEAM1"), "TEAMNAME").place != In("TEAM2");
  }

  /** An event layer set shows exactly when its result name has text; with
      no result name it is hidden and nothing else changes. A shown one
      carries the place's ordinal suffix and the event name, sized by the
      65/54 rule with a 21-character limit (`EventTexts`). */
  lemma EventShows(s: Scene, assets: set<Asset>, row: Csv.Row, n: nat)
    ensures EventFolder(n) !in s.folders ==> EventUpdate(s, assets, row, n) == s
    ensures var f := EventFolder(n);
            f in s.folders ==> EventUpdate(s, assets, row, n).folders == s.folders[f := HasText(Get(row, "RESULT" + NatToString(n) + "NAME"))]
    ensures var f, name := EventFolder(n), Get(row, "RESULT" + NatToString(n) + "NAME");
            f in s.folders && !HasText(name) ==> EventUpdate(s, assets, row, n).layers == s.layers
  {
  }

  /** The texts of a shown event layer set. */
  lemma EventTexts(s: Scene, assets: set<Asset>, row: Csv.Row, n: nat)
    ensures var f, name, place := EventFolder(n), Get(row, "RESULT" + NatToString(n) + "NAME"), Get(row, "RESULT" + NatToString(n) + "PLACE");
            var placement := Ref(In(f), "PLACEMENT");
            f in s.folders && HasText(name) && placement in s.layers && s.layers[placement].kind == TextLayer ==>
              EventUpdate(s, assets, row, n).layers[placement].text == JsText(place)
    ensures var f, name, place := EventFolder(n), Get(row, "RESULT" + NatToString(n) + "NAME"), Get(row, "RESULT" + NatToString(n) + "PLACE");
            var suffix := Ref(In(f), "SUFFIX");
            f in s.folders && HasText(name) && suffix in s.layers && s.layers[suffix].kind == TextLayer ==>
              EventUpdate(s, assets, row, n).layers[suffix].text == PlacementSuffix(place)
    ensures var f, name := EventFolder(n), Get(row, "RESULT" + NatToString(n) + "NAME");
            var nameLayer := Ref(In(f), "NAME");
            f in s.folders && HasText(name) && nameLayer in s.layers && s.layers[nameLayer].kind == TextLayer ==>
              EventUpdate(s, assets, row, n).layers[nameLayer].text == name.value
              && (EventUpdate(s, assets, row, n).layers[nameLayer].size, EventUpdate(s, assets, row, n).layers[nameLayer].baselineShift)
                 == FontFor(name.value, 65, 54, 21)
    ensures var f, name := EventFolder(n), Get(row, "RESULT" + NatToString(n) + "NAME");
            var logo := Ref(In(f), "LOGO");
            f in s.folders && HasText(name) && logo in s.layers && s.layers[logo].kind == SmartObject ==>
              EventUpdate(s, assets, row, n).layers[logo].placed
              == if AssetFor("events", name.value) in assets then Some(AssetFor("events", name.value)) else s.layers[logo].placed
  {
  }

  /** With a reduced size no larger than the default, a longer text never
      gets a larger font. */
  lemma FontShrinks(a: string, b: string, defaultSize: int, reducedSize: int, charLimit: int)
    requires reducedSize <= defaultSize && |a| <= |b|
    ensures FontFor(b, defaultSize, reducedSize, charLimit).0 <= FontFor(a, defaultSize, reducedSize, charLimit).0
    ensures FontFor(b, defaultSize, reducedSize, charLimit).1 <= FontFor(a, defaultSize, reducedSize, charLimit).1
  {
  }

  lemma EventFoldersDiffer(m: nat, n: nat)
    requires m != n
    ensures EventFolder(m) != EventFolder(n)
  {
    ParseWrittenNumber(m);
    ParseWrittenNumber(n);
    assert EventFolder(m)[5..] == NatToString(m);
    assert EventFolder(n)[5..] == NatToString(n);
  }

  /** After the event loop, every event layer set `1..n` that exists shows
      exactly when its result name has text. */
  lemma {:induction false} EventsShow(s: Scene, assets: set<Asset>, row: Csv.Row, n: nat)
    ensures EventsUpdate(s, assets, row, n).folders.Keys == s.folders.Keys
    ensures forall m :: 1 <= m <= n && EventFolder(m) in s.folders ==>
              EventsUpdate(s, assets, row, n).folders[EventFolder(m)] == HasText(Get(row, "RESULT" + NatToString(m) + "NAME"))
    decreases n
  {
    if n > 0 {
      EventsShow(s, assets, row, n - 1);
      var before := EventsUpdate(s, assets, row, n - 1);
      EventShows(before, assets, row, n);
      forall m | 1 <= m < n && EventFolder(m) in s.folders
        ensures EventsUpdate(s, assets, row, n).folders[EventFolder(m)] == HasText(Get(row, "RESULT" + NatToString(m) + "NAME"))
      {
        EventFoldersDiffer(m, n);
      }
    }
  }

  /** The pronouns background shows exactly when the field is not "". */
  lemma PronounsShows(s: Scene, row: Csv.Row)
    requires PronounsBg in s.layers
    ensures PronounsToggle(s, row).layers[PronounsBg].visible <==> !("PRONOUNS" in row && row["PRONOUNS"] == "")
  {
  }

  // ---------------------------------------------------------------------------
  // The template document

  class Document {
    var folders: map<string, bool>
    var layers: map<Ref, Layer>
    /** The asset files that exist next to the template. */
    const assets: set<Asset>

    constructor(folders: map<string, bool>, layers: map<Ref, Layer>, assets: set<Asset>)
      ensures this.folders == folders && this.layers == layers && this.assets == assets
    {
      this.folders := folders;
      this.layers := layers;
      this.assets := assets;
    }

    function State(): Scene
      reads this
    {
      Scene(folders, layers)
    }

    /** Lines 218-239. */
    method UpdateTextLayer(layerName: string, textValue: Option<string>, place: Place)
      modifies this
      ensures State() == SetText(old(State()), Ref(place, layerName), JsText(textValue))
    {
      var r := Ref(place, layerName);
      if place.In? && place.folder !in folders {
        return;
      }
      if r !in layers {
        return;
      }
      var layer := layers[r];
      if layer.kind == TextLayer {
        layers := layers[r := layer.(text := JsText(textValue))];
      }
    }

    /** Lines 243-273; the file's existence is membership in `assets`. */
    method ReplaceContents(layerName: string, file: Asset, place: Place)
      modifies this
      ensures State() == PlaceAsset(old(State()), assets, Ref(place, layerName), file)
    {
      var r := Ref(place, layerName);
      if place.In? && place.folder !in folders {
        return;
      }
      if r !in layers {
        return;
      }
      var layer := layers[r];
      if layer.kind != SmartObject {
        return;
      }
      if file !in assets {
        return;
      }
      layers := layers[r := layer.(placed := Some(file))];
    }

    /** Lines 320-352. */
    method AdjustFontSize(layerName: string, text: string, place: Place,
                          defaultFontSize: int, reducedFontSize: int, charLimit: int)
      modifies this
      ensures State() == Resize(old(State()), Ref(place, layerName), text, defaultFontSize, reducedFontSize, charLimit)
    {
      var r := Ref(place, layerName);
      if place.In? && place.folder !in folders {
        return;
      }
      if r !in layers {
        return;
      }
      var layer := layers[r];
      if layer.kind == TextLayer {
        if |text| > charLimit {
          layer := layer.(text := text, size := reducedFontSize, baselineShift := -5);
        } else {
          layer := layer.(text := text, size := defaultFontSize, baselineShift := 0);
        }
        layers := layers[r := layer];
      }
    }

    /** Lines 87-102. */
    method UpdateFolder(folderName: string, textLayerName: string, textValue: Option<string>)
      modifies this
      ensures State() == FolderUpdate(old(State()), folderName, textLayerName, textValue)
    {
      if folderName !in folders {
        return;
      }
      if HasText(textValue) {
        folders := folders[folderName := true];
        UpdateTextLayer(textLayerName, textValue, In(folderName));
      } else {
        folders := folders[folderName := false];
      }
    }

    /** Lines 149-164, on a layer set the caller has found. */
    method UpdateSecondary(folderName: string, layerName: string, value: Option<string>)
      requires folderName in folders
      modifies this
      ensures State() == SecondaryUpdate(old(State()), assets, folderName, layerName, value)
    {
      var r, bg := Ref(In(folderName), layerName), Ref(In(folderName), layerName + "BG");
      if r !in layers || bg !in layers {
        return;
      }
      if HasText(value) {
        layers := layers[r := layers[r].(visible := true)];
        layers := layers[bg := layers[bg].(visible := true)];
        ReplaceContents(layerName, AssetFor("secondaries", value.value), In(folderName));
      } else {
        layers := layers[r := layers[r].(visible := false)];
        layers := layers[bg := layers[bg].(visible := false)];
      }
    }

    /** Lines 104-146. */
    method UpdateMainFolders(row: Csv.Row)
      modifies this
      ensures State() == MainFoldersUpdate(old(State()), assets, row)
    {
      if TwoMain !in folders || OneMain !in folders {
        return;
      }
      var main1, main2 := Get(row, "MAIN1"), Get(row, "MAIN2");
      var secondary1, secondary2 := Get(row, "SECONDARY1"), Get(row, "SECONDARY2");
      if HasText(main1) {
        if HasText(main2) {
          folders := folders[TwoMain := true];
          folders := folders[OneMain := false];
          ReplaceContents("MAIN1", AssetFor("mains", main1.value), In(TwoMain));
          ReplaceContents("MAIN2", AssetFor("mains", main2.value), In(TwoMain));
        } else {
          folders := folders[TwoMain := false];
          folders := folders[OneMain := true];
          ReplaceContents("MAIN1", AssetFor("mains", main1.value), In(OneMain));
        }
      } else {
        folders := folders[TwoMain := false];
        folders := folders[OneMain := false];
      }
      UpdateSecondary(TwoMain, "SECONDARY1", secondary1);
      UpdateSecondary(TwoMain, "SECONDARY2", secondary2);
      UpdateSecondary(OneMain, "SECONDARY1", secondary1);
      UpdateSecondary(OneMain, "SECONDARY2", secondary2);
    }

    /** One `try` block of lines 276-317. */
    method UpdateTeamFolder(row: Csv.Row, teamFolderName: string, resize: bool)
      modifies this
      ensures State() == TeamUpdate(old(State()), assets, row, teamFolderName, resize)
    {
      if teamFolderName !in folders {
        return;
      }
      var teamName := Get(row, teamFolderName);
      if HasText(teamName) {
        folders := folders[teamFolderName := true];
        UpdateTextLayer("TEAMNAME", teamName, In(teamFolderName));
        if resize {
          AdjustFontSize("TEAMNAME", teamName.value, In(teamFolderName), 45, 38, 21);
        }
        ReplaceContents("TEAMLOGO", AssetFor("teams", teamName.value), In(teamFolderName));
      } else {
        folders := folders[teamFolderName := false];
      }
    }

    /** Lines 276-317. */
    method UpdateTeamFolders(row: Csv.Row)
      modifies this
      ensures State() == TeamFoldersUpdate(old(State()), assets, row)
    {
      UpdateTeamFolder(row, "TEAM1", true);
      UpdateTeamFolder(row, "TEAM2", false);
    }

    /** Lines 355-390. */
    method UpdateEventFolder(eventNumber: nat, row: Csv.Row)
      modifies this
      ensures State() == EventUpdate(old(State()), assets, row, eventNumber)
    {
      var eventFolderName := EventFolder(eventNumber);
      if eventFolderName !in folders {
        return;
      }
      var resultName := Get(row, "RESULT" + NatToString(eventNumber) + "NAME");
      var resultPlace := Get(row, "RESULT" + NatToString(eventNumber) + "PLACE");
      if HasText(resultName) {
        folders := folders[eventFolderName := true];
        UpdateTextLayer("PLACEMENT", resultPlace, In(eventFolderName));
        var suffix := PlacementSuffix(resultPlace);
        UpdateTextLayer("SUFFIX", Some(suffix), In(eventFolderName));
        UpdateTextLayer("NAME", resultName, In(eventFolderName));
        AdjustFontSize("NAME", resultName.value, In(eventFolderName), 65, 54, 21);
        ReplaceContents("LOGO", AssetFor("events", resultName.value), In(eventFolderName));
      } else {
        folders := folders[eventFolderName := false];
      }
    }

    /** Lines 74-76. */
    method UpdateEventFolders(row: Csv.Row)
      modifies this
      ensures State() == EventsUpdate(old(State()), assets, row, 4)
    {
      var eventNum := 1;
      while eventNum <= 4
        invariant 1 <= eventNum <= 5
        invariant State() == EventsUpdate(old(State()), assets, row, eventNum - 1)
      {
        UpdateEventFolder(eventNum, row);
        eventNum := eventNum + 1;
      }
    }

    /** Lines 41-46. The lookup of the background sits outside any `try`: a
        template without it stops the script, reported here as `false`. */
    method TogglePronounsBackground(row: Csv.Row) returns (found: bool)
      modifies this
      ensures found == (PronounsBg in old(layers))
      ensures found ==> State() == PronounsToggle(old(State()), row)
      ensures !found ==> State() == old(State())
    {
      if PronounsBg !in layers {
        return false;
      }
      var pronouns := Get(row, "PRONOUNS");
      layers := layers[PronounsBg := layers[PronounsBg].(visible := pronouns != Some(""))];
      return true;
    }
  }
}
