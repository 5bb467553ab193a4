/** The per-layer exporter: every layer that is not the background is
    saved alone as a PNG named after it, in a folder named after the
    document without its extension. Line numbers in this module refer to
    SaveAssets.jsx. */
module Export {
  import opened Text
  import CardHelpers

  // ---------------------------------------------------------------------------
  // sanitizeFileName and the folder name

  /** The class `[\\\/\:\*\?\"\<\>\|]`; unlike the card generator's it keeps
      `'` and `%`. */
  const Unsafe: set<char> := {'\\', '/', ':', '*', '?', '"', '<', '>', '|'}

  /** `name.replace(/[\\\/\:\*\?\"\<\>\|]/g, "_")`. */
  function SanitizeFileName(name: string): (r: string)
    ensures |r| == |name|
    ensures forall i :: 0 <= i < |name| ==> r[i] == if name[i] in Unsafe then '_' else name[i]
  {
    ReplaceChars(name, Unsafe)
  }

  /** A sanitised name holds none of the characters, and sanitising it again
      changes nothing. */
  lemma SanitizedIsClean(name: string)
    ensures forall i :: 0 <= i < |SanitizeFileName(name)| ==> SanitizeFileName(name)[i] !in Unsafe
    ensures SanitizeFileName(SanitizeFileName(name)) == SanitizeFileName(name)
  {
    ReplaceCharsClears(name, Unsafe);
    ReplaceCharsIdempotent(name, Unsafe);
  }

  /** The card generator's sanitiser replaces a superset of the characters:
      applied after this one it gives what it gives alone, and this one keeps
      the two characters only the other replaces. */
  lemma CardSanitizerIsStricter(name: string)
    ensures CardHelpers.SanitizeFileName(SanitizeFileName(name)) == CardHelpers.SanitizeFileName(name)
    ensures SanitizeFileName("'%") == "'%"
    ensures CardHelpers.SanitizeFileName("'%") == "__"
  {
    ReplaceCharsAbsorbs(name, Unsafe, CardHelpers.Unsafe);
  }

  /** The index of the last `.` in `s`. */
  function LastDot(s: string): (r: Option<nat>)
    ensures r.Some? ==> r.value < |s| && s[r.value] == '.' && '.' !in s[r.value + 1..]
    ensures r.None? ==> '.' !in s
  {
    if s == [] then None
    else if s[|s| - 1] == '.' then Some(|s| - 1)
    else
      var r := LastDot(s[..|s| - 1]);
      assert r.Some? ==> s[r.value + 1..] == s[..|s| - 1][r.value + 1..] + [s[|s| - 1]];
      assert r.None? ==> s == s[..|s| - 1] + [s[|s| - 1]];
      r
  }

  /** `name.replace(/\.[^\.]+$/, "")`: a dot followed by at least one
      character and no further dot up to the end is removed with what
      follows it. Such a dot can only be the last one. */
  function StripExtension(name: string): string {
    match LastDot(name)
    case None => name
    case Some(p) => if p + 1 < |name| then name[..p] else name
  }

  /** Appending a non-empty extension without a dot and stripping it gives
      the name back. */
  lemma StripAppended(base: string, ext: string)
    requires ext != [] && '.' !in ext
    ensures StripExtension(base + "." + ext) == base
  {
    var s := base + "." + ext;
    var p := |base|;
    assert s[p] == '.' && s[p + 1..] == ext;
    assert s[..p] == base;
  }

  /** A name that the pattern does not match comes back unchanged. */
  lemma StripWithoutExtension(name: string)
    requires '.' !in name || name[|name| - 1] == '.'
    ensures StripExtension(name) == name
  {
  }

  lemma StripExamples()
    ensures StripExtension("a.b.c") == "a.b"
    ensures StripExtension(".psd") == ""
    ensures StripExtension("a.") == "a."
  {
    StripAppended("a.b", "c");
    assert "a.b" + "." + "c" == "a.b.c";
    StripAppended("", "psd");
    assert "" + "." + "psd" == ".psd";
    StripWithoutExtension("a.");
  }

  // ---------------------------------------------------------------------------
  // The export loop as a function of the layers

  datatype Layer = Layer(name: string, visible: bool, isBackground: bool)

  /** One `saveAs`: the file written and the visibility of every layer then. */
  datatype Export = Export(fileName: string, visible: seq<bool>)

  function Visibility(ls: seq<Layer>): seq<bool> {
    seq(|ls|, j requires 0 <= j < |ls| => ls[j].visible)
  }

  /** Only layer `i` of `n` visible. */
  function Only(n: nat, i: nat): seq<bool> {
    seq(n, j => j == i)
  }

  /** Iteration `i` of lines 20-40 on the layers `ls`: a background layer is
      skipped; otherwise every layer is hidden and layer `i` gets back the
      visibility it had when the iteration began. */
  function Step(ls: seq<Layer>, i: nat): (r: seq<Layer>)
    requires i < |ls|
    ensures |r| == |ls|
  {
    if ls[i].isBackground then ls
    else seq(|ls|, j requires 0 <= j < |ls| => ls[j].(visible := if j == i then ls[i].visible else false))
  }

  /** The layers after the first `n` iterations. */
  function Run(ls: seq<Layer>, n: nat): (r: seq<Layer>)
    requires n <= |ls|
    ensures |r| == |ls|
    ensures forall j :: 0 <= j < |ls| ==> r[j].name == ls[j].name && r[j].isBackground == ls[j].isBackground
  {
    if n == 0 then ls else Step(Run(ls, n - 1), n - 1)
  }

  /** What iteration `i` saves. */
  function LogEntry(ls: seq<Layer>, i: nat): seq<Export>
    requires i < |ls|
  {
    if ls[i].isBackground then [] else [Export(SanitizeFileName(ls[i].name) + ".png", Only(|ls|, i))]
  }

  /** The files saved in the first `n` iterations. */
  function ExportLog(ls: seq<Layer>, n: nat): seq<Export>
    requires n <= |ls|
  {
    if n == 0 then [] else ExportLog(ls, n - 1) + LogEntry(ls, n - 1)
  }

  /** Iteration `i` saves the same whether it sees the layers as they were at
      the start or as the earlier iterations left them. */
  lemma ExportLogStep(ls: seq<Layer>, i: nat)
    requires i < |ls|
    ensures ExportLog(ls, i + 1) == ExportLog(ls, i) + LogEntry(Run(ls, i), i)
  {
    var cur := Run(ls, i);
    assert cur[i].name == ls[i].name && cur[i].isBackground == ls[i].isBackground;
  }

  /** The indices below `n` of the layers that are not the background. */
  function Exported(ls: seq<Layer>, n: nat): (ks: seq<nat>)
    requires n <= |ls|
    ensures forall k :: 0 <= k < |ks| ==> ks[k] < n && !ls[ks[k]].isBackground
  {
    if n == 0 then []
    else Exported(ls, n - 1) + (if ls[n - 1].isBackground then [] else [n - 1])
  }

  /** Every layer that is not the background is among the exported indices,
      hidden or not, and they come in layer order. */
  lemma {:induction false} ExportedLayers(ls: seq<Layer>, n: nat)
    requires n <= |ls|
    ensures forall i :: 0 <= i < n && !ls[i].isBackground ==> i in Exported(ls, n)
    ensures forall k, k' :: 0 <= k < k' < |Exported(ls, n)| ==> Exported(ls, n)[k] < Exported(ls, n)[k']
  {
    if n > 0 {
      ExportedLayers(ls, n - 1);
    }
  }

  /** The log has one file per exported index, in that order, and each file
      shows that layer alone. */
  lemma {:induction false} ExportLogLayers(ls: seq<Layer>, n: nat)
    requires n <= |ls|
    ensures |ExportLog(ls, n)| == |Exported(ls, n)|
    ensures forall k :: 0 <= k < |ExportLog(ls, n)| ==>
              var i := Exported(ls, n)[k];
              ExportLog(ls, n)[k] == Export(SanitizeFileName(ls[i].name) + ".png", Only(|ls|, i))
  {
    if n > 0 {
      ExportLogLayers(ls, n - 1);
      var prev, ks := ExportLog(ls, n - 1), Exported(ls, n - 1);
      if ls[n - 1].isBackground {
        assert ExportLog(ls, n) == prev && Exported(ls, n) == ks;
      } else {
        assert ExportLog(ls, n) == prev + [Export(SanitizeFileName(ls[n - 1].name) + ".png", Only(|ls|, n - 1))];
        assert Exported(ls, n) == ks + [n - 1];
      }
    }
  }

  /** The layers at the end in closed form: names and background flags are
      kept; with no layer to export nothing changes; with exactly one, that
      layer keeps its visibility and all others are hidden; with more, all
      are hidden, since each later layer starts its iteration hidden. */
  lemma {:induction false} RunClosedForm(ls: seq<Layer>, n: nat)
    requires n <= |ls|
    ensures |Exported(ls, n)| == 0 ==> Run(ls, n) == ls
    ensures |Exported(ls, n)| == 1 ==>
              var k := Exported(ls, n)[0];
              forall j :: 0 <= j < |ls| ==> Run(ls, n)[j].visible == (j == k && ls[k].visible)
    ensures |Exported(ls, n)| >= 2 ==> forall j :: 0 <= j < |ls| ==> !Run(ls, n)[j].visible
  {
    if n > 0 {
      RunClosedForm(ls, n - 1);
      var before := Run(ls, n - 1);
      var ks := Exported(ls, n - 1);
      if !ls[n - 1].isBackground && |ks| == 1 {
        assert ks[0] < n - 1;
      }
    }
  }

  // ---------------------------------------------------------------------------
  // The document

  class Document {
    const name: string
    const layers: array<Layer>
    /** The files saved so far. */
    var log: seq<Export>

    constructor(name: string, layers: array<Layer>)
      ensures this.name == name && this.layers == layers && log == []
    {
      this.name := name;
      this.layers := layers;
      log := [];
    }

    /** Lines 46-50. */
    method ToggleVisibility(visibility: bool)
      modifies layers
      ensures forall j :: 0 <= j < layers.Length ==> layers[j] == old(layers[j]).(visible := visibility)
    {
      var i := 0;
      while i < layers.Length
        invariant 0 <= i <= layers.Length
        invariant forall j :: 0 <= j < i ==> layers[j] == old(layers[j]).(visible := visibility)
        invariant forall j :: i <= j < layers.Length ==> layers[j] == old(layers[j])
      {
        layers[i] := layers[i].(visible := visibility);
        i := i + 1;
      }
    }

    /** Lines 53-62: the saved file records what is visible at that moment. */
    method SavePng(layerName: string)
      modifies this
      ensures log == old(log) + [Export(SanitizeFileName(layerName) + ".png", Visibility(layers[..]))]
    {
      log := log + [Export(SanitizeFileName(layerName) + ".png", Visibility(layers[..]))];
    }

    /** Lines 21-39: iteration `i`. A background layer is skipped; any other
        is saved while it alone is visible, then gets its visibility back. */
    method ExportLayer(i: nat)
      requires i < layers.Length
      modifies this, layers
      ensures log == old(log) + LogEntry(old(layers[..]), i)
      ensures layers[..] == Step(old(layers[..]), i)
      ensures old(layers[i]).isBackground ==> layers[..] == old(layers[..]) && log == old(log)
      ensures !old(layers[i]).isBackground ==>
                |log| == |old(log)| + 1 && log[|log| - 1].visible == Only(layers.Length, i)
                && layers[i] == old(layers[i])
                && forall j :: 0 <= j < layers.Length && j != i ==> layers[j] == old(layers[j]).(visible := false)
    {
      if layers[i].isBackground {
        return;
      }
      var visibilityState := layers[i].visible;
      ToggleVisibility(false);
      layers[i] := layers[i].(visible := true);
      assert Visibility(layers[..]) == Only(layers.Length, i);
      SavePng(layers[i].name);
      layers[i] := layers[i].(visible := visibilityState);
    }

    /** Lines 9-40; the folder to save into is returned. */
    method ExportAll() returns (folder: string)
      modifies this, layers
      ensures folder == StripExtension(name)
      ensures log == old(log) + ExportLog(old(layers[..]), layers.Length)
      ensures layers[..] == Run(old(layers[..]), layers.Length)
    {
      folder := StripExtension(name);
      ghost var start := layers[..];
      var i := 0;
      while i < layers.Length
        invariant 0 <= i <= layers.Length
        invariant layers[..] == Run(start, i)
        invariant log == old(log) + ExportLog(start, i)
      {
        ExportLayer(i);
        ExportLogStep(start, i);
        i := i + 1;
      }
    }
  }
}
