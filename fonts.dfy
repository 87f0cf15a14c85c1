/** Font selection: the Pricedown files are tried in order, then the Arial
    files, then the built-in default. A file either loads at every size or
    fails; `loads(name)` says which, standing for the filesystem and the
    font loader. The title font for the "VI" fallback has its own shorter
    chain. */
module Fonts {
  import opened Wrappers
  import opened Drawing

  const PricedownNames: seq<string> :=
    ["pricedown.otf", "Pricedown.otf", "PRICEDOWN.OTF", "pricedown.ttf", "Pricedown.ttf"]
  const ArialNames: seq<string> := ["arial.ttf", "Arial.ttf", "arialbd.ttf"]

  /** The four fonts the image uses: percentage, "COMING", the day count and
      date (and "R*"), and the watermark. */
  datatype FontSet = FontSet(large: Font, medium: Font, small: Font, supersmall: Font)

  function PricedownSet(name: string): FontSet {
    FontSet(Truetype(name, 70), Truetype(name, 50), Truetype(name, 50), Truetype(name, 24))
  }

  function ArialSet(name: string): FontSet {
    FontSet(Truetype(name, 70), Truetype(name, 50), Truetype(name, 42), Truetype(name, 24))
  }

  const DefaultSet := FontSet(DefaultFont, DefaultFont, DefaultFont, DefaultFont)

  /** Position of the first name that loads, if any. */
  function FirstLoadable(names: seq<string>, loads: string -> bool): (r: Option<nat>)
    ensures r.Some? ==> r.value < |names| && loads(names[r.value])
    ensures r.Some? ==> forall k :: 0 <= k < r.value ==> !loads(names[k])
    ensures r.None? <==> forall k :: 0 <= k < |names| ==> !loads(names[k])
    decreases |names|
  {
    if names == [] then None
    else if loads(names[0]) then Some(0)
    else match FirstLoadable(names[1..], loads)
      case None => None
      case Some(i) => Some(i + 1)
  }

  /** All four fonts come from one file, at the sizes of that file's family. */
  predicate FromOneFile(fs: FontSet, name: string, small: int) {
    fs == FontSet(Truetype(name, 70), Truetype(name, 50), Truetype(name, small), Truetype(name, 24))
  }

  /** The fonts the two fallback loops end up with. */
  function ResolveFonts(loads: string -> bool): (fs: FontSet)
    ensures fs == DefaultSet <==>
      (forall k :: 0 <= k < |PricedownNames| ==> !loads(PricedownNames[k]))
      && (forall k :: 0 <= k < |ArialNames| ==> !loads(ArialNames[k]))
    ensures (exists k :: 0 <= k < |PricedownNames| && loads(PricedownNames[k])) ==>
      exists k :: 0 <= k < |PricedownNames| && loads(PricedownNames[k]) && FromOneFile(fs, PricedownNames[k], 50)
        && forall m :: 0 <= m < k ==> !loads(PricedownNames[m])
  {
    match FirstLoadable(PricedownNames, loads)
    case Some(i) => PricedownSet(PricedownNames[i])
    case None =>
      match FirstLoadable(ArialNames, loads)
      case Some(i) => ArialSet(ArialNames[i])
      case None => DefaultSet
  }

  /** Without any Pricedown file the first Arial file that loads supplies all
      four fonts, with 42 points for the small one. */
  lemma ArialFallback(loads: string -> bool)
    requires forall k :: 0 <= k < |PricedownNames| ==> !loads(PricedownNames[k])
    ensures (exists k :: 0 <= k < |ArialNames| && loads(ArialNames[k])) ==>
      exists k :: 0 <= k < |ArialNames| && loads(ArialNames[k]) && FromOneFile(ResolveFonts(loads), ArialNames[k], 42)
        && forall m :: 0 <= m < k ==> !loads(ArialNames[m])
  {
    var a := FirstLoadable(ArialNames, loads);
    if a.Some? {
      assert FromOneFile(ResolveFonts(loads), ArialNames[a.value], 42);
    }
  }

  /** One fallback loop: try each name in turn and stop at the first that
      loads, leaving `loaded` false when none does. */
  method TryFamily(names: seq<string>, loads: string -> bool, small: int)
    returns (loaded: bool, fs: FontSet)
    ensures loaded <==> FirstLoadable(names, loads).Some?
    ensures loaded ==> var i := FirstLoadable(names, loads).value;
      fs == FontSet(Truetype(names[i], 70), Truetype(names[i], 50), Truetype(names[i], small), Truetype(names[i], 24))
  {
    loaded := false;
    fs := DefaultSet;
    var i := 0;
    while i < |names|
      invariant 0 <= i <= |names|
      invariant forall k :: 0 <= k < i ==> !loads(names[k])
      invariant !loaded
    {
      if loads(names[i]) {
        fs := FontSet(Truetype(names[i], 70), Truetype(names[i], 50), Truetype(names[i], small), Truetype(names[i], 24));
        loaded := true;
        break;
      }
      i := i + 1;
    }
    if loaded {
      assert FirstLoadable(names, loads) == Some(i) by {
        FirstLoadableUnique(names, loads, i);
      }
    }
  }

  /** A position whose name loads and has no loading name before it is the
      one the search finds. */
  lemma FirstLoadableUnique(names: seq<string>, loads: string -> bool, i: nat)
    requires i < |names| && loads(names[i])
    requires forall k :: 0 <= k < i ==> !loads(names[k])
    ensures FirstLoadable(names, loads) == Some(i)
  {
    var r := FirstLoadable(names, loads);
    assert r.Some? by {
      assert loads(names[i]);
    }
  }

  /** The Pricedown loop, then the Arial loop if nothing loaded, then the default. */
  method LoadFonts(loads: string -> bool) returns (fonts: FontSet)
    ensures fonts == ResolveFonts(loads)
  {
    var fontsLoaded, fs := TryFamily(PricedownNames, loads, 50);
    if fontsLoaded {
      fonts := fs;
      return;
    }
    fontsLoaded, fs := TryFamily(ArialNames, loads, 42);
    if fontsLoaded {
      fonts := fs;
      return;
    }
    fonts := DefaultSet;
  }

  /** The files the title font tries, at 350 points, before falling back to
      the large font. */
  const TitleNames: seq<string> := ["pricedown.otf", "arial.ttf"]
  const TitleSize := 350

  /** The title font: the same first-success search over its own two names,
      with the large font as the fallback instead of the default. */
  function TitleFont(loads: string -> bool, large: Font): (f: Font)
    ensures loads("pricedown.otf") ==> f == Truetype("pricedown.otf", 350)
    ensures !loads("pricedown.otf") && loads("arial.ttf") ==> f == Truetype("arial.ttf", 350)
    ensures !loads("pricedown.otf") && !loads("arial.ttf") ==> f == large
  {
    match FirstLoadable(TitleNames, loads)
    case Some(i) => Truetype(TitleNames[i], TitleSize)
    case None => large
  }

  /** With the large font the loops chose, the title is drawn at 350 points
      exactly when one of the two title files loads; otherwise it is the large
      font itself, 70 points or the default. */
  lemma TitleFontSize(loads: string -> bool)
    ensures var f := TitleFont(loads, ResolveFonts(loads).large);
      (f.Truetype? && f.size == 350) <==> loads("pricedown.otf") || loads("arial.ttf")
    ensures var f := TitleFont(loads, ResolveFonts(loads).large);
      f.Truetype? && f.size != 350 ==> f.size == 70
  {
    var fs := ResolveFonts(loads);
    var p := FirstLoadable(PricedownNames, loads);
    if p.None? {
      var a := FirstLoadable(ArialNames, loads);
      if a.Some? {
        assert fs.large == Truetype(ArialNames[a.value], 70);
      }
    } else {
      assert fs.large == Truetype(PricedownNames[p.value], 70);
    }
  }
}
