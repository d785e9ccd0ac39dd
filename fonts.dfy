/**
 * The fonts that story series rotate through: a constant table in
 * rotation order, lookup by an index that wraps around, the file names to
 * download and the fonts of one category.
 */
module Fonts {
  import opened Builtins

  /** One font: display name, file name, download address, category and weight. */
  datatype FontConfig = FontConfig(name: string, filename: string, url: string, category: string, weight: string)

  /** A font declared without a weight takes the default weight, "Bold". */
  function WithDefaultWeight(name: string, filename: string, url: string, category: string): FontConfig {
    FontConfig(name, filename, url, category, "Bold")
  }

  // Sans-serif fonts; Bebas Neue, a display face, is listed with them.

  const Montserrat := WithDefaultWeight("Montserrat", "Montserrat-Bold.ttf",
    "https://github.com/JulietaUla/Montserrat/raw/master/fonts/ttf/Montserrat-Bold.ttf",
    "sans-serif")
  const Poppins := WithDefaultWeight("Poppins", "Poppins-Bold.ttf",
    "https://github.com/google/fonts/raw/main/ofl/poppins/Poppins-Bold.ttf",
    "sans-serif")
  const Roboto := WithDefaultWeight("Roboto", "Roboto-Bold.ttf",
    "https://github.com/googlefonts/roboto/raw/main/src/hinted/Roboto-Bold.ttf",
    "sans-serif")
  const Lato := WithDefaultWeight("Lato", "Lato-Bold.ttf",
    "https://github.com/google/fonts/raw/main/ofl/lato/Lato-Bold.ttf",
    "sans-serif")
  const OpenSans := WithDefaultWeight("Open Sans", "OpenSans-Bold.ttf",
    "https://github.com/googlefonts/opensans/raw/main/fonts/ttf/OpenSans-Bold.ttf",
    "sans-serif")
  const FiraSans := WithDefaultWeight("Fira Sans", "FiraSans-Bold.ttf",
    "https://raw.githubusercontent.com/mozilla/Fira/master/ttf/FiraSans-Bold.ttf",
    "sans-serif")
  const SourceSans := WithDefaultWeight("Source Sans", "SourceSans3-Bold.ttf",
    "https://raw.githubusercontent.com/adobe-fonts/source-sans/release/TTF/SourceSans3-Bold.ttf",
    "sans-serif")
  const Oswald := WithDefaultWeight("Oswald", "Oswald-Bold.ttf",
    "https://github.com/googlefonts/OswaldFont/raw/main/fonts/ttf/Oswald-Bold.ttf",
    "sans-serif")
  const BebasNeue := FontConfig("Bebas Neue", "BebasNeue-Regular.ttf",
    "https://github.com/google/fonts/raw/main/ofl/bebasneue/BebasNeue-Regular.ttf",
    "display", "Regular")

  const SansSerifSection: seq<FontConfig> := [Montserrat, Poppins, Roboto, Lato, OpenSans, FiraSans, SourceSans, Oswald, BebasNeue]

  // Serif fonts.

  const Spectral := WithDefaultWeight("Spectral", "Spectral-Bold.ttf",
    "https://raw.githubusercontent.com/google/fonts/main/ofl/spectral/Spectral-Bold.ttf",
    "serif")
  const Merriweather := WithDefaultWeight("Merriweather", "Merriweather-Bold.ttf",
    "https://github.com/SorkinType/Merriweather/raw/master/fonts/ttf/Merriweather-Bold.ttf",
    "serif")
  const CrimsonText := WithDefaultWeight("Crimson Text", "CrimsonText-Bold.ttf",
    "https://raw.githubusercontent.com/google/fonts/main/ofl/crimsontext/CrimsonText-Bold.ttf",
    "serif")
  const Alice := FontConfig("Alice", "Alice-Regular.ttf",
    "https://raw.githubusercontent.com/google/fonts/main/ofl/alice/Alice-Regular.ttf",
    "serif", "Regular")

  const SerifSection: seq<FontConfig> := [Spectral, Merriweather, CrimsonText, Alice]

  // Script and handwriting fonts.

  const ShadowsIntoLight := FontConfig("Shadows Into Light", "ShadowsIntoLight.ttf",
    "https://raw.githubusercontent.com/google/fonts/main/ofl/shadowsintolight/ShadowsIntoLight.ttf",
    "script", "Regular")
  const Pacifico := FontConfig("Pacifico", "Pacifico-Regular.ttf",
    "https://github.com/googlefonts/Pacifico/raw/main/fonts/ttf/Pacifico-Regular.ttf",
    "script", "Regular")
  const Caveat := WithDefaultWeight("Caveat", "Caveat-Bold.ttf",
    "https://github.com/googlefonts/caveat/raw/main/fonts/ttf/Caveat-Bold.ttf",
    "script")
  const GreatVibes := FontConfig("Great Vibes", "GreatVibes-Regular.ttf",
    "https://github.com/google/fonts/raw/main/ofl/greatvibes/GreatVibes-Regular.ttf",
    "script", "Regular")
  const ArchitectsDaughter := FontConfig("Architects Daughter", "ArchitectsDaughter-Regular.ttf",
    "https://raw.githubusercontent.com/google/fonts/main/ofl/architectsdaughter/ArchitectsDaughter-Regular.ttf",
    "script", "Regular")

  const ScriptSection: seq<FontConfig> := [ShadowsIntoLight, Pacifico, Caveat, GreatVibes, ArchitectsDaughter]

  // Display fonts.

  const Lobster := FontConfig("Lobster", "Lobster-Regular.ttf",
    "https://github.com/google/fonts/raw/main/ofl/lobster/Lobster-Regular.ttf",
    "display", "Regular")
  const Righteous := FontConfig("Righteous", "Righteous-Regular.ttf",
    "https://raw.githubusercontent.com/google/fonts/main/ofl/righteous/Righteous-Regular.ttf",
    "display", "Regular")

  const DisplaySection: seq<FontConfig> := [Lobster, Righteous]

  /** `FONT_ROTATION`: the four sections in declaration order. */
  const FontRotation: seq<FontConfig> := SansSerifSection + SerifSection + ScriptSection + DisplaySection

  /** `get_total_fonts`: the rotation holds 20 fonts. */
  function GetTotalFonts(): (n: nat)
    ensures n == |FontRotation| && n == 20
  {
    |FontRotation|
  }

  /** A file name whose stem ends in `-Bold`, as in `Name-Bold.ttf`. */
  predicate BoldCut(filename: string) {
    var n := |filename|;
    n >= 9 && filename[n - 9] == '-' && filename[n - 8] == 'B' && filename[n - 7] == 'o'
    && filename[n - 6] == 'l' && filename[n - 5] == 'd'
  }

  /** A font's weight agrees with its file: "Bold" for a `-Bold` cut, "Regular" otherwise. */
  predicate WeightMatchesFile(f: FontConfig) {
    f.weight == (if BoldCut(f.filename) then "Bold" else "Regular")
  }

  /** Every font of `fs` has a weight that agrees with its file. */
  predicate WeightsMatchFiles(fs: seq<FontConfig>) {
    forall i :: 0 <= i < |fs| ==> WeightMatchesFile(fs[i])
  }

  lemma WeightsMatchConcat(a: seq<FontConfig>, b: seq<FontConfig>)
    requires WeightsMatchFiles(a) && WeightsMatchFiles(b)
    ensures WeightsMatchFiles(a + b)
  {
    forall i | 0 <= i < |a + b|
      ensures WeightMatchesFile((a + b)[i])
    {
      if i >= |a| {
        assert (a + b)[i] == b[i - |a|];
      }
    }
  }

  lemma MontserratPoppinsWeights()
    ensures WeightMatchesFile(Montserrat) && WeightMatchesFile(Poppins)
  {
  }

  lemma RobotoLatoWeights()
    ensures WeightMatchesFile(Roboto) && WeightMatchesFile(Lato)
  {
  }

  lemma OpenSansFiraSansWeights()
    ensures WeightMatchesFile(OpenSans) && WeightMatchesFile(FiraSans)
  {
  }

  lemma SourceSansOswaldWeights()
    ensures WeightMatchesFile(SourceSans) && WeightMatchesFile(Oswald)
  {
  }

  lemma SansSerifWeights()
    ensures WeightsMatchFiles(SansSerifSection)
  {
    MontserratPoppinsWeights();
    RobotoLatoWeights();
    OpenSansFiraSansWeights();
    SourceSansOswaldWeights();
    assert WeightMatchesFile(BebasNeue);
  }

  lemma SerifWeights()
    ensures WeightsMatchFiles(SerifSection)
  {
    assert WeightMatchesFile(Spectral) && WeightMatchesFile(Merriweather);
    assert WeightMatchesFile(CrimsonText) && WeightMatchesFile(Alice);
  }

  lemma ScriptWeightsHead()
    ensures WeightMatchesFile(ShadowsIntoLight) && WeightMatchesFile(Pacifico) && WeightMatchesFile(Caveat)
  {
  }

  lemma ScriptWeights()
    ensures WeightsMatchFiles(ScriptSection)
  {
    ScriptWeightsHead();
    assert WeightMatchesFile(GreatVibes) && WeightMatchesFile(ArchitectsDaughter);
  }

  lemma DisplayWeights()
    ensures WeightsMatchFiles(DisplaySection)
  {
    assert WeightMatchesFile(Lobster) && WeightMatchesFile(Righteous);
  }

  /**
   * Weights: every font is "Bold" or "Regular", and it is "Bold" exactly
   * when its file is the bold cut. The fonts declared without a weight
   * take the default "Bold"; the ones without a bold cut say "Regular".
   */
  lemma FontWeights()
    ensures forall i :: 0 <= i < |FontRotation| ==> WeightMatchesFile(FontRotation[i])
    ensures forall i :: 0 <= i < |FontRotation| ==> FontRotation[i].weight == "Bold" || FontRotation[i].weight == "Regular"
  {
    SansSerifWeights();
    SerifWeights();
    ScriptWeights();
    DisplayWeights();
    WeightsMatchConcat(SansSerifSection, SerifSection);
    WeightsMatchConcat(SansSerifSection + SerifSection, ScriptSection);
    WeightsMatchConcat(SansSerifSection + SerifSection + ScriptSection, DisplaySection);
    assert WeightsMatchFiles(FontRotation);
  }

  // ---------------------------------------------------------------------
  // Wrap-around lookup
  // ---------------------------------------------------------------------

  /**
   * `get_font_by_index`: the font at `index % 20`, with Python's modulo,
   * which for the positive length 20 always lands in `[0, 20)`; every
   * integer is a valid index.
   */
  function GetFontByIndex(index: int): (f: FontConfig)
    ensures f in FontRotation
  {
    FontRotation[index % |FontRotation|]
  }

  /** The lookup repeats every 20 indices. */
  lemma FontByIndexPeriodic(index: int)
    ensures GetFontByIndex(index + 20) == GetFontByIndex(index)
  {
    assert (index + 20) % 20 == index % 20;
  }

  /** On the first cycle the lookup is plain indexing. */
  lemma FontByIndexFirstCycle(index: int)
    requires 0 <= index < 20
    ensures GetFontByIndex(index) == FontRotation[index]
  {
    assert index % 20 == index;
  }

  /** A negative index counts from the end: -1 is the last font. */
  lemma FontByIndexNegative()
    ensures GetFontByIndex(-1) == Righteous
  {
    assert -1 % 20 == 19;
  }

  // ---------------------------------------------------------------------
  // Derived lists
  // ---------------------------------------------------------------------

  /** The file names of `fs`, position by position. */
  function Filenames(fs: seq<FontConfig>): (r: seq<string>)
    ensures |r| == |fs| && forall i :: 0 <= i < |fs| ==> r[i] == fs[i].filename
  {
    if fs == [] then [] else [fs[0].filename] + Filenames(fs[1..])
  }

  /** `get_font_filenames`: one file name per font, in rotation order. */
  function GetFontFilenames(): (r: seq<string>)
    ensures |r| == |FontRotation| && forall i :: 0 <= i < |r| ==> r[i] == FontRotation[i].filename
  {
    Filenames(FontRotation)
  }

  /**
   * `get_fonts_by_category`: the fonts of that category in rotation
   * order; every one of them, and no other.
   */
  function GetFontsByCategory(category: string): (r: seq<FontConfig>)
    ensures IsSubseq(r, FontRotation)
    ensures forall f :: f in r <==> f in FontRotation && f.category == category
  {
    Filter((f: FontConfig) => f.category == category, FontRotation)
  }

  /** The categories that occur in the rotation. */
  predicate KnownCategory(c: string) {
    c == "sans-serif" || c == "serif" || c == "script" || c == "display"
  }

  /** Every font has one of the four categories. */
  lemma CategoriesKnown()
    ensures forall i :: 0 <= i < |FontRotation| ==> KnownCategory(FontRotation[i].category)
  {
  }

  /** A category no font has gives the empty list. */
  lemma UnknownCategoryEmpty(category: string)
    requires !KnownCategory(category)
    ensures GetFontsByCategory(category) == []
  {
    CategoriesKnown();
    FilterNone((f: FontConfig) => f.category == category, FontRotation);
  }
}
