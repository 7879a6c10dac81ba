/** The "Generate JSON" lettering extension,
    lib/extensions/lettering_generate_json.py: from a font file and the
    options the font creator entered, it works out the values of font.json
    and writes the file next to the font.

    Parsing the SVG font (FontFileInfo) is outside the model: its results come
    in as a FontFileInfo value. Writing the JSON file is the Written result. */
module LetteringJson {
  import opened Collections
  import opened PyText

  /** The parsed command-line options of the extension. */
  datatype Options = Options(
    fontName: string,            // --font-name, default "Font"
    fontDescription: string,     // --font-description, default "Description"
    autoSatin: bool,             // --auto-satin, default true
    reversible: bool,            // --reversible, default true
    letterCase: string,          // --letter-case, default ""
    defaultGlyph: string,        // --default-glyph, default ""
    size: real,                  // --size, default 15
    useCustomLeading: bool,      // --use-custom-leading, default false
    useCustomSpacing: bool,      // --use-custom-spacing, default false
    leading: int,                // --leading, default 0
    wordSpacing: int,            // --word-spacing, default 26
    path: string,                // --font-file, default ""
    categories: map<string, bool> // one --<category id> flag per font category, default false
  )

  /** What FontFileInfo reads from the SVG font; None where the font does not say. */
  datatype FontFileInfo = FontFileInfo(
    horizAdvX: map<string, int>,
    hkern: map<string, int>,
    wordSpacing: Option<int>,
    letterSpacing: Option<int>,
    unitsPerEm: Option<int>,
    glyphs: seq<string>)

  /** The content of font.json (min_scale and max_scale aside). */
  datatype FontRecord = FontRecord(
    name: string,
    description: string,
    keywords: seq<string>,
    leading: int,
    autoSatin: bool,
    reversible: bool,
    letterCase: string,
    defaultGlyph: string,
    size: real,
    horizAdvXDefault: Option<int>,
    horizAdvXSpace: int,
    unitsPerEm: int,
    horizAdvX: map<string, int>,
    kerningPairs: map<string, int>,
    glyphs: seq<string>)

  datatype EffectResult =
    | MissingFontFile(stderr: string)
    | Written(outputPath: string, data: FontRecord)

  const NO_FONT_FILE_MESSAGE: string := "Please specify a font file."

  /** Python truthiness of a number read from the font: None and 0 are false. */
  predicate Truthy(v: Option<int>) {
    v.Some? && v.value != 0
  }

  // ---------------------------------------------------------------------
  // The value selections

  /** The font's word spacing, unless the user forces the custom value or the
      font does not define one (lines 59-63). */
  function WordSpacing(font: FontFileInfo, options: Options): (r: int)
    ensures options.useCustomSpacing || !Truthy(font.wordSpacing) ==> r == options.wordSpacing
    ensures !options.useCustomSpacing && Truthy(font.wordSpacing) ==> r == font.wordSpacing.value && r != 0
  {
    if options.useCustomSpacing || !Truthy(font.wordSpacing) then options.wordSpacing
    else font.wordSpacing.value
  }

  /** `font_info.units_per_em() or self.options.leading` (line 65). */
  function UnitsPerEm(font: FontFileInfo, options: Options): (r: int)
    ensures Truthy(font.unitsPerEm) ==> r == font.unitsPerEm.value
    ensures !Truthy(font.unitsPerEm) ==> r == options.leading
  {
    if Truthy(font.unitsPerEm) then font.unitsPerEm.value else options.leading
  }

  /** The line height: units_per_em when it is non-zero and the user does not
      ask for a custom leading, else the user's leading (lines 66-71). */
  function Leading(unitsPerEm: int, options: Options): (r: int)
    ensures r == unitsPerEm || r == options.leading
    ensures unitsPerEm != 0 && !options.useCustomLeading ==> r == unitsPerEm
    ensures unitsPerEm == 0 || options.useCustomLeading ==> r == options.leading
  {
    if unitsPerEm != 0 && !options.useCustomLeading then unitsPerEm else options.leading
  }

  /** The leading written to font.json is the font's units-per-em when the font
      defines a non-zero one and the user did not ask for a custom leading,
      and the user's leading in every other case. */
  lemma LeadingFromFont(font: FontFileInfo, options: Options)
    ensures Leading(UnitsPerEm(font, options), options) ==
      if Truthy(font.unitsPerEm) && !options.useCustomLeading then font.unitsPerEm.value else options.leading
  {
  }

  // ---------------------------------------------------------------------
  // Keywords

  /** `getattr(self.options, category_id)`; a category without a flag has the flag's default, false. */
  function Selected(flags: map<string, bool>): string -> bool {
    id => id in flags && flags[id]
  }

  /** Lines 75-78: the ids of the categories whose flag is set, in category order. */
  method CollectKeywords(fontCategories: seq<string>, flags: map<string, bool>) returns (keywords: seq<string>)
    ensures keywords == Filter(fontCategories, Selected(flags))
    ensures forall id :: id in keywords <==> id in fontCategories && id in flags && flags[id]
    ensures IsSubsequence(keywords, fontCategories)
    ensures Distinct(fontCategories) ==> Distinct(keywords)
  {
    keywords := [];
    for i := 0 to |fontCategories|
      invariant keywords == Filter(fontCategories[..i], Selected(flags))
    {
      var category := fontCategories[i];
      if category in flags && flags[category] {
        keywords := keywords + [category];
      }
      assert fontCategories[..i + 1] == fontCategories[..i] + [category];
      FilterSnoc(fontCategories[..i], category, Selected(flags));
    }
    assert fontCategories[..|fontCategories|] == fontCategories;
    forall id ensures id in keywords <==> id in fontCategories && id in flags && flags[id] {
      FilterMembership(fontCategories, Selected(flags), id);
    }
    FilterIsSubsequence(fontCategories, Selected(flags));
    if Distinct(fontCategories) {
      FilterDistinct(fontCategories, Selected(flags));
    }
  }

  // ---------------------------------------------------------------------
  // Output path (os.path.dirname and os.path.join, POSIX flavour)

  /** Index just after the last '/', or 0 when there is none. */
  function AfterLastSlash(p: string): (i: nat)
    ensures i <= |p|
    ensures i > 0 ==> p[i - 1] == '/'
    ensures '/' !in p[i..]
  {
    if p == [] then 0
    else if p[|p| - 1] == '/' then |p|
    else AfterLastSlash(p[..|p| - 1])
  }

  /** `s.rstrip('/')` */
  function StripTrailingSlashes(s: string): (r: string)
    ensures |r| <= |s| && r == s[..|r|]
    ensures r != [] ==> r[|r| - 1] != '/'
  {
    if s != [] && s[|s| - 1] == '/' then StripTrailingSlashes(s[..|s| - 1]) else s
  }

  predicate AllSlashes(s: string) {
    forall i :: 0 <= i < |s| ==> s[i] == '/'
  }

  /** `os.path.dirname(p)` */
  function DirName(p: string): string {
    var head := p[..AfterLastSlash(p)];
    if head != [] && !AllSlashes(head) then StripTrailingSlashes(head) else head
  }

  /** `os.path.join(a, b)` for a `b` that does not start with '/'. */
  function JoinPath(a: string, b: string): string {
    if a == [] || a[|a| - 1] == '/' then a + b else a + "/" + b
  }

  /** `os.path.join(os.path.dirname(path), 'font.json')` (line 50). */
  function OutputPath(path: string): string {
    JoinPath(DirName(path), "font.json")
  }

  /** Whatever the font path, the output is a file named font.json. */
  lemma OutputPathIsFontJson(path: string)
    ensures var r := OutputPath(path);
      EndsWith(r, "font.json") && (|r| == 9 || r[|r| - 10] == '/')
  {
  }

  lemma {:induction false} AfterLastSlashSkipsFileName(dir: string, file: string)
    requires '/' !in file
    ensures AfterLastSlash(dir + file) == AfterLastSlash(dir)
    decreases |file|
  {
    if file != [] {
      var shorter := file[..|file| - 1];
      assert (dir + file)[..|dir + file| - 1] == dir + shorter;
      assert (dir + file)[|dir + file| - 1] == file[|file| - 1];
      assert file[|file| - 1] in file;
      assert forall c :: c in shorter ==> c in file;
      AfterLastSlashSkipsFileName(dir, shorter);
    } else {
      assert dir + file == dir;
    }
  }

  /** font.json is written into the directory of the font file. */
  lemma OutputPathInFontDirectory(dir: string, file: string)
    requires '/' !in file
    requires dir != [] && dir[|dir| - 1] != '/'
    ensures OutputPath(dir + "/" + file) == dir + "/font.json"
  {
    var p := dir + "/" + file;
    AfterLastSlashSkipsFileName(dir + "/", file);
    assert AfterLastSlash(dir + "/") == |dir| + 1;
    var head := p[..|dir| + 1];
    assert head == dir + "/";
    assert !AllSlashes(head) by {
      assert head[|dir| - 1] == dir[|dir| - 1];
    }
    assert head[..|head| - 1] == dir;
    assert StripTrailingSlashes(head) == dir;
  }

  /** A font file given without a directory puts font.json in the current directory. */
  lemma OutputPathWithoutDirectory(file: string)
    requires '/' !in file
    ensures OutputPath(file) == "font.json"
  {
  }

  // ---------------------------------------------------------------------
  // effect()

  /** Lines 81-98: the dictionary written to font.json. The user's texts and
      switches and the font's measurements go in unchanged, next to the
      selected keywords, spacing, units per em and leading. */
  function FontData(options: Options, font: FontFileInfo, keywords: seq<string>,
                    wordSpacing: int, unitsPerEm: int, leading: int): (r: FontRecord)
    // copied from the options
    ensures r.name == options.fontName && r.description == options.fontDescription
    ensures r.autoSatin == options.autoSatin && r.reversible == options.reversible
    ensures r.letterCase == options.letterCase && r.defaultGlyph == options.defaultGlyph
    ensures r.size == options.size
    // copied from the font
    ensures r.horizAdvXDefault == font.letterSpacing && r.horizAdvX == font.horizAdvX
    ensures r.kerningPairs == font.hkern && r.glyphs == font.glyphs
    // the selected values
    ensures r.keywords == keywords && r.horizAdvXSpace == wordSpacing
    ensures r.unitsPerEm == unitsPerEm && r.leading == leading
  {
    FontRecord(
      options.fontName, options.fontDescription, keywords, leading,
      options.autoSatin, options.reversible, options.letterCase, options.defaultGlyph,
      options.size, font.letterSpacing, wordSpacing, unitsPerEm,
      font.horizAdvX, font.hkern, font.glyphs)
  }

  /** Lines 44-102: `fontCategories` lists the ids of FONT_CATEGORIES,
      `isFile` is `os.path.isfile`, `font` what FontFileInfo reads from the font. */
  method Effect(options: Options, fontCategories: seq<string>, isFile: string -> bool, font: FontFileInfo)
    returns (result: EffectResult)
    ensures result.MissingFontFile? <==> !isFile(options.path)
    ensures result.MissingFontFile? ==> result.stderr == NO_FONT_FILE_MESSAGE
    ensures result.Written? ==> result.outputPath == OutputPath(options.path)
    ensures result.Written? ==> result.data == FontData(options, font, result.data.keywords,
      WordSpacing(font, options), UnitsPerEm(font, options), Leading(UnitsPerEm(font, options), options))
    ensures result.Written? ==> result.data.keywords == Filter(fontCategories, Selected(options.categories))
    ensures result.Written? ==> forall id :: id in result.data.keywords <==>
      id in fontCategories && id in options.categories && options.categories[id]
    ensures result.Written? ==> IsSubsequence(result.data.keywords, fontCategories)
    ensures result.Written? && Distinct(fontCategories) ==> Distinct(result.data.keywords)
  {
    var path := options.path;
    if !isFile(path) {
      return MissingFontFile(NO_FONT_FILE_MESSAGE);
    }
    var outputPath := OutputPath(path);

    var customLeading := options.useCustomLeading;
    var customSpacing := options.useCustomSpacing;
    var wordSpacing := font.wordSpacing;
    var spacing: int;
    if customSpacing || !Truthy(wordSpacing) {
      spacing := options.wordSpacing;
    } else {
      spacing := wordSpacing.value;
    }
    var unitsPerEm := if Truthy(font.unitsPerEm) then font.unitsPerEm.value else options.leading;
    var leading: int;
    if unitsPerEm != 0 && !customLeading {
      leading := unitsPerEm;
    } else {
      leading := options.leading;
    }

    var keywords := CollectKeywords(fontCategories, options.categories);

    result := Written(outputPath, FontData(options, font, keywords, spacing, unitsPerEm, leading));
  }
}
