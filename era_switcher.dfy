/**
 * The era switcher: nine colour-and-font themes, one per era. Choosing a theme
 * loads its web font (once), writes four CSS variables on the document root,
 * saves the era as the profile's favourite, tells the parent and closes the
 * picker. On load, the profile's favourite era selects the theme.
 */
module EraSwitcher {
  import opened Wrappers
  import opened Text
  import opened Api
  import opened UserProfile

  datatype Colors = Colors(primary: string, secondary: string, accent: string, gradient: string)

  datatype EraTheme = EraTheme(id: string, name: string, colors: Colors, font: string, description: string)

  const Fearless: EraTheme :=
    EraTheme("fearless", "Fearless", Colors("#FFD700", "#FFA500", "#FFFF00", "from-yellow-400 to-amber-500"),
      "Dancing Script", "Golden curls and country dreams")
  const Red: EraTheme :=
    EraTheme("red", "Red", Colors("#DC143C", "#8B0000", "#FF6347", "from-red-500 to-red-700"),
      "Playfair Display", "Passionate autumn romance")
  const Nineteen89: EraTheme :=
    EraTheme("1989", "1989", Colors("#87CEEB", "#4169E1", "#ADD8E6", "from-sky-400 to-blue-600"),
      "Montserrat", "Polaroid pop perfection")
  const Reputation: EraTheme :=
    EraTheme("reputation", "Reputation", Colors("#2F2F2F", "#000000", "#696969", "from-gray-800 to-black"),
      "Bebas Neue", "Dark and unapologetic")
  const Lover: EraTheme :=
    EraTheme("lover", "Lover", Colors("#FFB6C1", "#DA70D6", "#FFE4E1", "from-pink-300 to-purple-400"),
      "Pacifico", "Pastel rainbow dreams")
  const Folklore: EraTheme :=
    EraTheme("folklore", "Folklore", Colors("#708090", "#2F4F4F", "#D3D3D3", "from-gray-400 to-gray-600"),
      "Crimson Text", "Cozy indie storytelling")
  const Evermore: EraTheme :=
    EraTheme("evermore", "Evermore", Colors("#A0522D", "#8B4513", "#CD853F", "from-amber-600 to-orange-800"),
      "Merriweather", "Sister album autumn")
  const Midnights: EraTheme :=
    EraTheme("midnights", "Midnights", Colors("#191970", "#4B0082", "#663399", "from-indigo-900 to-purple-900"),
      "Space Grotesk", "Lavender haze nights")
  const TorturedPoets: EraTheme :=
    EraTheme("tortured-poets", "TTPD", Colors("#696969", "#2F2F2F", "#A9A9A9", "from-stone-600 to-slate-800"),
      "EB Garamond", "Gothic poetry depths")

  const EraThemes: seq<EraTheme> :=
    [Fearless, Red, Nineteen89, Reputation, Lover, Folklore, Evermore, Midnights, TorturedPoets]

  /** The theme shown before any choice and used when no theme matches: the eighth, Midnights. */
  const DefaultThemeIndex: nat := 7

  lemma DefaultIsMidnights()
    ensures DefaultThemeIndex < |EraThemes| && EraThemes[DefaultThemeIndex].id == "midnights"
    ensures EraThemes[DefaultThemeIndex].font == "Space Grotesk"
  {
  }

  /** `themes.find(t => t.id === id)`. */
  function FindById(themes: seq<EraTheme>, id: string): (r: Option<EraTheme>)
    ensures r.None? <==> forall t :: t in themes ==> t.id != id
    ensures r.Some? ==> r.value in themes && r.value.id == id
    ensures r.Some? ==> exists i :: 0 <= i < |themes| && themes[i] == r.value &&
                                    forall j :: 0 <= j < i ==> themes[j].id != id
  {
    if themes == [] then None
    else if themes[0].id == id then Some(themes[0])
    else
      var r := FindById(themes[1..], id);
      assert r.Some? ==> exists i :: 0 <= i < |themes| - 1 && themes[1..][i] == r.value &&
                                     forall j :: 0 <= j < i ==> themes[1..][j].id != id;
      r
  }

  /** `eraThemes.find(t => t.id === id) || eraThemes[7]`. */
  function ThemeFor(id: string): EraTheme {
    match FindById(EraThemes, id)
    case Some(t) => t
    case None => EraThemes[DefaultThemeIndex]
  }

  /** The theme for an id is the one with that id when there is one, and Midnights otherwise. */
  lemma ThemeForSpec(id: string)
    ensures ThemeFor(id) in EraThemes
    ensures (exists t :: t in EraThemes && t.id == id) ==> ThemeFor(id).id == id
    ensures (forall t :: t in EraThemes ==> t.id != id) ==> ThemeFor(id) == EraThemes[DefaultThemeIndex]
  {
  }

  /** An era with no theme, such as the quiz's "Reputation", falls back to Midnights. */
  lemma UnknownEraFallsBack()
    ensures ThemeFor("Reputation") == EraThemes[DefaultThemeIndex]
  {
    // Only "reputation" has the length of "Reputation", and it differs in the first letter.
    assert Reputation.id[0] != "Reputation"[0];
    forall t | t in EraThemes
      ensures t.id != "Reputation"
    {
      assert |t.id| != 10 || t == Reputation;
    }
    ThemeForSpec("Reputation");
  }

  /** `fontName.replace(' ', '+')`: only the first space is encoded. */
  function FontFamily(fontName: string): (r: string)
    ensures |r| == |fontName|
    ensures forall i :: 0 <= i < |r| && i != IndexOf(fontName, ' ') ==> r[i] == fontName[i]
    ensures IndexOf(fontName, ' ') < |r| ==> r[IndexOf(fontName, ' ')] == '+'
  {
    ReplaceFirst(fontName, ' ', '+')
  }

  const FontUrlPrefix: string := "https://fonts.googleapis.com/css2?family="
  const FontUrlSuffix: string := ":wght@300;400;600;700&display=swap"

  /** The stylesheet link for a font. */
  function FontUrl(fontName: string): (r: string)
    ensures |r| == |FontUrlPrefix| + |fontName| + |FontUrlSuffix|
    ensures r[..|FontUrlPrefix|] == FontUrlPrefix
    ensures r[|FontUrlPrefix|..|FontUrlPrefix| + |fontName|] == FontFamily(fontName)
    ensures r[|FontUrlPrefix| + |fontName|..] == FontUrlSuffix
  {
    FontUrlPrefix + FontFamily(fontName) + FontUrlSuffix
  }

  /** A font's link carries the encoded family it is looked up by. */
  lemma FontUrlIncludesFamily(fontName: string)
    ensures Includes(FontUrl(fontName), FontFamily(fontName))
  {
    assert OccursAt(FontUrl(fontName), FontFamily(fontName), |FontUrlPrefix|);
  }

  /**
   * `document.querySelector('link[href*="family"]')` finds a link: some href
   * contains the family. An empty value matches nothing in a CSS substring
   * attribute selector.
   */
  predicate FontLinked(hrefs: seq<string>, family: string) {
    family != "" && exists h :: h in hrefs && Includes(h, family)
  }

  /** The link hrefs after `loadFont(fontName)`. */
  function AfterLoadFont(hrefs: seq<string>, fontName: string): (r: seq<string>)
    ensures FontLinked(hrefs, FontFamily(fontName)) ==> r == hrefs
    ensures !FontLinked(hrefs, FontFamily(fontName)) ==> r == hrefs + [FontUrl(fontName)]
  {
    if FontLinked(hrefs, FontFamily(fontName)) then hrefs else hrefs + [FontUrl(fontName)]
  }

  /** Loading a (named) font twice appends at most one link. */
  lemma LoadFontIdempotent(hrefs: seq<string>, fontName: string)
    requires fontName != ""
    ensures AfterLoadFont(AfterLoadFont(hrefs, fontName), fontName) == AfterLoadFont(hrefs, fontName)
    ensures |AfterLoadFont(hrefs, fontName)| <= |hrefs| + 1
  {
    var once := AfterLoadFont(hrefs, fontName);
    if !FontLinked(hrefs, FontFamily(fontName)) {
      FontUrlIncludesFamily(fontName);
      assert FontUrl(fontName) in once;
    }
  }

  /** The four CSS variables a theme writes on the document root; other properties stay. */
  function ThemeStyle(style: map<string, string>, theme: EraTheme): (r: map<string, string>)
    ensures r.Keys == style.Keys + {"--era-primary", "--era-secondary", "--era-accent", "--era-font"}
    ensures r["--era-primary"] == theme.colors.primary && r["--era-secondary"] == theme.colors.secondary
    ensures r["--era-accent"] == theme.colors.accent && r["--era-font"] == theme.font
    ensures forall k :: k in style && k !in {"--era-primary", "--era-secondary", "--era-accent", "--era-font"} ==>
              r[k] == style[k]
  {
    style["--era-primary" := theme.colors.primary]["--era-secondary" := theme.colors.secondary]
         ["--era-accent" := theme.colors.accent]["--era-font" := theme.font]
  }

  /** The parts of the page document the switcher touches. */
  class Document {
    /** The hrefs of the stylesheet links, in document order. */
    var links: seq<string>
    /** The inline style properties of the root element. */
    var style: map<string, string>

    constructor (links: seq<string>, style: map<string, string>)
      ensures this.links == links && this.style == style
    {
      this.links := links;
      this.style := style;
    }

    /** `loadFont(fontName)`: append the font's link unless one is already there. */
    method LoadFont(fontName: string)
      modifies this
      ensures links == AfterLoadFont(old(links), fontName)
      ensures style == old(style)
    {
      var family := FontFamily(fontName);
      if !FontLinked(links, family) {
        links := links + [FontUrl(fontName)];
      }
    }

    method ApplyTheme(theme: EraTheme)
      modifies this
      ensures style == ThemeStyle(old(style), theme)
      ensures links == old(links)
    {
      style := style["--era-primary" := theme.colors.primary];
      style := style["--era-secondary" := theme.colors.secondary];
      style := style["--era-accent" := theme.colors.accent];
      style := style["--era-font" := theme.font];
    }
  }

  /** The switcher's state, its profile hook, the document and the optional parent listener. */
  class Switcher {
    var isOpen: bool
    var currentTheme: EraTheme
    var musicEnabled: bool
    /** The themes handed to `onThemeChange`, in order. */
    var notified: seq<EraTheme>
    /** Whether the parent passed `onThemeChange`. */
    const hasListener: bool
    const store: ProfileStore
    const doc: Document

    constructor (store: ProfileStore, doc: Document, hasListener: bool)
      ensures this.store == store && this.doc == doc && this.hasListener == hasListener
      ensures !isOpen && currentTheme == EraThemes[DefaultThemeIndex] && !musicEnabled && notified == []
    {
      this.store := store;
      this.doc := doc;
      this.hasListener := hasListener;
      isOpen := false;
      currentTheme := EraThemes[DefaultThemeIndex];
      musicEnabled := false;
      notified := [];
    }

    /** The profile effect: a favourite era selects its theme (or Midnights) and loads its font. */
    method ProfileChanged()
      modifies this, doc
      ensures store.profile.Some? && store.profile.value.favoriteEra != "" ==>
                currentTheme == ThemeFor(store.profile.value.favoriteEra) &&
                doc.links == AfterLoadFont(old(doc.links), currentTheme.font)
      ensures !(store.profile.Some? && store.profile.value.favoriteEra != "") ==>
                currentTheme == old(currentTheme) && doc.links == old(doc.links)
      ensures doc.style == old(doc.style)
      ensures isOpen == old(isOpen) && musicEnabled == old(musicEnabled) && notified == old(notified)
    {
      if store.profile.Some? && store.profile.value.favoriteEra != "" {
        var theme := ThemeFor(store.profile.value.favoriteEra);
        currentTheme := theme;
        doc.LoadFont(theme.font);
      }
    }

    /**
     * `handleThemeSwitch(theme)` with `reply` the answer to the profile update:
     * whatever the update does, the parent hears of the theme and the picker closes.
     */
    method HandleThemeSwitch(theme: EraTheme, reply: Response<Profile>)
      modifies this, doc, store, store.net
      ensures currentTheme == theme && !isOpen && musicEnabled == old(musicEnabled)
      ensures doc.links == AfterLoadFont(old(doc.links), theme.font)
      ensures doc.style == ThemeStyle(old(doc.style), theme)
      ensures store.signedIn == old(store.signedIn)
      ensures store.Current() == Update(old(store.Current()), store.signedIn, old(store.profile),
                                        Updates(Some(theme.id), None, None), reply).0
      ensures notified == old(notified) + (if hasListener then [theme] else [])
    {
      var seen := store.profile;
      currentTheme := theme;
      doc.LoadFont(theme.font);
      doc.ApplyTheme(theme);
      var _ := store.UpdateProfile(seen, Updates(Some(theme.id), None, None), reply);
      if hasListener {
        notified := notified + [theme];
      }
      isOpen := false;
    }

    method ToggleMusic()
      modifies this
      ensures musicEnabled == !old(musicEnabled)
      ensures isOpen == old(isOpen) && currentTheme == old(currentTheme) && notified == old(notified)
    {
      musicEnabled := !musicEnabled;
    }

    /** The era button: opens or closes the picker. */
    method ToggleOpen()
      modifies this
      ensures isOpen == !old(isOpen)
      ensures musicEnabled == old(musicEnabled) && currentTheme == old(currentTheme) && notified == old(notified)
    {
      isOpen := !isOpen;
    }
  }
}
