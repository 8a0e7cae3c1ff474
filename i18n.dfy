/**
 * Locale resolution and translation: the two fixed locales, the string
 * tables, key lookup with fallback, `{param}` interpolation, and the
 * stored / browser / default precedence of the current locale.
 */
module I18n {
  import opened Wrappers
  import opened Strings

  /** The two locales of the site. */
  datatype Locale = PtBR | EnUS

  const DefaultLocale: Locale := PtBR

  /** The locale's tag as the site writes it. */
  function Tag(l: Locale): string {
    match l
    case PtBR => "pt-BR"
    case EnUS => "en-US"
  }

  /** Reads a tag back: only the two exact tags name a locale. */
  function ParseLocale(s: string): (r: Option<Locale>)
    ensures r.Some? <==> s == "pt-BR" || s == "en-US"
    ensures r.Some? ==> Tag(r.value) == s
  {
    if s == "pt-BR" then Some(PtBR) else if s == "en-US" then Some(EnUS) else None
  }

  lemma ParseTagRoundTrip(l: Locale)
    ensures ParseLocale(Tag(l)) == Some(l)
  {
  }

  /** `toggleLocale`: the other locale. */
  function ToggleLocale(l: Locale): (r: Locale)
    ensures r != l
  {
    if l == PtBR then EnUS else PtBR
  }

  /** Toggling twice returns to the start, so no third locale is ever reached. */
  lemma ToggleInvolutive(l: Locale)
    ensures ToggleLocale(ToggleLocale(l)) == l
  {
  }

  // ---------------------------------------------------------------------
  // Translation tables
  // ---------------------------------------------------------------------

  /**
   * The translation keys (`TranslationKey`, the keys of the pt-BR table),
   * grouped by the part of the key before its first dot.
   */
  datatype Key =
    Nav(nav: NavKey)
    | Home(home: HomeKey)
    | Studies(studies: StudiesKey)
    | Articles(articles: ArticlesKey)
    | Notes(notes: NotesKey)
    | Code(code: CodeKey)
    | Footer(footer: FooterKey)
    | Loading
    | NoResults

  datatype NavKey = Home | Studies | Articles
  datatype HomeKey = Hero(hero: HeroKey) | Philosophy(philosophy: PhilosophyKey) | Latest(latest: LatestKey)
  datatype HeroKey = Title | Subtitle | Cta
  datatype PhilosophyKey = Title | Description | Principle1 | Principle2 | Principle3
  datatype LatestKey = Title | SeeAll
  datatype StudiesKey = Title | Subtitle | SearchPlaceholder | SearchLabel | SortMostNotes | SortAZ | SortRecent | NotesCount | LastUpdate | OpenLabel | ViewNotes | NoResults
  datatype ArticlesKey = Badge | Subtitle | NoArticles | ClickToRead | BackToArticles
  datatype NotesKey = Badge | BackTo | BackToStudies | NoNotes | Comments | LoadError | File | PathAttempted | Error
  datatype CodeKey = Copy | Copied | Read | LessThanOneMin | OneMin | MinutesRead
  datatype FooterKey = MadeWith | By

  /** The key as the source spells it. */
  function KeyName(k: Key): string {
    match k
    case Nav(s) => "nav." + NavKeyName(s)
    case Home(s) => "home." + HomeKeyName(s)
    case Studies(s) => "studies." + StudiesKeyName(s)
    case Articles(s) => "articles." + ArticlesKeyName(s)
    case Notes(s) => "notes." + NotesKeyName(s)
    case Code(s) => "code." + CodeKeyName(s)
    case Footer(s) => "footer." + FooterKeyName(s)
    case Loading => "loading"
    case NoResults => "noResults"
  }

  function NavKeyName(s: NavKey): string {
    match s
    case Home => "home"
    case Studies => "studies"
    case Articles => "articles"
  }

  function HomeKeyName(s: HomeKey): string {
    match s
    case Hero(h) => "hero." + (match h case Title => "title" case Subtitle => "subtitle" case Cta => "cta")
    case Philosophy(p) => "philosophy." + (
      match p
      case Title => "title"
      case Description => "description"
      case Principle1 => "principle1"
      case Principle2 => "principle2"
      case Principle3 => "principle3")
    case Latest(l) => "latest." + (match l case Title => "title" case SeeAll => "seeAll")
  }

  function StudiesKeyName(s: StudiesKey): string {
    match s
    case Title => "title"
    case Subtitle => "subtitle"
    case SearchPlaceholder => "searchPlaceholder"
    case SearchLabel => "searchLabel"
    case SortMostNotes => "sortMostNotes"
    case SortAZ => "sortAZ"
    case SortRecent => "sortRecent"
    case NotesCount => "notesCount"
    case LastUpdate => "lastUpdate"
    case OpenLabel => "openLabel"
    case ViewNotes => "viewNotes"
    case NoResults => "noResults"
  }

  function ArticlesKeyName(s: ArticlesKey): string {
    match s
    case Badge => "badge"
    case Subtitle => "subtitle"
    case NoArticles => "noArticles"
    case ClickToRead => "clickToRead"
    case BackToArticles => "backToArticles"
  }

  function NotesKeyName(s: NotesKey): string {
    match s
    case Badge => "badge"
    case BackTo => "backTo"
    case BackToStudies => "backToStudies"
    case NoNotes => "noNotes"
    case Comments => "comments"
    case LoadError => "loadError"
    case File => "file"
    case PathAttempted => "pathAttempted"
    case Error => "error"
  }

  function CodeKeyName(s: CodeKey): string {
    match s
    case Copy => "copy"
    case Copied => "copied"
    case Read => "read"
    case LessThanOneMin => "lessThanOneMin"
    case OneMin => "oneMin"
    case MinutesRead => "minutesRead"
  }

  function FooterKeyName(s: FooterKey): string {
    match s
    case MadeWith => "madeWith"
    case By => "by"
  }

  /** `translations['pt-BR']`. */
  function PtBRText(k: Key): (text: string)
    ensures text != ""
  {
    match k
    case Nav(s) => PtBRNavText(s)
    case Home(s) => PtBRHomeText(s)
    case Studies(s) => PtBRStudiesText(s)
    case Articles(s) => PtBRArticlesText(s)
    case Notes(s) => PtBRNotesText(s)
    case Code(s) => PtBRCodeText(s)
    case Footer(s) => PtBRFooterText(s)
    case Loading => "Carregando..."
    case NoResults => "Nenhum resultado encontrado."
  }

  function PtBRNavText(s: NavKey): (text: string)
    ensures text != ""
  {
    match s
    case Home => "Início"
    case Studies => "Estudos"
    case Articles => "Artigos"
  }

  function PtBRHomeText(s: HomeKey): (text: string)
    ensures text != ""
  {
    match s
    case Hero(h) => PtBRHeroText(h)
    case Philosophy(p) => PtBRPhilosophyText(p)
    case Latest(l) => PtBRLatestText(l)
  }

  function PtBRHeroText(h: HeroKey): (text: string)
    ensures text != ""
  {
    match h
    case Title => "CommitToLearn"
    case Subtitle => "Eu commito minhas experiências aqui para que acelerem as suas."
    case Cta => "Explorar Estudos →"
  }

  function PtBRPhilosophyText(p: PhilosophyKey): (text: string)
    ensures text != ""
  {
    match p
    case Title => "Filosofia"
    case Description => PtBRPhilosophyDescription
    case Principle1 => "🧩 Commits que contam a história do estudo"
    case Principle2 => "🗂️ Anotações versionadas e recuperáveis"
    case Principle3 => "🔁 Experimentos reprodutíveis e rastreáveis"
  }

  /** The long philosophy paragraph, kept apart so that its checks stay small. */
  const PtBRPhilosophyDescription: string := "Cada commit aqui é um pedaço da minha história de aprendizado — um registro público das minhas anotações que amanhã pode ajudar outra pessoa (ou o meu eu do futuro)."

  function PtBRLatestText(l: LatestKey): (text: string)
    ensures text != ""
  {
    match l
    case Title => "Últimas Publicações"
    case SeeAll => "Ver tudo →"
  }

  function PtBRStudiesText(s: StudiesKey): (text: string)
    ensures text != ""
  {
    match s
    case Title => "Área de Estudos"
    case Subtitle => "Explore conceitos e anotações organizados por linguagem"
    case SearchPlaceholder => "Buscar linguagem ou anotação..."
    case SearchLabel => "Buscar linguagem"
    case SortMostNotes => "Mais anotações"
    case SortAZ => "A → Z"
    case SortRecent => "Recentes"
    case NotesCount => "anotação(ões)"
    case LastUpdate => "Última atualização"
    case OpenLabel => "Abrir"
    case ViewNotes => "Ver anotações →"
    case NoResults => "Nenhuma linguagem encontrada para sua busca."
  }

  function PtBRArticlesText(s: ArticlesKey): (text: string)
    ensures text != ""
  {
    match s
    case Badge => "ARTIGO"
    case Subtitle => "Explorações mais extensas, ideias consolidadas e sínteses práticas."
    case NoArticles => "Nenhum artigo publicado ainda."
    case ClickToRead => "Clique para ler o conteúdo completo."
    case BackToArticles => "← Voltar para Artigos"
  }

  function PtBRNotesText(s: NotesKey): (text: string)
    ensures text != ""
  {
    match s
    case Badge => "NOTA"
    case BackTo => "← Voltar para"
    case BackToStudies => "← Voltar para Estudos"
    case NoNotes => "Nenhuma anotação disponível ainda para esta linguagem."
    case Comments => "💬 Comentários"
    case LoadError => "❌ Erro ao carregar nota"
    case File => "Arquivo:"
    case PathAttempted => "Caminho tentado:"
    case Error => "Erro:"
  }

  function PtBRCodeText(s: CodeKey): (text: string)
    ensures text != ""
  {
    match s
    case Copy => "Copiar"
    case Copied => "Copiado!"
    case Read => "Ler →"
    case LessThanOneMin => "Menos de 1 min"
    case OneMin => "1 min de leitura"
    case MinutesRead => "{minutes} min de leitura"
  }

  function PtBRFooterText(s: FooterKey): (text: string)
    ensures text != ""
  {
    match s
    case MadeWith => "Feito com"
    case By => "por"
  }

  /** `translations['en-US']`. */
  function EnUSText(k: Key): (text: string)
    ensures text != ""
  {
    match k
    case Nav(s) => EnUSNavText(s)
    case Home(s) => EnUSHomeText(s)
    case Studies(s) => EnUSStudiesText(s)
    case Articles(s) => EnUSArticlesText(s)
    case Notes(s) => EnUSNotesText(s)
    case Code(s) => EnUSCodeText(s)
    case Footer(s) => EnUSFooterText(s)
    case Loading => "Loading..."
    case NoResults => "No results found."
  }

  function EnUSNavText(s: NavKey): (text: string)
    ensures text != ""
  {
    match s
    case Home => "Home"
    case Studies => "Studies"
    case Articles => "Articles"
  }

  function EnUSHomeText(s: HomeKey): (text: string)
    ensures text != ""
  {
    match s
    case Hero(h) => EnUSHeroText(h)
    case Philosophy(p) => EnUSPhilosophyText(p)
    case Latest(l) => EnUSLatestText(l)
  }

  function EnUSHeroText(h: HeroKey): (text: string)
    ensures text != ""
  {
    match h
    case Title => "CommitToLearn"
    case Subtitle => "I commit my experiences here so they can accelerate yours."
    case Cta => "Explore Studies →"
  }

  function EnUSPhilosophyText(p: PhilosophyKey): (text: string)
    ensures text != ""
  {
    match p
    case Title => "Philosophy"
    case Description => EnUSPhilosophyDescription
    case Principle1 => "🧩 Commits that tell the study story"
    case Principle2 => "🗂️ Versioned and recoverable notes"
    case Principle3 => "🔁 Reproducible and traceable experiments"
  }

  /** The long philosophy paragraph, kept apart so that its checks stay small. */
  const EnUSPhilosophyDescription: string := "Each commit here is a piece of my learning journey — a public record of my notes that tomorrow might help someone else (or my future self)."

  function EnUSLatestText(l: LatestKey): (text: string)
    ensures text != ""
  {
    match l
    case Title => "Latest Publications"
    case SeeAll => "See all →"
  }

  function EnUSStudiesText(s: StudiesKey): (text: string)
    ensures text != ""
  {
    match s
    case Title => "Study Area"
    case Subtitle => "Explore concepts and notes organized by language"
    case SearchPlaceholder => "Search language or note..."
    case SearchLabel => "Search language"
    case SortMostNotes => "Most notes"
    case SortAZ => "A → Z"
    case SortRecent => "Recent"
    case NotesCount => "note(s)"
    case LastUpdate => "Last update"
    case OpenLabel => "Open"
    case ViewNotes => "View notes →"
    case NoResults => "No language found for your search."
  }

  function EnUSArticlesText(s: ArticlesKey): (text: string)
    ensures text != ""
  {
    match s
    case Badge => "ARTICLE"
    case Subtitle => "More extensive explorations, consolidated ideas and practical syntheses."
    case NoArticles => "No articles published yet."
    case ClickToRead => "Click to read the full content."
    case BackToArticles => "← Back to Articles"
  }

  function EnUSNotesText(s: NotesKey): (text: string)
    ensures text != ""
  {
    match s
    case Badge => "NOTE"
    case BackTo => "← Back to"
    case BackToStudies => "← Back to Studies"
    case NoNotes => "No notes available yet for this language."
    case Comments => "💬 Comments"
    case LoadError => "❌ Error loading note"
    case File => "File:"
    case PathAttempted => "Path attempted:"
    case Error => "Error:"
  }

  function EnUSCodeText(s: CodeKey): (text: string)
    ensures text != ""
  {
    match s
    case Copy => "Copy"
    case Copied => "Copied!"
    case Read => "Read →"
    case LessThanOneMin => "Less than 1 min"
    case OneMin => "1 min read"
    case MinutesRead => "{minutes} min read"
  }

  function EnUSFooterText(s: FooterKey): (text: string)
    ensures text != ""
  {
    match s
    case MadeWith => "Made with"
    case By => "by"
  }

  /** `translations[l][k]`. */
  function Table(l: Locale, k: Key): string {
    match l
    case PtBR => PtBRText(k)
    case EnUS => EnUSText(k)
  }

  /** No entry of either table is the empty string, so none is skipped as falsy. */
  lemma TableEntriesNonEmpty(l: Locale, k: Key)
    ensures Table(l, k) != ""
  {
  }

  /**
   * `localeStrings[key] || fallbackStrings[key] || key`: the locale's own
   * text unless it is empty, then the default locale's, then the key's name.
   */
  function Resolve(own: string, fallback: string, key: string): (r: string)
    ensures own != "" ==> r == own
    ensures own == "" && fallback != "" ==> r == fallback
    ensures own == "" && fallback == "" ==> r == key
  {
    if own != "" then own else if fallback != "" then fallback else key
  }

  /**
   * The text `t` starts from before interpolation. Both tables are total
   * over the translation keys and have no empty entry, so every key is
   * answered by the requested locale's own table: neither the pt-BR
   * fallback nor the bare key is ever shown.
   */
  function Lookup(k: Key, l: Locale): (r: string)
    ensures r == Table(l, k) && r != ""
  {
    TableEntriesNonEmpty(l, k);
    Resolve(Table(l, k), Table(DefaultLocale, k), KeyName(k))
  }

  // ---------------------------------------------------------------------
  // Interpolation
  // ---------------------------------------------------------------------

  /** The placeholder text for a parameter name. */
  function Placeholder(name: string): string {
    "{" + name + "}"
  }

  /**
   * Applies the parameters in order; each one replaces the first occurrence
   * of its placeholder in the text produced so far.
   */
  function Interpolate(text: string, params: seq<(string, string)>): string
    decreases |params|
  {
    if params == [] then text
    else Interpolate(ReplaceFirst(text, Placeholder(params[0].0), params[0].1), params[1..])
  }

  /**
   * `t(key, locale, params)`: looks the key up, then rewrites the text once
   * per parameter, in the parameters' order.
   */
  method Translate(key: Key, l: Locale, params: seq<(string, string)>) returns (text: string)
    ensures text == Interpolate(Lookup(key, l), params)
  {
    text := Lookup(key, l);
    var i := 0;
    while i < |params|
      invariant 0 <= i <= |params|
      invariant Interpolate(text, params[i..]) == Interpolate(Lookup(key, l), params)
    {
      assert params[i..][0] == params[i] && params[i..][1..] == params[i + 1..];
      text := ReplaceFirst(text, Placeholder(params[i].0), params[i].1);
      i := i + 1;
    }
  }

  /** Without parameters the looked-up text is returned as it is. */
  lemma InterpolateWithoutParams(text: string)
    ensures Interpolate(text, []) == text
  {
  }

  /**
   * One parameter replaces only the first placeholder: a later copy of the
   * same placeholder is left in the text.
   */
  lemma InterpolateReplacesFirstOnly(a: string, name: string, b: string, value: string)
    requires !Includes(a + Placeholder(name)[..|Placeholder(name)| - 1], Placeholder(name))
    requires NoDollar(value)
    ensures Interpolate(a + Placeholder(name) + b, [(name, value)]) == a + value + b
  {
    ReplaceFirstOnlyFirst(a, Placeholder(name), b, value);
  }

  /** A text that starts with the placeholder gets the value in its place. */
  lemma InterpolateLeadingPlaceholder(name: string, tail: string, value: string)
    requires NoDollar(value)
    ensures Interpolate(Placeholder(name) + tail, [(name, value)]) == value + tail
  {
    var p := Placeholder(name);
    var s := p + tail;
    assert OccursAt(s, p, 0) by { assert s[0..|p|] == p; }
    assert IndexOf(s, p) == Some(0);
    assert s[..0] == [] && s[|p|..] == tail;
    SubstituteLiteral(value, p, [], tail);
    assert ReplaceFirst(s, p, value) == value + tail;
  }

  /** The reading-time entry interpolates to the number followed by its unit. */
  lemma MinutesReadEntry(l: Locale, minutes: nat)
    ensures Interpolate(Lookup(Code(MinutesRead), l), [("minutes", NatToString(minutes))])
            == NatToString(minutes) + MinutesUnit(l)
  {
    var v := NatToString(minutes);
    MinutesReadText(l);
    DigitsHaveNoDollar(v);
    InterpolateLeadingPlaceholder("minutes", MinutesUnit(l), v);
  }

  /** What follows the number in the reading-time entry. */
  function MinutesUnit(l: Locale): string {
    if l == PtBR then " min de leitura" else " min read"
  }

  lemma MinutesReadText(l: Locale)
    ensures Table(l, Code(MinutesRead)) == Placeholder("minutes") + MinutesUnit(l)
  {
    if l == PtBR {
      PtBRMinutesRead();
    } else {
      EnUSMinutesRead();
    }
  }

  lemma PtBRMinutesRead()
    ensures Table(PtBR, Code(MinutesRead)) == Placeholder("minutes") + MinutesUnit(PtBR)
  {
    MinutesReadLiteral("{minutes} min de leitura", MinutesUnit(PtBR));
    assert Table(PtBR, Code(MinutesRead)) == "{minutes} min de leitura";
  }

  /** A literal entry is its placeholder followed by the unit. */
  lemma MinutesReadLiteral(text: string, unit: string)
    requires text == "{minutes}" + unit
    ensures text == Placeholder("minutes") + unit
  {
  }

  lemma EnUSMinutesRead()
    ensures Table(EnUS, Code(MinutesRead)) == Placeholder("minutes") + MinutesUnit(EnUS)
  {
    MinutesReadLiteral("{minutes} min read", MinutesUnit(EnUS));
    assert Table(EnUS, Code(MinutesRead)) == "{minutes} min read";
  }

  lemma DigitsHaveNoDollar(v: string)
    requires AllDigits(v)
    ensures NoDollar(v)
  {
    forall i | 0 <= i < |v| ensures v[i] != '$' {
      assert IsDigit(v[i]);
    }
  }

  // ---------------------------------------------------------------------
  // The browser's globals and the stored preference
  // ---------------------------------------------------------------------

  /** The storage key of the locale preference. */
  const StorageKey: string := "preferred-locale"

  /**
   * The browser globals the resolver reads: whether `window` exists,
   * `navigator.language` ("" when unset), the legacy `navigator.userLanguage`,
   * and the contents of `localStorage`.
   */
  class Browser {
    const hasWindow: bool
    const language: string
    const userLanguage: Option<string>
    var storage: map<string, string>

    constructor (hasWindow: bool, language: string, userLanguage: Option<string>, storage: map<string, string>)
      ensures this.hasWindow == hasWindow && this.language == language
      ensures this.userLanguage == userLanguage && this.storage == storage
    {
      this.hasWindow := hasWindow;
      this.language := language;
      this.userLanguage := userLanguage;
      this.storage := storage;
    }

    /**
     * `detectBrowserLocale`: "en..." gives en-US, "pt..." pt-BR, anything
     * else pt-BR; without a window, pt-BR. When neither navigator field is
     * set, calling `startsWith` on `undefined` throws a TypeError.
     */
    function DetectBrowserLocale(): (r: Result<Locale, string>)
      ensures !hasWindow ==> r == Ok(DefaultLocale)
      ensures r.Err? <==> hasWindow && language == "" && userLanguage.None?
      ensures r == Ok(EnUS) <==>
        hasWindow && StartsWith(if language != "" then language else userLanguage.GetOr(""), "en")
    {
      if !hasWindow then Ok(DefaultLocale)
      else
        var browserLang := if language != "" then Some(language) else userLanguage;
        match browserLang
        case None => Err("TypeError")
        case Some(lang) =>
          if StartsWith(lang, "en") then Ok(EnUS)
          else if StartsWith(lang, "pt") then Ok(PtBR)
          else Ok(DefaultLocale)
    }

    /** `getStoredLocale`: the stored value when it is exactly one of the two tags. */
    function StoredLocale(): (r: Option<Locale>)
      reads this
      ensures r.Some? <==> hasWindow && StorageKey in storage && (storage[StorageKey] == "pt-BR" || storage[StorageKey] == "en-US")
      ensures r.Some? ==> Tag(r.value) == storage[StorageKey]
    {
      if !hasWindow || StorageKey !in storage then None else ParseLocale(storage[StorageKey])
    }

    /** `setStoredLocale`: writes the tag under the preference key, when there is a window. */
    method SetStoredLocale(l: Locale)
      modifies this
      ensures storage == if hasWindow then old(storage)[StorageKey := Tag(l)] else old(storage)
      ensures hasWindow ==> StoredLocale() == Some(l)
    {
      if hasWindow {
        storage := storage[StorageKey := Tag(l)];
      }
    }

    /** `getCurrentLocale`: the stored preference, else the browser's language. */
    function CurrentLocale(): (r: Result<Locale, string>)
      reads this
      ensures StoredLocale().Some? ==> r == Ok(StoredLocale().value)
      ensures StoredLocale().None? ==> r == DetectBrowserLocale()
      ensures !hasWindow ==> r == Ok(DefaultLocale)
    {
      match StoredLocale()
      case Some(l) => Ok(l)
      case None => DetectBrowserLocale()
    }
  }
}
