/**
 * The latest publications section of the home page: one card per item of
 * the feed, with its address, badge, key and footer label.
 */
module LatestPublications {
  import opened Wrappers
  import opened Strings
  import opened I18n
  import Content
  import Header
  import Catalog

  /** How a template literal renders an optional string: a missing one reads "undefined". */
  function Render(s: Option<string>): string {
    s.GetOr("undefined")
  }

  /**
   * `getPublicationUrl`: an article lives under "/articles/", a note under
   * "/notes/<category>/"; the English page has "/en" in front.
   */
  function PublicationUrl(p: Content.Publication, l: Locale): (r: string)
    ensures p.kind == Content.ArticlePub ==>
      r == (if l == EnUS then "/en" else "") + "/articles/" + p.slug
    ensures p.kind == Content.NotePub ==>
      r == (if l == EnUS then "/en" else "") + "/notes/" + Render(p.category) + "/" + p.slug
  {
    var page :=
      if p.kind == Content.ArticlePub then "/articles/" + p.slug
      else "/notes/" + Render(p.category) + "/" + p.slug;
    if l == EnUS then "/en" + page else page
  }

  /** The English address of a card is its Portuguese one with "/en" in front. */
  lemma EnglishUrlPrefixesPortuguese(p: Content.Publication)
    ensures PublicationUrl(p, EnUS) == "/en" + PublicationUrl(p, PtBR)
    ensures StartsWith(PublicationUrl(p, PtBR), "/")
  {
  }

  /**
   * The header's language toggle, as the component rewrites the path, takes
   * each card's address to the same card in the other language, in both
   * directions.
   */
  lemma ToggleMapsCardUrls(p: Content.Publication)
    ensures Header.ToggledPathAsWritten(EnUS, PublicationUrl(p, PtBR)) == PublicationUrl(p, EnUS)
    ensures Header.ToggledPathAsWritten(PtBR, PublicationUrl(p, EnUS)) == PublicationUrl(p, PtBR)
  {
    var pt := PublicationUrl(p, PtBR);
    EnglishUrlPrefixesPortuguese(p);
    assert pt[..2] == (if p.kind == Content.ArticlePub then "/a" else "/n");
    assert pt != "/" && pt != "";
    Header.ToggleRoundTripAsWritten(pt);
  }

  /** The badge: the "articles.badge" text for an article, the "notes.badge" text for a note. */
  function BadgeText(kind: Content.PubKind, l: Locale): (r: string)
    ensures kind == Content.ArticlePub ==> r == Table(l, Key.Articles(ArticlesKey.Badge))
    ensures kind == Content.NotePub ==> r == Table(l, Key.Notes(NotesKey.Badge))
    ensures r != ""
  {
    var key := if kind == Content.ArticlePub then Key.Articles(ArticlesKey.Badge) else Key.Notes(NotesKey.Badge);
    TableEntriesNonEmpty(l, key);
    Lookup(key, l)
  }

  /** The badges of the two kinds differ in each locale. */
  lemma BadgesTellKindsApart(l: Locale)
    ensures BadgeText(Content.ArticlePub, l) != BadgeText(Content.NotePub, l)
  {
    var a := BadgeText(Content.ArticlePub, l);
    var n := BadgeText(Content.NotePub, l);
    assert a[0] == 'A' && n[0] == 'N';
  }

  /** The word a card's kind renders as in its key. */
  function KindWord(kind: Content.PubKind): string {
    if kind == Content.ArticlePub then "article" else "note"
  }

  /** The React key `${type}-${slug}`. */
  function CardKey(p: Content.Publication): (r: string)
    ensures |r| > |p.slug| && r[|r| - |p.slug|..] == p.slug
    ensures r[0] == (if p.kind == Content.ArticlePub then 'a' else 'n')
  {
    KindWord(p.kind) + "-" + p.slug
  }

  /** Two cards get the same key only when they have the same kind and slug. */
  lemma CardKeyInjective(p: Content.Publication, q: Content.Publication)
    ensures CardKey(p) == CardKey(q) <==> p.kind == q.kind && p.slug == q.slug
  {
    if CardKey(p) == CardKey(q) {
      assert p.kind == q.kind by {
        assert CardKey(p)[0] == CardKey(q)[0];
      }
      var w := |KindWord(p.kind)| + 1;
      assert p.slug == CardKey(p)[w..];
      assert q.slug == CardKey(q)[w..];
    }
  }

  /** The footer names the language when it is truthy, and the category otherwise. */
  function FooterLabel(p: Content.Publication): (r: Option<string>)
    ensures Content.Truthy(p.language) ==> r == p.language
    ensures !Content.Truthy(p.language) ==> r == p.category
  {
    if Content.Truthy(p.language) then p.language else p.category
  }

  /** A note item of the feed shows its language's name and links under its language id. */
  lemma NoteCardNamesLanguage(lang: Catalog.Language, n: Catalog.NoteEntry, l: Locale)
    requires n.date.Some? && lang.name != ""
    ensures FooterLabel(Content.NoteItem(lang, n)) == Some(lang.name)
    ensures PublicationUrl(Content.NoteItem(lang, n), l) ==
      (if l == EnUS then "/en" else "") + "/notes/" + lang.id + "/" + n.slug
  {
  }

  /** An article item shows its category in the footer. */
  lemma ArticleCardNamesCategory(a: Content.Article)
    requires a.date.Some?
    ensures FooterLabel(Content.ArticleItem(a)) == a.category
  {
  }

  /** What a card renders. */
  datatype Card = Card(
    key: string,
    href: string,
    badge: string,
    dateLabel: string,
    title: string,
    icon: Option<string>,
    footer: Option<string>,
    readLabel: string)

  /** One card; `formatShort` stands for `formatDateShort`. */
  function MakeCard(p: Content.Publication, l: Locale, formatShort: (int, Locale) -> string): (c: Card)
    ensures c.key == CardKey(p) && c.href == PublicationUrl(p, l)
    ensures c.badge == BadgeText(p.kind, l) && c.title == p.title
    ensures c.dateLabel == formatShort(p.date, l)
    ensures c.icon.Some? <==> Content.Truthy(p.languageIcon)
    ensures Content.Truthy(p.languageIcon) ==> c.icon == p.languageIcon
    ensures c.footer == FooterLabel(p)
    ensures c.readLabel == Table(l, Key.Code(CodeKey.Read))
  {
    Card(
      CardKey(p),
      PublicationUrl(p, l),
      BadgeText(p.kind, l),
      formatShort(p.date, l),
      p.title,
      if Content.Truthy(p.languageIcon) then p.languageIcon else None,
      FooterLabel(p),
      Lookup(Key.Code(CodeKey.Read), l))
  }

  /** The grid: one card per publication, in the feed's order. */
  function Cards(pubs: seq<Content.Publication>, l: Locale, formatShort: (int, Locale) -> string): (cs: seq<Card>)
    ensures |cs| == |pubs|
    ensures forall i :: 0 <= i < |pubs| ==> cs[i] == MakeCard(pubs[i], l, formatShort)
  {
    if pubs == [] then []
    else [MakeCard(pubs[0], l, formatShort)] + Cards(pubs[1..], l, formatShort)
  }

  /** Publications that differ in kind or slug get cards with different keys. */
  lemma CardKeysDistinct(pubs: seq<Content.Publication>, l: Locale, formatShort: (int, Locale) -> string)
    requires forall i, j :: 0 <= i < j < |pubs| ==> pubs[i].kind != pubs[j].kind || pubs[i].slug != pubs[j].slug
    ensures var cs := Cards(pubs, l, formatShort);
      forall i, j :: 0 <= i < j < |cs| ==> cs[i].key != cs[j].key
  {
    var cs := Cards(pubs, l, formatShort);
    forall i, j | 0 <= i < j < |cs| ensures cs[i].key != cs[j].key {
      CardKeyInjective(pubs[i], pubs[j]);
    }
  }

  /** The "see all" link: the studies page of the locale. */
  function SeeAllHref(l: Locale): (r: string)
    ensures l == EnUS ==> r == "/en/studies"
    ensures l == PtBR ==> r == "/estudos"
  {
    if l == EnUS then "/en/studies" else "/estudos"
  }
}
