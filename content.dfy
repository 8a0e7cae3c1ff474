/**
 * The content layer of the blog: articles and notes read from a directory
 * tree, their default titles and excerpts, the combined feed of latest
 * publications, the project statistics and the word-count reading time.
 *
 * The file system is an in-memory tree of `Node`s, and the libraries the
 * content layer calls (front-matter parsing, markdown stripping, the
 * reading-time library) are function parameters bundled in `Libraries`.
 */
module Content {
  import opened Wrappers
  import opened Strings
  import opened Sequences
  import opened Catalog
  import Dates

  // ---------------------------------------------------------------------
  // Inputs: directory tree and libraries
  // ---------------------------------------------------------------------

  /** A directory entry; a file whose contents cannot be read has `text == None`. */
  datatype Node = File(name: string, text: Option<string>) | Folder(name: string, children: seq<Node>)

  /** The front matter of a markdown file and the body that follows it. */
  datatype FrontMatter = FrontMatter(
    title: Option<string>,
    excerpt: Option<string>,
    date: Option<int>,
    category: Option<string>,
    tags: Option<seq<string>>,
    body: string)

  /** Front-matter parsing: `None` when `matter` throws on the text. */
  type Parser = string -> Option<FrontMatter>

  /** Front-matter parsing, markdown stripping and the reading-time library. */
  datatype Libraries = Libraries(
    parse: Parser,
    strip: string -> string,
    readingTime: string -> string)

  /** A string value that JavaScript treats as true: present and not empty. */
  predicate Truthy(s: Option<string>) {
    s.Some? && s.value != ""
  }

  predicate EndsWith(s: string, suffix: string) {
    |suffix| <= |s| && s[|s| - |suffix|..] == suffix
  }

  /** The first entry of a directory with the given name. */
  function Find(entries: seq<Node>, name: string): (r: Option<Node>)
    ensures r.Some? ==> r.value in entries && r.value.name == name
    ensures r.None? ==> forall e :: e in entries ==> e.name != name
  {
    if entries == [] then None
    else if entries[0].name == name then Some(entries[0])
    else Find(entries[1..], name)
  }

  // ---------------------------------------------------------------------
  // Titles and excerpts
  // ---------------------------------------------------------------------

  /** Every occurrence of `from` in `s` replaced by `to` (`replace(/x/g, ...)`). */
  function ReplaceChar(s: string, from: char, to: char): (r: string)
    ensures |r| == |s|
    ensures forall i :: 0 <= i < |s| ==> r[i] == if s[i] == from then to else s[i]
  {
    seq(|s|, i requires 0 <= i < |s| => if s[i] == from then to else s[i])
  }

  /** `capitalizeTitle`: the first character upper-cased, the rest as it was. */
  function CapitalizeTitle(text: string): (r: string)
    ensures text == [] ==> r == []
    ensures text != [] ==> |r| >= |text| && r[..|r| - (|text| - 1)] == UpperChar(text[0])
    ensures text != [] ==> r[|r| - (|text| - 1)..] == text[1..]
    ensures text != [] && 'a' <= text[0] <= 'z' ==> r[0] as int == text[0] as int - 32
  {
    if text == [] then [] else UpperChar(text[0]) + text[1..]
  }

  /** Upper-casing the first character a second time changes nothing. */
  lemma CapitalizeTitleIdempotent(text: string)
    ensures CapitalizeTitle(CapitalizeTitle(text)) == CapitalizeTitle(text)
  {
    if text != [] {
      var u := UpperChar(text[0]);
      var r := u + text[1..];
      assert r[0] == u[0] && r[1..] == u[1..] + text[1..];
      assert UpperChar(u[0]) == [u[0]];
    }
  }

  /** The title of an article without one: the slug with each '-' and '_' turned into a space. */
  function DefaultArticleTitle(slug: string): (r: string)
    ensures |r| == |slug|
    ensures forall i :: 0 <= i < |r| ==> r[i] == if slug[i] == '-' || slug[i] == '_' then ' ' else slug[i]
  {
    ReplaceChar(ReplaceChar(slug, '-', ' '), '_', ' ')
  }

  /** The title of a note without one: only '-' becomes a space, '_' stays. */
  function DefaultNoteTitle(slug: string): (r: string)
    ensures |r| == |slug|
    ensures forall i :: 0 <= i < |r| ==> r[i] == if slug[i] == '-' then ' ' else slug[i]
  {
    ReplaceChar(slug, '-', ' ')
  }

  function Min(a: int, b: int): int {
    if a < b then a else b
  }

  /**
   * The excerpt of an article: its own excerpt, stripped, when it has one;
   * otherwise at most 200 characters of the stripped body followed by
   * "...", which is appended even to a shorter body.
   */
  function Excerpt(own: Option<string>, body: string, strip: string -> string): (r: string)
    ensures Truthy(own) ==> r == strip(own.value)
    ensures !Truthy(own) ==> |r| == Min(200, |strip(body)|) + 3 <= 203
    ensures !Truthy(own) ==> r[..|r| - 3] <= strip(body) && r[|r| - 3..] == "..."
  {
    if Truthy(own) then strip(own.value)
    else
      var clean := strip(body);
      clean[..Min(200, |clean|)] + "..."
  }

  // ---------------------------------------------------------------------
  // Articles
  // ---------------------------------------------------------------------

  datatype Article = Article(
    slug: string,
    title: string,
    content: string,
    excerpt: string,
    date: Option<int>,
    category: Option<string>,
    tags: Option<seq<string>>,
    lang: string,
    readingTime: string)

  /**
   * The article record built from a parsed file: its title, or the default
   * title, capitalized; the body as content; the excerpt; the front
   * matter's date, category and tags; and the reading time of the body.
   */
  function MakeArticle(slug: string, fm: FrontMatter, lang: string, libs: Libraries): (a: Article)
    ensures a.slug == slug && a.lang == lang && a.content == fm.body
    ensures a.title == CapitalizeTitle(if Truthy(fm.title) then fm.title.value else DefaultArticleTitle(slug))
    ensures a.excerpt == Excerpt(fm.excerpt, fm.body, libs.strip)
    ensures a.date == fm.date && a.category == fm.category && a.tags == fm.tags
    ensures a.readingTime == libs.readingTime(fm.body)
  {
    var title := if Truthy(fm.title) then fm.title.value else DefaultArticleTitle(slug);
    Article(slug, CapitalizeTitle(title), fm.body, Excerpt(fm.excerpt, fm.body, libs.strip),
            fm.date, fm.category, fm.tags, lang, libs.readingTime(fm.body))
  }

  /** The directory holding the articles of a language: "en-US" inside the root for en-US. */
  function ArticleDir(root: seq<Node>, lang: string): Option<seq<Node>> {
    if lang == "en-US" then
      match Find(root, "en-US")
      case Some(Folder(_, children)) => Some(children)
      case _ => None
    else Some(root)
  }

  /**
   * The text of "<slug>.md" in the language's directory: `None` when the
   * directory or the file is missing, when the name is a folder (reading it
   * throws) or when the file cannot be read.
   */
  function ArticleFile(root: seq<Node>, slug: string, lang: string): (r: Option<string>)
    ensures r.Some? ==> (ArticleDir(root, lang).Some?
      && Find(ArticleDir(root, lang).value, slug + ".md") == Some(File(slug + ".md", r)))
    ensures r.None? ==> (ArticleDir(root, lang).None?
      || Find(ArticleDir(root, lang).value, slug + ".md").None?
      || Find(ArticleDir(root, lang).value, slug + ".md").value.Folder?
      || Find(ArticleDir(root, lang).value, slug + ".md").value.text.None?)
  {
    match ArticleDir(root, lang)
    case None => None
    case Some(dir) =>
      match Find(dir, slug + ".md")
      case Some(File(_, text)) => text
      case _ => None
  }

  /**
   * `getArticleBySlug`: `None` when there is no readable "<slug>.md" or its
   * front matter cannot be parsed, else the article the file holds.
   */
  function GetArticleBySlug(root: seq<Node>, slug: string, lang: string, libs: Libraries): (r: Option<Article>)
    ensures ArticleFile(root, slug, lang).None? ==> r.None?
    ensures ArticleFile(root, slug, lang).Some? && libs.parse(ArticleFile(root, slug, lang).value).None? ==> r.None?
    ensures ArticleFile(root, slug, lang).Some? && libs.parse(ArticleFile(root, slug, lang).value).Some? ==>
      r == Some(MakeArticle(slug, libs.parse(ArticleFile(root, slug, lang).value).value, lang, libs))
  {
    match ArticleFile(root, slug, lang)
    case None => None
    case Some(text) =>
      match libs.parse(text)
      case None => None
      case Some(fm) => Some(MakeArticle(slug, fm, lang, libs))
  }

  /** The file name without its ".md" extension. */
  function Slug(fileName: string): (slug: string)
    requires EndsWith(fileName, ".md")
    ensures slug + ".md" == fileName
  {
    fileName[..|fileName| - 3]
  }

  /** An entry `getAllArticles` lists an article for: a ".md" name whose lookup succeeds. */
  predicate Lists(root: seq<Node>, e: Node, lang: string, libs: Libraries, a: Article) {
    EndsWith(e.name, ".md") && GetArticleBySlug(root, Slug(e.name), lang, libs) == Some(a)
  }

  /** The article one entry contributes: none, or the one its lookup finds. */
  function ArticleOf(root: seq<Node>, e: Node, lang: string, libs: Libraries): (r: seq<Article>)
    ensures forall a :: a in r <==> Lists(root, e, lang, libs, a)
  {
    if !EndsWith(e.name, ".md") then []
    else
      match GetArticleBySlug(root, Slug(e.name), lang, libs)
      case Some(a) => [a]
      case None => []
  }

  /** The articles of the ".md" entries among `entries`, in directory order; at most one per entry. */
  function ArticlesIn(root: seq<Node>, entries: seq<Node>, lang: string, libs: Libraries): (r: seq<Article>)
    ensures |r| <= |entries|
  {
    if entries == [] then []
    else ArticleOf(root, entries[0], lang, libs) + ArticlesIn(root, entries[1..], lang, libs)
  }

  /** The articles listed are exactly the articles the lookups of the ".md" entries find. */
  lemma {:induction false} ArticlesInMembers(root: seq<Node>, entries: seq<Node>, lang: string, libs: Libraries)
    ensures forall a :: a in ArticlesIn(root, entries, lang, libs) <==> exists e :: e in entries && Lists(root, e, lang, libs, a)
  {
    if entries != [] {
      ArticlesInMembers(root, entries[1..], lang, libs);
      assert forall e :: e in entries <==> e == entries[0] || e in entries[1..];
    }
  }

  /** Listing follows directory order: the listing of two runs of entries is the two listings joined. */
  lemma {:induction false} ArticlesInConcat(root: seq<Node>, e1: seq<Node>, e2: seq<Node>, lang: string, libs: Libraries)
    ensures ArticlesIn(root, e1 + e2, lang, libs) == ArticlesIn(root, e1, lang, libs) + ArticlesIn(root, e2, lang, libs)
  {
    if e1 == [] {
      assert e1 + e2 == e2;
    } else {
      var head := ArticleOf(root, e1[0], lang, libs);
      ArticlesInConcat(root, e1[1..], e2, lang, libs);
      ArticlesInUnfold(root, e1 + e2, lang, libs);
      ArticlesInUnfold(root, e1, lang, libs);
      assert (e1 + e2)[0] == e1[0] && (e1 + e2)[1..] == e1[1..] + e2;
      ConcatAssoc(head, ArticlesIn(root, e1[1..], lang, libs), ArticlesIn(root, e2, lang, libs));
    }
  }

  lemma ConcatAssoc<T>(a: seq<T>, b: seq<T>, c: seq<T>)
    ensures a + (b + c) == (a + b) + c
  {
  }

  lemma ArticlesInUnfold(root: seq<Node>, s: seq<Node>, lang: string, libs: Libraries)
    requires s != []
    ensures ArticlesIn(root, s, lang, libs) == ArticleOf(root, s[0], lang, libs) + ArticlesIn(root, s[1..], lang, libs)
  {
  }

  /**
   * `getAllArticles`: the articles of every ".md" entry of the language's
   * directory whose lookup succeeds, none when the directory is missing.
   */
  function GetAllArticles(root: seq<Node>, lang: string, libs: Libraries): (r: seq<Article>)
    ensures ArticleDir(root, lang).None? ==> r == []
    ensures forall a :: a in r <==>
      ArticleDir(root, lang).Some? && exists e :: e in ArticleDir(root, lang).value && Lists(root, e, lang, libs, a)
  {
    match ArticleDir(root, lang)
    case None => []
    case Some(dir) =>
      ArticlesInMembers(root, dir, lang, libs);
      ArticlesIn(root, dir, lang, libs)
  }

  /** Every article listed is the one `getArticleBySlug` finds for its own slug. */
  lemma {:induction false} ArticlesInFoundBySlug(root: seq<Node>, entries: seq<Node>, lang: string, libs: Libraries)
    ensures forall a :: a in ArticlesIn(root, entries, lang, libs) ==> GetArticleBySlug(root, a.slug, lang, libs) == Some(a)
  {
    if entries != [] {
      ArticlesInFoundBySlug(root, entries[1..], lang, libs);
    }
  }

  lemma GetAllArticlesFoundBySlug(root: seq<Node>, lang: string, libs: Libraries)
    ensures forall a :: a in GetAllArticles(root, lang, libs) ==> GetArticleBySlug(root, a.slug, lang, libs) == Some(a)
  {
    match ArticleDir(root, lang)
    case None =>
    case Some(dir) => ArticlesInFoundBySlug(root, dir, lang, libs);
  }

  // ---------------------------------------------------------------------
  // Notes: the recursive directory walk
  // ---------------------------------------------------------------------

  /** A note file; `path` lists the directories from the language folder down to the file. */
  datatype Note = Note(slug: string, title: string, content: string, category: string, path: seq<string>)

  /**
   * The note record of a ".md" file found in directory `dirPath`: the file
   * name without ".md" as slug, the front matter's title or the default
   * one, the whole file as content, and the file's path.
   */
  function MakeNote(fileName: string, text: string, fm: FrontMatter, category: string, dirPath: seq<string>): (n: Note)
    requires EndsWith(fileName, ".md")
    ensures n.slug + ".md" == fileName
    ensures n.title == if Truthy(fm.title) then fm.title.value else DefaultNoteTitle(n.slug)
    ensures n.content == text && n.category == category && n.path == dirPath + [fileName]
  {
    var slug := Slug(fileName);
    Note(slug, if Truthy(fm.title) then fm.title.value else DefaultNoteTitle(slug), text, category, dirPath + [fileName])
  }

  /**
   * The notes a walk collects from one entry, or `None` when a markdown file
   * in it cannot be read or parsed (the call throws and the walk is not
   * guarded).
   */
  function NodeNotes(n: Node, category: string, dirPath: seq<string>, parse: Parser): Option<seq<Note>>
    decreases n, 1
  {
    match n
    case File(name, text) =>
      if !EndsWith(name, ".md") then Some([])
      else if text.None? then None
      else
        (match parse(text.value)
         case None => None
         case Some(fm) => Some([MakeNote(name, text.value, fm, category, dirPath)]))
    case Folder(name, children) =>
      ChildrenNotes(n, |children|, name, dirPath + [name], parse)
  }

  /** The notes a walk collects from the first `k` entries of a folder. */
  function ChildrenNotes(dir: Node, k: nat, category: string, dirPath: seq<string>,
                         parse: Parser): Option<seq<Note>>
    requires dir.Folder? && k <= |dir.children|
    decreases dir, 0, k
  {
    if k == 0 then Some([])
    else
      match ChildrenNotes(dir, k - 1, category, dirPath, parse)
      case None => None
      case Some(before) =>
        match NodeNotes(dir.children[k - 1], category, dirPath, parse)
        case None => None
        case Some(more) => Some(before + more)
  }

  /** Once an entry fails, the walk of the folder fails. */
  lemma {:induction false} ChildrenNotesFailureSticks(dir: Node, i: nat, k: nat, category: string,
                                                      dirPath: seq<string>, parse: Parser)
    requires dir.Folder? && i <= k <= |dir.children|
    requires ChildrenNotes(dir, i, category, dirPath, parse).None?
    ensures ChildrenNotes(dir, k, category, dirPath, parse).None?
    decreases k
  {
    if i < k {
      ChildrenNotesFailureSticks(dir, i, k - 1, category, dirPath, parse);
    }
  }

  /** The notes array `getAllNotes` shares with its nested `walkDir`. */
  class NoteWalk {
    var notes: seq<Note>
    const parse: Parser

    constructor(parse: Parser)
      ensures notes == [] && this.parse == parse
    {
      notes := [];
      this.parse := parse;
    }

    /**
     * `walkDir`: appends the notes of the folder's entries in directory
     * order, descending into sub-folders with the sub-folder's name as the
     * category. `ok` is false when a markdown file could not be read.
     */
    method WalkDir(dir: Node, category: string, dirPath: seq<string>) returns (ok: bool)
      requires dir.Folder?
      modifies this
      ensures ok <==> ChildrenNotes(dir, |dir.children|, category, dirPath, parse).Some?
      ensures ok ==> notes == old(notes) + ChildrenNotes(dir, |dir.children|, category, dirPath, parse).value
      decreases dir
    {
      var i := 0;
      while i < |dir.children|
        invariant 0 <= i <= |dir.children|
        invariant ChildrenNotes(dir, i, category, dirPath, parse).Some?
        invariant notes == old(notes) + ChildrenNotes(dir, i, category, dirPath, parse).value
        decreases |dir.children| - i
      {
        var entry := dir.children[i];
        match entry {
          case Folder(name, _) =>
            var sub := WalkDir(entry, name, dirPath + [name]);
            if !sub {
              ChildrenNotesFailureSticks(dir, i + 1, |dir.children|, category, dirPath, parse);
              return false;
            }
          case File(name, text) =>
            if EndsWith(name, ".md") {
              if text.None? {
                ChildrenNotesFailureSticks(dir, i + 1, |dir.children|, category, dirPath, parse);
                return false;
              }
              var fm := parse(text.value);
              if fm.None? {
                ChildrenNotesFailureSticks(dir, i + 1, |dir.children|, category, dirPath, parse);
                return false;
              }
              notes := notes + [MakeNote(name, text.value, fm.value, category, dirPath)];
            }
        }
        i := i + 1;
      }
      return true;
    }
  }

  /** What `getAllNotes` returns for a language, `None` when it throws. */
  function AllNotes(notesRoot: seq<Node>, lang: string, parse: Parser): Option<seq<Note>> {
    match Find(notesRoot, lang)
    case None => Some([])
    case Some(File(_, _)) => None
    case Some(dir) => ChildrenNotes(dir, |dir.children|, "", [lang], parse)
  }

  /** `getAllNotes`: walks the language folder from the top with an empty category. */
  method GetAllNotes(notesRoot: seq<Node>, lang: string, parse: Parser) returns (r: Option<seq<Note>>)
    ensures r == AllNotes(notesRoot, lang, parse)
  {
    var langDir := Find(notesRoot, lang);
    if langDir.None? {
      return Some([]);
    }
    if langDir.value.File? {
      return None;
    }
    var walk := new NoteWalk(parse);
    assert langDir.value.Folder?;
    var ok := walk.WalkDir(langDir.value, "", [lang]);
    var spec := ChildrenNotes(langDir.value, |langDir.value.children|, "", [lang], parse);
    assert AllNotes(notesRoot, lang, parse) == spec;
    assert ok ==> walk.notes == spec.value;
    r := if ok then Some(walk.notes) else None;
  }

  /**
   * Where a note sits: its path ends in "<slug>.md", and its category is the
   * name of the folder holding it, or "" for a file directly in the language
   * folder.
   */
  predicate WellPlaced(n: Note) {
    |n.path| >= 2
    && n.path[|n.path| - 1] == n.slug + ".md"
    && n.category == if |n.path| == 2 then "" else n.path[|n.path| - 2]
  }

  /** The category a walk passes down matches the folder path it has reached. */
  predicate CategoryOfPath(category: string, dirPath: seq<string>) {
    |dirPath| >= 1 && category == if |dirPath| == 1 then "" else dirPath[|dirPath| - 1]
  }

  lemma {:induction false} NodeNotesWellPlaced(n: Node, category: string, dirPath: seq<string>, parse: Parser)
    requires CategoryOfPath(category, dirPath)
    ensures NodeNotes(n, category, dirPath, parse).Some? ==>
      forall note :: note in NodeNotes(n, category, dirPath, parse).value ==> WellPlaced(note)
    decreases n, 1
  {
    match n
    case File(name, text) =>
      if EndsWith(name, ".md") && text.Some? {
        assert name[..|name| - 3] + ".md" == name;
      }
    case Folder(name, children) =>
      ChildrenNotesWellPlaced(n, |children|, name, dirPath + [name], parse);
  }

  lemma {:induction false} ChildrenNotesWellPlaced(dir: Node, k: nat, category: string, dirPath: seq<string>,
                                                   parse: Parser)
    requires dir.Folder? && k <= |dir.children|
    requires CategoryOfPath(category, dirPath)
    ensures ChildrenNotes(dir, k, category, dirPath, parse).Some? ==>
      forall note :: note in ChildrenNotes(dir, k, category, dirPath, parse).value ==> WellPlaced(note)
    decreases dir, 0, k
  {
    if k > 0 {
      ChildrenNotesWellPlaced(dir, k - 1, category, dirPath, parse);
      NodeNotesWellPlaced(dir.children[k - 1], category, dirPath, parse);
    }
  }

  /** Every note `getAllNotes` returns is well placed in the tree. */
  lemma AllNotesWellPlaced(notesRoot: seq<Node>, lang: string, parse: Parser)
    ensures AllNotes(notesRoot, lang, parse).Some? ==>
      forall note :: note in AllNotes(notesRoot, lang, parse).value ==> WellPlaced(note)
  {
    match Find(notesRoot, lang)
    case None =>
    case Some(File(_, _)) =>
    case Some(dir) => ChildrenNotesWellPlaced(dir, |dir.children|, "", [lang], parse);
  }

  // ---------------------------------------------------------------------
  // The latest publications feed
  // ---------------------------------------------------------------------

  datatype PubKind = ArticlePub | NotePub

  datatype Publication = Publication(
    kind: PubKind,
    slug: string,
    title: string,
    date: int,
    category: Option<string>,
    language: Option<string>,
    languageIcon: Option<string>,
    excerpt: Option<string>,
    readingTime: Option<string>)

  function PubDate(p: Publication): int {
    p.date
  }

  function ArticleItem(a: Article): Publication
    requires a.date.Some?
  {
    Publication(ArticlePub, a.slug, a.title, a.date.value, a.category, None, None, Some(a.excerpt), Some(a.readingTime))
  }

  function NoteItem(l: Language, n: NoteEntry): Publication
    requires n.date.Some?
  {
    Publication(NotePub, n.slug, n.title, n.date.value, Some(l.id), Some(l.name), Some(l.icon), None, None)
  }

  /** The number of dated articles. */
  function DatedArticles(articles: seq<Article>): nat {
    if articles == [] then 0
    else (if articles[0].date.Some? then 1 else 0) + DatedArticles(articles[1..])
  }

  /** The number of dated notes over all languages. */
  function DatedNotes(languages: seq<Language>): nat {
    if languages == [] then 0
    else DatedEntries(languages[0].notes) + DatedNotes(languages[1..])
  }

  function DatedEntries(notes: seq<NoteEntry>): nat {
    if notes == [] then 0
    else (if notes[0].date.Some? then 1 else 0) + DatedEntries(notes[1..])
  }

  /** The publications of the dated articles, in order. */
  function ArticlePubs(articles: seq<Article>): (r: seq<Publication>)
    ensures forall p :: p in r ==> (p.kind == ArticlePub
      && exists a :: a in articles && a.date == Some(p.date) && a.slug == p.slug && a.title == p.title)
  {
    if articles == [] then []
    else
      var init := articles[..|articles| - 1];
      var a := articles[|articles| - 1];
      assert forall x :: x in init ==> x in articles;
      ArticlePubs(init) + (if a.date.Some? then [ArticleItem(a)] else [])
  }

  /** The publications of one language's dated notes, in order. */
  function LanguagePubs(l: Language, notes: seq<NoteEntry>): (r: seq<Publication>)
    ensures forall p :: p in r ==> (p.kind == NotePub && p.category == Some(l.id) && p.language == Some(l.name)
      && exists n :: n in notes && n.date == Some(p.date) && n.slug == p.slug && n.title == p.title)
  {
    if notes == [] then []
    else
      var init := notes[..|notes| - 1];
      var n := notes[|notes| - 1];
      assert forall x :: x in init ==> x in notes;
      LanguagePubs(l, init) + (if n.date.Some? then [NoteItem(l, n)] else [])
  }

  /** The publications of the dated notes of every language, language by language. */
  function NotePubs(languages: seq<Language>): (r: seq<Publication>)
    ensures forall p :: p in r ==> (p.kind == NotePub
      && exists l :: l in languages && p.category == Some(l.id) && p.language == Some(l.name))
  {
    if languages == [] then []
    else
      var init := languages[..|languages| - 1];
      var l := languages[|languages| - 1];
      assert forall x :: x in init ==> x in languages;
      NotePubs(init) + LanguagePubs(l, l.notes)
  }

  lemma {:induction false} ArticlePubsCount(articles: seq<Article>)
    ensures |ArticlePubs(articles)| == DatedArticles(articles)
  {
    if articles != [] {
      var init := articles[..|articles| - 1];
      ArticlePubsCount(init);
      DatedArticlesSnoc(init, articles[|articles| - 1]);
      assert init + [articles[|articles| - 1]] == articles;
    }
  }

  lemma {:induction false} DatedArticlesSnoc(s: seq<Article>, a: Article)
    ensures DatedArticles(s + [a]) == DatedArticles(s) + (if a.date.Some? then 1 else 0)
  {
    if s != [] {
      assert (s + [a])[1..] == s[1..] + [a];
      DatedArticlesSnoc(s[1..], a);
    } else {
      assert [] + [a] == [a];
    }
  }

  lemma {:induction false} DatedEntriesSnoc(s: seq<NoteEntry>, n: NoteEntry)
    ensures DatedEntries(s + [n]) == DatedEntries(s) + (if n.date.Some? then 1 else 0)
  {
    if s != [] {
      assert (s + [n])[1..] == s[1..] + [n];
      DatedEntriesSnoc(s[1..], n);
    } else {
      assert [] + [n] == [n];
    }
  }

  lemma {:induction false} DatedNotesSnoc(s: seq<Language>, l: Language)
    ensures DatedNotes(s + [l]) == DatedNotes(s) + DatedEntries(l.notes)
  {
    if s != [] {
      assert (s + [l])[1..] == s[1..] + [l];
      DatedNotesSnoc(s[1..], l);
    } else {
      assert [] + [l] == [l];
    }
  }

  lemma {:induction false} LanguagePubsCount(l: Language, notes: seq<NoteEntry>)
    ensures |LanguagePubs(l, notes)| == DatedEntries(notes)
  {
    if notes != [] {
      var init := notes[..|notes| - 1];
      LanguagePubsCount(l, init);
      DatedEntriesSnoc(init, notes[|notes| - 1]);
      assert init + [notes[|notes| - 1]] == notes;
    }
  }

  lemma {:induction false} NotePubsCount(languages: seq<Language>)
    ensures |NotePubs(languages)| == DatedNotes(languages)
  {
    if languages != [] {
      var init := languages[..|languages| - 1];
      var l := languages[|languages| - 1];
      NotePubsCount(init);
      LanguagePubsCount(l, l.notes);
      DatedNotesSnoc(init, l);
      assert init + [l] == languages;
    }
  }

  /** The feed: dated articles, then dated notes, sorted newest first and cut to `limit`. */
  function LatestPublications(limit: int, articles: seq<Article>, languages: seq<Language>): seq<Publication> {
    SliceTo(SortDescending(ArticlePubs(articles) + NotePubs(languages), PubDate), limit)
  }

  /**
   * `getLatestPublications`: pushes the dated articles and then, language
   * by language, the dated notes; sorts newest first and keeps `limit`.
   */
  method GetLatestPublications(limit: int, articles: seq<Article>, languages: seq<Language>)
    returns (feed: seq<Publication>)
    ensures feed == LatestPublications(limit, articles, languages)
  {
    var publications := PushArticles(articles);
    publications := PushNotes(publications, languages);
    feed := SliceTo(SortDescending(publications, PubDate), limit);
  }

  /** The first `forEach`: one item per dated article, in order. */
  method PushArticles(articles: seq<Article>) returns (publications: seq<Publication>)
    ensures publications == ArticlePubs(articles)
  {
    publications := [];
    var i := 0;
    while i < |articles|
      invariant 0 <= i <= |articles|
      invariant publications == ArticlePubs(articles[..i])
    {
      var a := articles[i];
      if a.date.Some? {
        publications := publications + [ArticleItem(a)];
      }
      assert articles[..i + 1][..i] == articles[..i];
      i := i + 1;
    }
    assert articles[..i] == articles;
  }

  /** The outer `forEach` over the languages: their dated notes, language by language, appended. */
  method PushNotes(start: seq<Publication>, languages: seq<Language>) returns (publications: seq<Publication>)
    ensures publications == start + NotePubs(languages)
  {
    publications := start;
    var j := 0;
    while j < |languages|
      invariant 0 <= j <= |languages|
      invariant publications == start + NotePubs(languages[..j])
    {
      publications := PushLanguageNotes(publications, languages[j]);
      assert languages[..j + 1][..j] == languages[..j];
      j := j + 1;
    }
    assert languages[..j] == languages;
  }

  /** The inner `forEach`: one item per dated note of a language, appended. */
  method PushLanguageNotes(start: seq<Publication>, l: Language) returns (publications: seq<Publication>)
    ensures publications == start + LanguagePubs(l, l.notes)
  {
    publications := start;
    var k := 0;
    while k < |l.notes|
      invariant 0 <= k <= |l.notes|
      invariant publications == start + LanguagePubs(l, l.notes[..k])
    {
      var n := l.notes[k];
      if n.date.Some? {
        publications := publications + [NoteItem(l, n)];
      }
      assert l.notes[..k + 1][..k] == l.notes[..k];
      k := k + 1;
    }
    assert l.notes[..k] == l.notes;
  }

  /** The feed holds min(limit, number of dated items) items, newest first. */
  lemma FeedLengthAndOrder(limit: int, articles: seq<Article>, languages: seq<Language>)
    requires limit >= 0
    ensures |LatestPublications(limit, articles, languages)|
      == Min(limit, DatedArticles(articles) + DatedNotes(languages))
    ensures Descending(LatestPublications(limit, articles, languages), PubDate)
  {
    ArticlePubsCount(articles);
    NotePubsCount(languages);
    var sorted := SortDescending(ArticlePubs(articles) + NotePubs(languages), PubDate);
    PrefixDescending(sorted, LatestPublications(limit, articles, languages), PubDate);
  }

  /**
   * Among items with the same date the feed keeps insertion order: the
   * feed's items dated `k` are a prefix of the articles dated `k` followed
   * by the notes dated `k`.
   */
  lemma FeedKeepsTies(limit: int, articles: seq<Article>, languages: seq<Language>, k: int)
    ensures WithKey(LatestPublications(limit, articles, languages), PubDate, k)
      <= WithKey(ArticlePubs(articles), PubDate, k) + WithKey(NotePubs(languages), PubDate, k)
  {
    var all := ArticlePubs(articles) + NotePubs(languages);
    var sorted := SortDescending(all, PubDate);
    PrefixWithKey(sorted, LatestPublications(limit, articles, languages), PubDate, k);
    SortIsStable(all, PubDate, k);
    WithKeyAppend(ArticlePubs(articles), NotePubs(languages), PubDate, k);
  }

  /**
   * Every item of the feed comes from a dated article with its slug, or is
   * a note whose category is the id of the language it belongs to.
   */
  lemma FeedProvenance(limit: int, articles: seq<Article>, languages: seq<Language>)
    ensures forall p :: p in LatestPublications(limit, articles, languages) ==>
      (p.kind == ArticlePub && exists a :: a in articles && a.date == Some(p.date) && a.slug == p.slug)
      || (p.kind == NotePub && exists l :: l in languages && p.category == Some(l.id) && p.language == Some(l.name))
  {
    var all := ArticlePubs(articles) + NotePubs(languages);
    var sorted := SortDescending(all, PubDate);
    forall p | p in LatestPublications(limit, articles, languages)
      ensures (p.kind == ArticlePub && exists a :: a in articles && a.date == Some(p.date) && a.slug == p.slug)
        || (p.kind == NotePub && exists l :: l in languages && p.category == Some(l.id) && p.language == Some(l.name))
    {
      assert p in sorted;
      assert p in multiset(all);
    }
  }

  // ---------------------------------------------------------------------
  // Project statistics
  // ---------------------------------------------------------------------

  datatype ProjectStats = ProjectStats(
    totalNotes: nat,
    totalArticles: nat,
    totalCategories: nat,
    daysSinceStart: int,
    earliestDate: Option<int>)

  /** The notes of all languages, one language after the other (`flatMap`). */
  function FlatNotes(languages: seq<Language>): (r: seq<NoteEntry>)
    ensures |r| == NoteCount(languages)
  {
    if languages == [] then [] else languages[0].notes + FlatNotes(languages[1..])
  }

  /** The sum of the languages' note counts. */
  function NoteCount(languages: seq<Language>): nat {
    if languages == [] then 0 else |languages[0].notes| + NoteCount(languages[1..])
  }

  /** The earlier of a running minimum and one more optional date. */
  function Earlier(earliest: Option<int>, d: Option<int>): Option<int> {
    match d
    case None => earliest
    case Some(v) => if earliest.None? || v < earliest.value then Some(v) else earliest
  }

  /** The earliest of the present dates, `None` when none is present. */
  function EarliestOf(dates: seq<Option<int>>): (r: Option<int>)
    ensures r.None? <==> forall i :: 0 <= i < |dates| ==> dates[i].None?
    ensures r.Some? ==> exists i :: 0 <= i < |dates| && dates[i] == r
    ensures r.Some? ==> forall i :: 0 <= i < |dates| && dates[i].Some? ==> r.value <= dates[i].value
  {
    if dates == [] then None
    else
      var init := dates[..|dates| - 1];
      var prev := EarliestOf(init);
      assert forall i :: 0 <= i < |init| ==> init[i] == dates[i];
      Earlier(prev, dates[|dates| - 1])
  }

  /** The dates of the articles followed by those of all notes. */
  function ItemDates(articles: seq<Article>, notes: seq<NoteEntry>): (r: seq<Option<int>>)
    ensures |r| == |articles| + |notes|
    ensures forall i :: 0 <= i < |articles| ==> r[i] == articles[i].date
    ensures forall j :: 0 <= j < |notes| ==> r[|articles| + j] == notes[j].date
  {
    seq(|articles|, i requires 0 <= i < |articles| => articles[i].date)
      + seq(|notes|, j requires 0 <= j < |notes| => notes[j].date)
  }

  /**
   * `getProjectStats`: counts every article, every note (dated or not) and
   * every language, and scans all dates for the earliest one; the days
   * since then are rounded up, and are 0 when nothing is dated.
   */
  method GetProjectStats(articles: seq<Article>, languages: seq<Language>, now: int)
    returns (stats: ProjectStats)
    ensures stats.totalNotes == NoteCount(languages)
    ensures stats.totalArticles == |articles| && stats.totalCategories == |languages|
    ensures stats.earliestDate == EarliestOf(ItemDates(articles, FlatNotes(languages)))
    ensures stats.earliestDate.None? ==> stats.daysSinceStart == 0
    ensures stats.earliestDate.Some? ==>
      (stats.daysSinceStart - 1) * Dates.MsPerDay < now - stats.earliestDate.value
        <= stats.daysSinceStart * Dates.MsPerDay
  {
    var allNotes := FlatNotes(languages);
    var earliest := ScanEarliest(ItemDates(articles, allNotes));
    var days := if earliest.Some? then Dates.CeilDiv(now - earliest.value, Dates.MsPerDay) else 0;
    stats := ProjectStats(|allNotes|, |articles|, |languages|, days, earliest);
  }

  /** The `forEach` over `[...articles, ...allNotes]` that keeps the earliest date. */
  method ScanEarliest(dates: seq<Option<int>>) returns (earliest: Option<int>)
    ensures earliest == EarliestOf(dates)
  {
    earliest := None;
    var i := 0;
    while i < |dates|
      invariant 0 <= i <= |dates|
      invariant earliest == EarliestOf(dates[..i])
    {
      var d := dates[i];
      if d.Some? && (earliest.None? || d.value < earliest.value) {
        earliest := d;
      }
      assert dates[..i + 1][..i] == dates[..i];
      i := i + 1;
    }
    assert dates[..i] == dates;
  }

  // ---------------------------------------------------------------------
  // Reading time
  // ---------------------------------------------------------------------

  /** Position `i` starts a word: a non-space character after a space or at the start. */
  predicate WordStart(s: string, i: int)
    requires 0 <= i < |s|
  {
    !IsJsWhitespace(s[i]) && (i == 0 || IsJsWhitespace(s[i - 1]))
  }

  /** The number of maximal runs of non-whitespace characters in `s`. */
  function WordCount(s: string): nat {
    if s == [] then 0
    else WordCount(s[..|s| - 1]) + (if WordStart(s, |s| - 1) then 1 else 0)
  }

  /** A text has no words exactly when it is all whitespace. */
  lemma {:induction false} WordCountZeroIffBlank(s: string)
    ensures WordCount(s) == 0 <==> IsBlank(s)
  {
    if s != [] {
      var p := s[..|s| - 1];
      WordCountZeroIffBlank(p);
      assert forall i :: 0 <= i < |p| ==> p[i] == s[i];
      if !IsJsWhitespace(s[|s| - 1]) && !IsBlank(p) {
        var i :| 0 <= i < |p| && !IsJsWhitespace(p[i]);
        WordCountPositive(p, i);
      }
    }
  }

  lemma {:induction false} WordCountPositive(s: string, i: int)
    requires 0 <= i < |s| && !IsJsWhitespace(s[i])
    ensures WordCount(s) > 0
  {
    var p := s[..|s| - 1];
    if i < |s| - 1 {
      assert p[i] == s[i];
      WordCountPositive(p, i);
    } else if !WordStart(s, i) {
      assert p[i - 1] == s[i - 1];
      WordCountPositive(p, i - 1);
    }
  }

  /** Words separated by whitespace are counted separately: the count adds up. */
  lemma {:induction false} WordCountJoin(a: string, c: char, b: string)
    requires IsJsWhitespace(c)
    ensures WordCount(a + [c] + b) == WordCount(a) + WordCount(b)
  {
    var s := a + [c] + b;
    if b == [] {
      assert s[..|s| - 1] == a;
    } else {
      var p := b[..|b| - 1];
      WordCountJoin(a, c, p);
      assert s[..|s| - 1] == a + [c] + p;
      assert WordStart(s, |s| - 1) <==> WordStart(b, |b| - 1);
      assert b[..|b| - 1] == p;
    }
  }

  /** Reading minutes at 200 words a minute, rounded up. */
  function ReadingMinutes(words: nat): (m: nat)
    ensures (m - 1) * 200 < words <= m * 200
  {
    Dates.CeilDiv(words, 200)
  }

  /**
   * `calculateReadingTime` over the already cleaned text, in Portuguese
   * exactly when the locale starts with "pt": no words give "less than one
   * minute", 1 to 200 words one minute, and more words the rounded-up
   * minutes, at least 2.
   */
  function CalculateReadingTime(text: string, locale: string, clean: string -> string): (r: string)
    ensures IsBlank(clean(text)) ==>
      r == if StartsWith(locale, "pt") then "Menos de 1 min" else "Less than 1 min"
    ensures 1 <= WordCount(clean(text)) <= 200 ==>
      r == if StartsWith(locale, "pt") then "1 min de leitura" else "1 min read"
    ensures WordCount(clean(text)) > 200 ==> exists m: nat ::
      m >= 2 && (m - 1) * 200 < WordCount(clean(text)) <= m * 200
      && r == NatToString(m) + (if StartsWith(locale, "pt") then " min de leitura" else " min read")
  {
    WordCountZeroIffBlank(clean(text));
    var minutes := ReadingMinutes(WordCount(clean(text)));
    if StartsWith(locale, "pt") then
      if minutes < 1 then "Menos de 1 min"
      else if minutes == 1 then "1 min de leitura"
      else NatToString(minutes) + " min de leitura"
    else
      if minutes < 1 then "Less than 1 min"
      else if minutes == 1 then "1 min read"
      else NatToString(minutes) + " min read"
  }
}
