# CommitToLearn blog core, in Dafny

CommitToLearn is a bilingual (pt-BR / en-US) study blog. This project models
the logic at its core and proves properties of it:

- the translation tables and the `t` lookup with `{param}` interpolation;
- locale detection, the stored preference in `localStorage` and the toggle;
- the content layer: articles and notes read from a directory tree;
- the latest-publications feed, sorted newest first and cut to a limit;
- the project statistics and the reading-time label;
- the date helpers: days since a date, sorting by date, relative time;
- the code-language heuristics and the display names of languages;
- the UI logic of the studies grid (filter and sort), a language card
  (progress, last date, tags), the latest-publications cards, and the
  header's language toggle with its path rewrite.

Modules, one per source file, plus three shared ones:

- `Wrappers`: Option and Result.
- `Strings`: the JavaScript string operations the code relies on. These
  are decimal rendering, `toLowerCase`/`toUpperCase` on ASCII and
  Latin-1, `trim` with JavaScript's whitespace set, `includes`/`indexOf`,
  and `replace` with a string pattern, which replaces the first
  occurrence and expands `$` patterns.
- `Sequences`: `Array.prototype.sort` with a numeric comparator (a stable
  sort, largest key first) and `slice(0, end)`.
- `I18n`, `Dates`, `Content`, `Highlighting`: the four utility files.
- `Catalog`: the shape of the languages catalogue and the latest-date scan
  that both the grid and the card perform.
- `StudiesGrid`, `LanguageCard`, `LatestPublications`, `Header`: the
  components' logic.

Conventions:

- Dates are integer milliseconds since the epoch, and the current time is
  a parameter (`now`).
- The file system is a value: a `Node` tree of files and folders. A file
  whose text cannot be read has no text.
- Front-matter parsing, markdown stripping, the reading-time library and
  the regular-expression engine are function parameters.
- The browser (`window`, `navigator`, `localStorage`) is the class
  `I18n.Browser`. Its storage map is updated in place.
- The header is the class `Header.Header`. Its locale state and
  `window.location.href` are fields. It navigates with the path rewrite
  as the component writes it (`Header.ToggledPathAsWritten`); the
  corrected rewrite of the finding below (`Header.ToggledPath`) is proved
  beside it, together with the paths on which the two agree.
- Front-matter parsing returns no value when `matter` throws: an article
  lookup then yields none, and a note walk fails.
- Translation keys are a datatype with one constructor per key of the
  tables, so a key outside the tables cannot be written.

## Model

| member | source | states |
|---|---|---|
| I18n.ParseLocale | blog/src/utils/i18n.ts:191 | only the strings "pt-BR" and "en-US" are locales, and each parses back to its own tag |
| I18n.ParseTagRoundTrip | blog/src/utils/i18n.ts:191 | every locale's tag parses back to that locale |
| I18n.ToggleLocale | blog/src/utils/i18n.ts:213-215 | the toggled locale differs from the current one |
| I18n.ToggleInvolutive | blog/src/utils/i18n.ts:213-215 | toggling twice gives back the starting locale |
| I18n.PtBRText | blog/src/utils/i18n.ts:9-78 | every pt-BR table entry is a non-empty string |
| I18n.EnUSText | blog/src/utils/i18n.ts:79-148 | every en-US table entry is a non-empty string |
| I18n.TableEntriesNonEmpty | blog/src/utils/i18n.ts:8-149 | no entry of either table is empty, so `||` never skips an entry |
| I18n.Resolve | blog/src/utils/i18n.ts:160 | the locale's entry if non-empty, else the pt-BR entry if non-empty, else the key itself |
| I18n.Lookup | blog/src/utils/i18n.ts:156-160 | the lookup always returns the requested locale's own, non-empty entry: the fallbacks are never reached |
| I18n.Translate | blog/src/utils/i18n.ts:156-170 | the loop over the parameters yields the looked-up entry with each `{name}` replaced in turn |
| I18n.InterpolateWithoutParams | blog/src/utils/i18n.ts:163-167 | without parameters the entry comes back unchanged |
| I18n.InterpolateReplacesFirstOnly | blog/src/utils/i18n.ts:165 | a parameter replaces only the first `{name}`; a later one stays |
| I18n.InterpolateLeadingPlaceholder | blog/src/utils/i18n.ts:165 | a leading `{name}` is replaced by the value and the rest is kept |
| I18n.MinutesReadEntry | blog/src/utils/i18n.ts:69 | the "minutes read" entry with a number gives "<n> min de leitura" or "<n> min read" |
| I18n.Browser.constructor | blog/src/utils/i18n.ts:175-201 | the browser's environment: window present or not, navigator languages, storage |
| I18n.Browser.DetectBrowserLocale | blog/src/utils/i18n.ts:175-182 | pt-BR without a window; en-US iff the language starts with "en"; an error iff both languages are missing |
| I18n.Browser.StoredLocale | blog/src/utils/i18n.ts:187-193 | a locale iff there is a window and the stored value is exactly one of the two tags |
| I18n.Browser.SetStoredLocale | blog/src/utils/i18n.ts:198-201 | storage gains the tag under "preferred-locale" when there is a window and is untouched otherwise; the stored locale is then read back |
| I18n.Browser.CurrentLocale | blog/src/utils/i18n.ts:206-208 | the stored locale when there is one, else the detected one |
| Strings.NatToString | blog/src/components/ui/LanguageCard.tsx:112 | a decimal numeral: digits only, no leading zero |
| Strings.NatToStringRoundTrip | blog/src/components/ui/LanguageCard.tsx:112 | the numeral's value is the number rendered |
| Strings.NatToStringInjective | blog/src/components/ui/LanguageCard.tsx:112 | different numbers render differently |
| Strings.LowerChar | blog/src/components/ui/StudiesGrid.tsx:33 | upper-case ASCII letters map to lower case; lower-case letters, digits and `-_.` are kept |
| Strings.ToLower | blog/src/components/ui/StudiesGrid.tsx:33 | lower-casing keeps the length and maps each character |
| Strings.UpperChar | blog/src/utils/content.ts:36 | lower-case ASCII letters map to upper case; other characters below U+00B5 are kept |
| Strings.TrimStart | blog/src/components/ui/StudiesGrid.tsx:32 | a suffix of the input that starts with a non-whitespace character, or is empty |
| Strings.TrimEnd | blog/src/components/ui/StudiesGrid.tsx:32 | a prefix of the input that ends with a non-whitespace character, or is empty |
| Strings.TrimEmptyIffBlank | blog/src/components/ui/StudiesGrid.tsx:32 | trimming gives "" exactly when the input is all whitespace |
| Strings.IndexOfFrom | blog/src/utils/i18n.ts:165 | the first occurrence of the pattern at or after a position, or none iff there is none |
| Strings.Includes | blog/src/components/ui/StudiesGrid.tsx:36 | true iff the pattern occurs somewhere |
| Strings.SubstituteLiteral | blog/src/utils/i18n.ts:165 | a replacement without `$` is inserted as it is |
| Strings.ReplaceFirst | blog/src/components/ui/Header.tsx:31 | a string without the pattern comes back unchanged |
| Strings.ReplaceFirstOnlyFirst | blog/src/utils/i18n.ts:165 | only the first occurrence is replaced; what precedes and follows it is kept |
| Sequences.Insert | blog/src/utils/content.ts:200 | inserting adds exactly the new element to the elements and nothing else |
| Sequences.InsertDescending | blog/src/utils/content.ts:200 | inserting into a descending sequence keeps it descending, and the new head is the element or the old head |
| Sequences.InsertWithKey | blog/src/utils/content.ts:200 | inserting puts the new element behind every earlier element with its key, which is what makes the sort stable |
| Sequences.SortDescending | blog/src/utils/content.ts:199-200 | the sort is a permutation of its input, ordered by key, largest first |
| Sequences.SortIsStable | blog/src/utils/content.ts:199-200 | elements with equal keys keep their relative order |
| Sequences.SliceTo | blog/src/utils/content.ts:201 | `slice(0, end)` is a prefix whose length is `end` clamped to the length, counting a negative end from the back |
| Sequences.PrefixDescending | blog/src/utils/content.ts:199-201 | a prefix of a descending sequence is descending |
| Sequences.PrefixWithKey | blog/src/utils/content.ts:199-201 | the equal-key elements of a prefix are a prefix of those of the whole |
| Dates.CeilDiv | blog/src/utils/dates.ts:39 | the ceiling of a quotient: the least r with a <= r*b |
| Dates.Abs | blog/src/utils/dates.ts:38 | the absolute value |
| Dates.CalculateDaysSince | blog/src/utils/dates.ts:35-41 | the least whole number of days covering the distance between the two instants |
| Dates.DaysSinceSymmetric | blog/src/utils/dates.ts:38 | a date the same distance in the past or the future is the same number of days away |
| Dates.IsWithinDays | blog/src/utils/dates.ts:86-90 | within n days iff at most n days of milliseconds away, in either direction |
| Dates.DaysSinceAtMost | blog/src/utils/dates.ts:35-41 | at most n days rounded up iff at most n days of milliseconds apart |
| Dates.SortByDate | blog/src/utils/dates.ts:46-55 | a permutation of the items, newest first, with items of equal date in their input order |
| Dates.DescendingEnds | blog/src/utils/dates.ts:66-80 | the first element of a sorted list is the newest and the last the oldest |
| Dates.GetMostRecentDate | blog/src/utils/dates.ts:60-68 | none iff no items; otherwise a date of some item, and no item is later |
| Dates.GetEarliestDate | blog/src/utils/dates.ts:73-81 | none iff no items; otherwise a date of some item, and no item is earlier |
| Dates.Bucket | blog/src/utils/dates.ts:98-132 | the unit chosen for each range of elapsed time, the count as the floored quotient, and "just now" below a minute |
| Dates.GetRelativeTime | blog/src/utils/dates.ts:95-134 | a future date or one less than a minute old reads "agora mesmo" / "just now"; any other starts with "há " under pt-BR and ends with " ago" under en-US |
| Dates.TwelveMonthsBeforeAYear | blog/src/utils/dates.ts:103-116 | 360 to 364 days read as 12 months, since months are 30 days and years 365 |
| Dates.EnglishPluralIffMany | blog/src/utils/dates.ts:111-131 | the English phrase ends in "s ago" iff the count is above 1 |
| Dates.PortuguesePluralIffMany | blog/src/utils/dates.ts:110-130 | the Portuguese phrase ends in "meses" for months, or in "s" for other units, iff the count is above 1 |
| Catalog.LatestDate | blog/src/components/ui/LanguageCard.tsx:27-33 | none iff no note is dated; otherwise a note's date, and no dated note is later |
| Catalog.ScanLatestDate | blog/src/components/ui/StudiesGrid.tsx:51-60 | the loop over the notes finds the latest date |
| Content.Find | blog/src/utils/content.ts:45 | a found entry has the name and is in the folder; none iff no entry has it |
| Content.ReplaceChar | blog/src/utils/content.ts:57 | each occurrence of the character is replaced and the rest kept |
| Content.CapitalizeTitle | blog/src/utils/content.ts:35-37 | the first character is replaced by its upper-case form (one or two characters) and the rest kept |
| Content.CapitalizeTitleIdempotent | blog/src/utils/content.ts:35-37 | capitalizing twice is capitalizing once |
| Content.DefaultArticleTitle | blog/src/utils/content.ts:57 | the slug with every '-' and '_' turned into a space |
| Content.DefaultNoteTitle | blog/src/utils/content.ts:130 | the slug with every '-' turned into a space |
| Content.Excerpt | blog/src/utils/content.ts:52-55 | the stripped own excerpt when truthy, else the first 200 stripped characters followed by "..." |
| Content.MakeArticle | blog/src/utils/content.ts:52-70 | every field of the article: slug and language as given, the capitalized front-matter or default title, the body as content, the excerpt rule, the front matter's date, category and tags, and the reading time of the body |
| Content.ArticleFile | blog/src/utils/content.ts:41-50 | the text of `<slug>.md` in the locale's folder; none when the folder or file is missing, the name is a folder, or the file is unreadable |
| Content.GetArticleBySlug | blog/src/utils/content.ts:39-75 | none without a readable `<slug>.md` or when its front matter fails to parse; otherwise exactly the article built from the parsed file |
| Content.Slug | blog/src/utils/content.ts:90 | the slug is the file name without its ".md" |
| Content.ArticleOf | blog/src/utils/content.ts:89-92 | an entry contributes exactly the article its lookup finds, if it is a ".md" entry |
| Content.ArticlesIn | blog/src/utils/content.ts:87-92 | at most one article per folder entry |
| Content.ArticlesInMembers | blog/src/utils/content.ts:87-92 | an article is listed iff it is what the lookup of some ".md" entry returns |
| Content.ArticlesInConcat | blog/src/utils/content.ts:87-92 | the listing follows folder order: listing two runs of entries joins their listings |
| Content.GetAllArticles | blog/src/utils/content.ts:77-97 | none without the locale's folder; otherwise an article is listed iff some ".md" entry's lookup returns it |
| Content.ArticlesInFoundBySlug | blog/src/utils/content.ts:87-92 | every article listed is what the lookup by its slug returns |
| Content.GetAllArticlesFoundBySlug | blog/src/utils/content.ts:77-97 | every article of the listing is found again by its slug |
| Content.ChildrenNotesFailureSticks | blog/src/utils/content.ts:118-136 | once an unreadable file makes the walk throw, the rest of the folder cannot undo it |
| Content.MakeNote | blog/src/utils/content.ts:128-134 | the note's slug is the file name without ".md", its title the front-matter title or the default one, its content the whole file, its category and path as found |
| Content.NoteWalk.constructor | blog/src/utils/content.ts:108 | the walk starts with no notes |
| Content.NoteWalk.WalkDir | blog/src/utils/content.ts:115-137 | the walk succeeds iff the folder's notes can be read and parsed, and then appends them in order |
| Content.GetAllNotes | blog/src/utils/content.ts:107-141 | the notes of the locale's folder; none if the walk throws |
| Content.NodeNotesWellPlaced | blog/src/utils/content.ts:123-133 | each note found under a node records its path, and its category is the folder holding it |
| Content.ChildrenNotesWellPlaced | blog/src/utils/content.ts:118-136 | the same for every note of a folder's entries |
| Content.AllNotesWellPlaced | blog/src/utils/content.ts:107-141 | every note's path ends with its file name, and its category is the folder holding it, or "" directly under the locale folder |
| Content.ArticlePubs | blog/src/utils/content.ts:167-179 | each article item comes from a dated article, with its slug, title and date |
| Content.LanguagePubs | blog/src/utils/content.ts:183-195 | each note item of a language carries the language's id, name and icon |
| Content.NotePubs | blog/src/utils/content.ts:182-196 | each note item comes from a dated note of some language |
| Content.ArticlePubsCount | blog/src/utils/content.ts:167-179 | one item per dated article |
| Content.LanguagePubsCount | blog/src/utils/content.ts:183-195 | one item per dated note of the language |
| Content.NotePubsCount | blog/src/utils/content.ts:182-196 | one item per dated note overall |
| Content.PushArticles | blog/src/utils/content.ts:167-179 | the loop pushes exactly the article items, in order |
| Content.PushNotes | blog/src/utils/content.ts:182-196 | the loop over languages appends exactly the note items, in order |
| Content.PushLanguageNotes | blog/src/utils/content.ts:183-195 | the loop over one language's notes appends exactly its note items, in order |
| Content.GetLatestPublications | blog/src/utils/content.ts:160-202 | the three loops and the sort and slice yield the feed's specification |
| Content.FeedLengthAndOrder | blog/src/utils/content.ts:199-201 | the feed holds the limit or all dated items, whichever is fewer, newest first |
| Content.FeedKeepsTies | blog/src/utils/content.ts:199-201 | items with the same date keep their order: articles before notes, in input order |
| Content.FeedProvenance | blog/src/utils/content.ts:164-196 | every item is a dated article with the same slug and date, or a note carrying the id and name of one of the languages |
| Content.FlatNotes | blog/src/utils/content.ts:219 | the flattened notes number the total count of notes |
| Content.EarliestOf | blog/src/utils/content.ts:222-231 | none iff nothing is dated; otherwise a date of some item, and no dated item is earlier |
| Content.ScanEarliest | blog/src/utils/content.ts:222-231 | the scan with `d < earliestDate` yields exactly the earliest date |
| Content.ItemDates | blog/src/utils/content.ts:224 | the articles' dates, then the notes' dates |
| Content.GetProjectStats | blog/src/utils/content.ts:215-244 | the note, article and category counts, the earliest date, and the ceiling of days since it (0 without one) |
| Content.WordCountZeroIffBlank | blog/src/utils/content.ts:259 | there are no words iff the text is all whitespace |
| Content.WordCountPositive | blog/src/utils/content.ts:259 | a text with a non-whitespace character has a word |
| Content.WordCountJoin | blog/src/utils/content.ts:259 | joining two texts with a whitespace character adds up their words |
| Content.ReadingMinutes | blog/src/utils/content.ts:260-261 | the least number of minutes at 200 words per minute |
| Content.CalculateReadingTime | blog/src/utils/content.ts:248-272 | blank text reads "less than 1 min", up to 200 words "1 min", more "<m> min" with m >= 2, in the locale's language |
| Highlighting.AnyMatches | blog/src/utils/highlighting.ts:21 | true iff some pattern matches |
| Highlighting.ShouldHighlight | blog/src/utils/highlighting.ts:7-22 | true iff one of the nine code patterns matches |
| Highlighting.IsCode | blog/src/utils/highlighting.ts:27-139 | each detector fires iff one of its patterns matches |
| Highlighting.DetectLanguage | blog/src/utils/highlighting.ts:144-153 | the result is one of the six language tags or none |
| Highlighting.DetectLanguageNoneIff | blog/src/utils/highlighting.ts:144-153 | none iff no detector fires |
| Highlighting.DetectLanguageFirstMatch | blog/src/utils/highlighting.ts:144-153 | the first detector to fire, in the order Docker, Java, Python, Go, JavaScript, SQL, decides the tag |
| Highlighting.DisplayNameAsWritten | blog/src/utils/highlighting.ts:158-177 | the lookup as written: a known name, an inherited `Object.prototype` member, or the input |
| Highlighting.DisplayNameAsWrittenLeaksPrototype | blog/src/utils/highlighting.ts:176 | "Constructor" yields the inherited `constructor` member, not a string |
| Highlighting.GetLanguageDisplayName | blog/src/utils/highlighting.ts:158-177 | a known language's display name, case-insensitively; any other input unchanged |
| Highlighting.DisplayNameAgreesOffPrototype | blog/src/utils/highlighting.ts:176 | apart from inherited member names, the corrected lookup agrees with the one as written |
| Highlighting.DisplayNameIgnoresCase | blog/src/utils/highlighting.ts:176 | inputs that differ only in case get the same known name |
| Highlighting.DetectableTagHasDisplayName | blog/src/utils/highlighting.ts:145-174 | each of the six tags detection returns has an entry of its own in the names table |
| Highlighting.DetectedTagHasDisplayName | blog/src/utils/highlighting.ts:144-177 | every detected tag has a display name of its own |
| Highlighting.TagHasDisplayName | blog/src/utils/highlighting.ts:145-174 | each detector's tag is a key of the display-name table |
| StudiesGrid.MaxNotes | blog/src/components/ui/StudiesGrid.tsx:25 | at least 1 and at least every language's note count; equal to one of them unless 1 |
| StudiesGrid.SomeTitleIncludes | blog/src/components/ui/StudiesGrid.tsx:38-40 | true iff some lower-cased note title contains the query |
| StudiesGrid.KeepMatching | blog/src/components/ui/StudiesGrid.tsx:34-41 | keeps exactly the languages whose name or a note title matches |
| StudiesGrid.BlankQueryKeepsAll | blog/src/components/ui/StudiesGrid.tsx:32 | a blank query keeps the whole list |
| StudiesGrid.QueryKeepsExactlyMatches | blog/src/components/ui/StudiesGrid.tsx:32-41 | a non-blank query keeps exactly the languages that match it lower-cased |
| StudiesGrid.QueryIsNotTrimmed | blog/src/components/ui/StudiesGrid.tsx:32-33 | " go" finds no language named "Go": the query is checked for blankness but used untrimmed |
| StudiesGrid.FilterAndSort | blog/src/components/ui/StudiesGrid.tsx:28-66 | a permutation of the filtered list, ordered by note count, by name or by latest date, with ties in their filtered order |
| LanguageCard.NotesUrl | blog/src/components/ui/LanguageCard.tsx:20-21 | "/en/studies/<id>" under en-US, "/estudos/<id>" under pt-BR |
| LanguageCard.NotesUrlsDiffer | blog/src/components/ui/LanguageCard.tsx:21 | the two addresses differ and both end with the id |
| LanguageCard.Progress | blog/src/components/ui/LanguageCard.tsx:24 | the percentage rounded to the nearest integer, halves up |
| LanguageCard.ProgressIsPercentage | blog/src/components/ui/LanguageCard.tsx:24 | the progress lies between 0 and 100 when the count is at most the maximum |
| LanguageCard.ProgressOfMaximumIsFull | blog/src/components/ui/LanguageCard.tsx:24 | the language with the most notes shows 100 |
| LanguageCard.LastDateLabel | blog/src/components/ui/LanguageCard.tsx:35-37 | the formatted date, or "—" without one |
| LanguageCard.CardDateLabel | blog/src/components/ui/LanguageCard.tsx:27-37 | "—" when no note is dated, else the latest date formatted |
| LanguageCard.TagBadges | blog/src/components/ui/LanguageCard.tsx:100-116 | at most the first three tags, and "+k" iff more than three |
| LanguageCard.TagBadgesAccountForAll | blog/src/components/ui/LanguageCard.tsx:100-116 | shown tags plus the number on the badge count every tag |
| LatestPublications.PublicationUrl | blog/src/components/ui/LatestPublications.tsx:14-23 | "/articles/<slug>" or "/notes/<category>/<slug>", with "/en" in front under en-US |
| LatestPublications.EnglishUrlPrefixesPortuguese | blog/src/components/ui/LatestPublications.tsx:14-23 | the English address is the Portuguese one with "/en" in front |
| LatestPublications.ToggleMapsCardUrls | blog/src/components/ui/LatestPublications.tsx:14-23 | the header's toggle, rewriting the path as the component does, maps each card's address to the same card in the other language, both ways |
| LatestPublications.BadgeText | blog/src/components/ui/LatestPublications.tsx:52-54 | the articles badge entry for an article, the notes badge entry for a note |
| LatestPublications.BadgesTellKindsApart | blog/src/components/ui/LatestPublications.tsx:52-54 | the two badges differ in each locale |
| LatestPublications.CardKey | blog/src/components/ui/LatestPublications.tsx:59 | the key starts with the kind's initial and ends with the slug |
| LatestPublications.CardKeyInjective | blog/src/components/ui/LatestPublications.tsx:59 | two keys are equal iff kind and slug are |
| LatestPublications.CardKeysDistinct | blog/src/components/ui/LatestPublications.tsx:50-59 | publications with distinct kind and slug get distinct keys |
| LatestPublications.FooterLabel | blog/src/components/ui/LatestPublications.tsx:102 | the language when truthy, else the category |
| LatestPublications.NoteCardNamesLanguage | blog/src/components/ui/LatestPublications.tsx:19-21 | a note's card shows its language's name and links under its language id |
| LatestPublications.ArticleCardNamesCategory | blog/src/components/ui/LatestPublications.tsx:102 | an article's card shows its category |
| LatestPublications.MakeCard | blog/src/components/ui/LatestPublications.tsx:50-110 | a card's key, address, badge, short date label, title, icon (the language icon itself when truthy), footer and "read" label |
| LatestPublications.Cards | blog/src/components/ui/LatestPublications.tsx:50 | one card per publication, in order |
| LatestPublications.SeeAllHref | blog/src/components/ui/LatestPublications.tsx:34 | the locale's studies page |
| Header.EnglishPath | blog/src/components/ui/Header.tsx:30 | the English path starts with "/en"; "/" becomes "/en", and any other path follows the "/en" unchanged |
| Header.ToggledPathAsWritten | blog/src/components/ui/Header.tsx:29-31 | the rewrite as written: "/en" prefixed towards English; towards Portuguese a path without "/en" is kept, "" becoming "/" |
| Header.ToggledPathAsWrittenRemovesFirst | blog/src/components/ui/Header.tsx:31 | towards Portuguese the first "/en", wherever it starts, is removed and the rest kept, an empty result becoming "/" |
| Header.ToggledPathAsWrittenMangles | blog/src/components/ui/Header.tsx:31 | "/articles/entendendo" becomes "/articlestendendo" |
| Header.ToggleRoundTripAsWritten | blog/src/components/ui/Header.tsx:29-31 | the rewrite as written still undoes its own prefix |
| Header.StripEnglishPrefix | blog/src/components/ui/Header.tsx:31 | removes a leading "/en" segment and leaves other paths alone |
| Header.ToggledPath | blog/src/components/ui/Header.tsx:29-31 | the corrected rewrite: "/en" prefixed, or a leading "/en" segment removed |
| Header.ToggleRoundTrip | blog/src/components/ui/Header.tsx:29-31 | English and back returns to any site path |
| Header.ToggleRoundTripFromEnglish | blog/src/components/ui/Header.tsx:29-31 | Portuguese and back returns to any English path other than "/en/" |
| Header.ToggledPathsAgree | blog/src/components/ui/Header.tsx:29-31 | the rewrite as written and the corrected one agree unless "/en" occurs other than as the leading segment |
| Header.NavText | blog/src/components/ui/Header.tsx:36-44 | "Estudos", "Artigos", "EN" under pt-BR and "Studies", "Articles", "PT" under en-US; Portuguese labels iff pt-BR |
| Header.ToggleLabelNamesTarget | blog/src/components/ui/Header.tsx:36-44 | the toggle button names the language it switches to |
| Header.Header.constructor | blog/src/components/ui/Header.tsx:9-10 | the first render is pt-BR on the current page |
| Header.Header.Mount | blog/src/components/ui/Header.tsx:13-14 | the header adopts the current locale; `ok` is false exactly when detection throws, and the error escapes with the state unchanged |
| Header.Header.ToggleLanguage | blog/src/components/ui/Header.tsx:24-34 | the locale flips, is stored, and the browser goes to the path rewritten as the component writes it |

## Left out

- Case mapping covers ASCII and Latin-1. Other Unicode case pairs are not modelled, and neither are UTF-16 code units.
- `gray-matter`, `fs`/`path`, the regular-expression engine, `stripMarkdown`, the reading-time cleaning regexes and the `reading-time` library are function parameters or a value tree. Their internals are not modelled.
- `readdirSync` order is taken as the order of a folder's children.
- Dates are integer milliseconds. Parsing of date strings, invalid dates and floating-point precision are not modelled.
- `formatDate`, `formatDateShort` and `toLocaleDateString` (Intl) are function parameters.
- `localeCompare` is an integer rank supplied by the caller.
- The dynamic import of `languages.json` is a parameter: the list of languages.
- Content.GetLatestPublications and Content.GetProjectStats take the list of articles as a parameter, where the source calls `getAllArticles(lang)` itself; passing `Content.GetAllArticles` of the locale's folder gives the source's input.
- Scrolling, debounce, the clipboard, the table of contents and the other presentation components are not part of this model.
- The site configuration is not part of this model.
- I18n.Translate: keys are a datatype, so a call of `t` with a name outside the tables (an `Object.prototype` name, for one) is not modelled.
- StudiesGrid.SomeTitleIncludes: a note's `title` is taken as always present; the `?.` in the search that skips a missing title is not modelled.
- LanguageCard.Progress: requires a positive maximum. The grid always passes at least 1, so the division by zero of `maxNotes = 0` is not modelled. It rounds the exact fraction half up, whereas `Math.round((notes / maxNotes) * 100)` rounds a double: where the double product falls just below a half, the page rounds down and the model up. For 23 notes of a maximum of 40 the product is 57.49999999999999, so the page shows 57 and the model 58; 29 of 200 likewise gives 14 against 15.
- A slug containing "/" names one folder entry: the lookup finds no entry of that name and yields none, whereas `path.join` would read the file in the nested folder.
- Default arguments (`limit = 8`, `lang = 'pt-BR'`, `locale = defaultLocale`, `currentPath = '/'`) are not modelled: every argument is passed explicitly.
- The `console.error` logging in the `catch` blocks is not modelled; only the value returned after the error is.
- Front-matter values are typed: a `title` that is not a string (on which `capitalizeTitle` throws, so the article lookup yields `null`) and dates that are not date values are not modelled.
- Header.Header.Mount: scroll listening and its cleanup are not modelled; a throwing detection is reported by `ok`, and what React then does with the error is not modelled.
- Header.ToggleRoundTripFromEnglish: "/en/" comes back as "/en", so it is excluded.

## Findings

| source | as written | input that shows it | evidently intended | confidence | as-written member | corrected member |
|---|---|---|---|---|---|---|
| blog/src/components/ui/Header.tsx:31 | switching to Portuguese removes the first "/en" anywhere in the path | "/articles/entendendo" becomes "/articlestendendo" | remove only a leading "/en" segment, so toggling back and forth returns to the same page | not executed; high | Header.ToggledPathAsWrittenMangles | Header.ToggleRoundTripFromEnglish |
| blog/src/utils/highlighting.ts:176 | the name table is a plain object, so an inherited `Object.prototype` member is found by name | "Constructor" yields the `Object` constructor function instead of a string | look up only the table's own keys and fall back to the input | not executed; medium | Highlighting.DisplayNameAsWrittenLeaksPrototype | Highlighting.GetLanguageDisplayName |
