/**
 * One language's card in the studies grid: where it links, how full its
 * progress bar is, the date of its latest note and the tags it shows.
 */
module LanguageCard {
  import opened Wrappers
  import opened Strings
  import opened I18n
  import opened Catalog

  /** `notesUrl`: the English studies page under en-US, the Portuguese one otherwise. */
  function NotesUrl(l: Locale, id: string): (r: string)
    ensures l == EnUS ==> r == "/en/studies/" + id
    ensures l == PtBR ==> r == "/estudos/" + id
  {
    if l == EnUS then "/en/studies/" + id else "/estudos/" + id
  }

  /** The two addresses of a card differ, and both end with the language id. */
  lemma NotesUrlsDiffer(id: string)
    ensures NotesUrl(EnUS, id) != NotesUrl(PtBR, id)
    ensures NotesUrl(EnUS, id)[|NotesUrl(EnUS, id)| - |id|..] == id
    ensures NotesUrl(PtBR, id)[|NotesUrl(PtBR, id)| - |id|..] == id
  {
    assert NotesUrl(EnUS, id)[2] != NotesUrl(PtBR, id)[2];
  }

  /**
   * `progress = Math.round(notes / maxNotes * 100)`: the percentage
   * rounded to the nearest integer, halves rounding up.
   */
  function Progress(notes: nat, maxNotes: nat): (r: int)
    requires maxNotes > 0
    ensures 2 * r * maxNotes - maxNotes <= 200 * notes < 2 * r * maxNotes + maxNotes
  {
    var q := (200 * notes + maxNotes) / (2 * maxNotes);
    var m := (200 * notes + maxNotes) % (2 * maxNotes);
    assert 200 * notes + maxNotes == 2 * maxNotes * q + m;
    assert 2 * q * maxNotes == 2 * maxNotes * q;
    q
  }

  /** With at most the maximum number of notes, the bar is filled 0 to 100 percent. */
  lemma ProgressIsPercentage(notes: nat, maxNotes: nat)
    requires 0 < maxNotes && notes <= maxNotes
    ensures 0 <= Progress(notes, maxNotes) <= 100
  {
    var r := Progress(notes, maxNotes);
    assert (2 * r + 1) * maxNotes == 2 * r * maxNotes + maxNotes;
    assert (202 - 2 * r) * maxNotes == 202 * maxNotes - 2 * r * maxNotes;
    PositiveFactor(2 * r + 1, maxNotes);
    PositiveFactor(202 - 2 * r, maxNotes);
  }

  lemma PositiveFactor(a: int, m: int)
    requires m > 0 && a * m > 0
    ensures a > 0
  {
  }

  /** The language with the most notes fills its bar. */
  lemma ProgressOfMaximumIsFull(maxNotes: nat)
    requires maxNotes > 0
    ensures Progress(maxNotes, maxNotes) == 100
  {
  }

  /** The date label: the formatted latest date, or a dash when no note is dated. */
  function LastDateLabel(lastDate: Option<int>, format: int -> string): (r: string)
    ensures lastDate.None? ==> r == "—"
    ensures lastDate.Some? ==> r == format(lastDate.value)
  {
    match lastDate
    case None => "—"
    case Some(d) => format(d)
  }

  /** The card's date label, from a scan over its notes. */
  method CardDateLabel(language: Language, format: int -> string) returns (text: string)
    ensures (forall i :: 0 <= i < |language.notes| ==> language.notes[i].date.None?) ==> text == "—"
    ensures LatestDate(language.notes).Some? ==> text == format(LatestDate(language.notes).value)
  {
    var lastDate := ScanLatestDate(language.notes);
    text := LastDateLabel(lastDate, format);
  }

  /** The tags a card shows, and the "+k" badge counting the rest. */
  datatype TagView = TagView(shown: seq<string>, more: Option<string>)

  /**
   * At most the first three tags are shown, and "+k" counts the hidden ones
   * when there are any; absent or empty tags show nothing.
   */
  function TagBadges(tags: Option<seq<string>>): (v: TagView)
    ensures tags.None? || tags.value == [] ==> v == TagView([], None)
    ensures tags.Some? ==> |v.shown| <= 3 && v.shown <= tags.value
    ensures tags.Some? ==> (v.more.Some? <==> |tags.value| > 3)
    ensures tags.Some? && |tags.value| > 3 ==> v.more == Some("+" + NatToString(|tags.value| - 3))
  {
    match tags
    case None => TagView([], None)
    case Some(ts) =>
      if ts == [] then TagView([], None)
      else
        var shown := if |ts| < 3 then ts else ts[..3];
        TagView(shown, if |ts| > 3 then Some("+" + NatToString(|ts| - 3)) else None)
  }

  /** Shown tags and the number on the "+k" badge add up to all the tags. */
  lemma TagBadgesAccountForAll(tags: seq<string>)
    ensures var v := TagBadges(Some(tags));
      |v.shown| + (if v.more.Some? then |tags| - 3 else 0) == |tags|
      && (v.more.Some? ==> DigitsValue(v.more.value[1..]) == |tags| - 3)
  {
    var v := TagBadges(Some(tags));
    if |tags| > 3 {
      assert v.more.value[1..] == NatToString(|tags| - 3);
      NatToStringRoundTrip(|tags| - 3);
    }
  }
}
