/**
 * The languages data set of the studies section: each language with its
 * notes, and the scan for a language's most recent note date that the
 * studies grid and the language card both perform.
 */
module Catalog {
  import opened Wrappers

  /** One note of a language; `date` is absent when the data set leaves it empty. */
  datatype NoteEntry = NoteEntry(title: string, date: Option<int>, slug: string)

  datatype Language = Language(
    id: string,
    name: string,
    icon: string,
    notes: seq<NoteEntry>,
    tags: Option<seq<string>>)

  /** The later of a running maximum and one more optional date. */
  function Later(latest: Option<int>, d: Option<int>): Option<int> {
    match d
    case None => latest
    case Some(v) => if latest.None? || v > latest.value then Some(v) else latest
  }

  /**
   * The most recent date among the notes that have one, or `None` when no
   * note is dated.
   */
  function LatestDate(notes: seq<NoteEntry>): (r: Option<int>)
    ensures r.None? <==> forall i :: 0 <= i < |notes| ==> notes[i].date.None?
    ensures r.Some? ==> exists i :: 0 <= i < |notes| && notes[i].date == r
    ensures r.Some? ==> forall i :: 0 <= i < |notes| && notes[i].date.Some? ==> notes[i].date.value <= r.value
  {
    if notes == [] then None
    else
      var init := notes[..|notes| - 1];
      var prev := LatestDate(init);
      assert forall i :: 0 <= i < |init| ==> init[i] == notes[i];
      Later(prev, notes[|notes| - 1].date)
  }

  /**
   * The scan over a language's notes that keeps the latest date seen so
   * far, starting from none.
   */
  method ScanLatestDate(notes: seq<NoteEntry>) returns (latest: Option<int>)
    ensures latest == LatestDate(notes)
  {
    latest := None;
    var i := 0;
    while i < |notes|
      invariant 0 <= i <= |notes|
      invariant latest == LatestDate(notes[..i])
    {
      var d := notes[i].date;
      if d.Some? && (latest.None? || d.value > latest.value) {
        latest := d;
      }
      assert notes[..i + 1][..i] == notes[..i];
      i := i + 1;
    }
    assert notes[..i] == notes;
  }
}
