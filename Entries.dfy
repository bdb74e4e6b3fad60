/**
 * The diary entry, the entry list shared by the screen and its list adapter, and the
 * adapter's row logic (EntryAdapter.kt).
 */
module Entries {
  import opened Wrappers

  /** One diary record: a formatted day ("EEEE, d MMMM") and its text; "" means not yet written. */
  datatype DiaryEntry = DiaryEntry(date: string, content: string)

  /** The view types the adapter hands to the RecyclerView. */
  const ENTRY_VIEW_TYPE: int := 1
  const INPUT_VIEW_TYPE: int := 2

  /** A row takes input when its entry is today's and still empty. */
  predicate IsInputRow(e: DiaryEntry, today: string)
  {
    e.content == "" && e.date == today
  }

  /** Whether some entry of `s` carries the date `date` (Kotlin's `!s.none { it.date == date }`). */
  function HasEntryFor(s: seq<DiaryEntry>, date: string): (b: bool)
    ensures b <==> exists i :: 0 <= i < |s| && s[i].date == date
  {
    if s == [] then false
    else if s[0].date == date then true
    else
      var b := HasEntryFor(s[1..], date);
      assert forall i :: 1 <= i < |s| ==> s[i] == s[1..][i - 1];
      b
  }

  /** The single MutableList<DiaryEntry> that the activity and the adapter both hold. */
  class EntryList {
    var items: seq<DiaryEntry>

    constructor ()
      ensures items == []
    {
      items := [];
    }
  }

  /** What the click listener was invoked with: the row's position and the typed text. */
  datatype Submission = Submission(position: int, text: string)

  class EntryAdapter {
    const entries: EntryList
    /** Whether `setOnEntryButtonClickListener` has installed a listener (it is nullable). */
    var hasListener: bool

    constructor (entries: EntryList)
      ensures this.entries == entries && !hasListener
    {
      this.entries := entries;
      hasListener := false;
    }

    /** getItemCount: one row per entry of the shared list. */
    function ItemCount(): (n: int)
      reads entries
      ensures n == |entries.items|
      ensures forall p, today :: 0 <= p < n ==> ItemViewType(p, today) == ENTRY_VIEW_TYPE || ItemViewType(p, today) == INPUT_VIEW_TYPE
    {
      |entries.items|
    }

    /** getItemViewType, with the clock's current day passed in as `today`. */
    function ItemViewType(position: int, today: string): (t: int)
      reads entries
      requires 0 <= position < |entries.items|
      ensures t == INPUT_VIEW_TYPE || t == ENTRY_VIEW_TYPE
      ensures t == INPUT_VIEW_TYPE <==> entries.items[position].content == "" && entries.items[position].date == today
    {
      if IsInputRow(entries.items[position], today) then INPUT_VIEW_TYPE else ENTRY_VIEW_TYPE
    }

    method SetOnEntryButtonClickListener()
      modifies this`hasListener
      ensures hasListener
    {
      hasListener := true;
    }

    /**
     * The input row's button handler. `bound` is the entry the row was bound to, `text` the
     * contents of the text field. Returns the listener invocation, if one happened.
     */
    method OnButtonClick(position: int, bound: DiaryEntry, text: string) returns (invoked: Option<Submission>)
      requires text != "" ==> 0 <= position < |entries.items|
      modifies entries
      ensures text == "" ==> entries.items == old(entries.items) && invoked == None
      ensures text != "" ==> entries.items == old(entries.items)[position := DiaryEntry(bound.date, text)]
      ensures text != "" ==> invoked == if hasListener then Some(Submission(position, text)) else None
      ensures text != "" ==> forall today :: ItemViewType(position, today) == ENTRY_VIEW_TYPE
    {
      invoked := None;
      if text != "" {
        entries.items := entries.items[position := DiaryEntry(bound.date, text)];
        if hasListener {
          invoked := Some(Submission(position, text));
        }
      }
    }
  }
}
