/**
 * The diary screen (MainActivity.kt): it owns the entry list it shares with the adapter and the
 * "DiaryEntries" preferences, and wires the adapter's submit event to the remote rewrite.
 */
module Activity {
  import opened Wrappers
  import opened Entries
  import opened Store

  /** The request body sent to the completions endpoint; `max_tokens` keeps its default. */
  datatype ChatGPTRequest = ChatGPTRequest(prompt: string, max_tokens: int)

  const DEFAULT_MAX_TOKENS: int := 4

  /** The parsed response body; Gson leaves the field null when the JSON lacks it. */
  datatype ChatGPTResponse = ChatGPTResponse(transformedText: Option<string>)

  /** How the enqueued call completed: a 2xx response, another HTTP status, or onFailure. */
  datatype Outcome =
    | Success(body: Option<ChatGPTResponse>)
    | HttpError(code: int)
    | TransportFailure(message: string)

  /** The text `onResponse` hands to onSuccess, if it calls it at all. */
  function SuccessText(o: Outcome): (r: Option<string>)
    ensures r.Some? <==> o.Success?
    ensures o.Success? && o.body.Some? && o.body.value.transformedText.Some? ==> r == o.body.value.transformedText
    ensures o.Success? && (o.body.None? || o.body.value.transformedText.None?) ==> r == Some("")
  {
    match o
    case Success(body) =>
      if body.Some? && body.value.transformedText.Some? then body.value.transformedText else Some("")
    case HttpError(_) => None
    case TransportFailure(_) => None
  }

  class MainActivity {
    const entries: EntryList
    const adapter: EntryAdapter
    /** The "DiaryEntries" preferences file. */
    var prefs: Prefs
    /** Whether `httpClient` has been built (it is null until the end of onCreate). */
    var clientReady: bool

    ghost predicate Valid()
      reads this
    {
      adapter.entries == entries && Typed(prefs)
    }

    /** The activity's field initialisers: one list, handed to the adapter. */
    constructor (stored: Prefs)
      requires Typed(stored)
      ensures Valid() && fresh(entries) && fresh(adapter)
      ensures prefs == stored && entries.items == [] && !adapter.hasListener && !clientReady
    {
      var list := new EntryList();
      entries := list;
      adapter := new EntryAdapter(list);
      prefs := stored;
      clientReady := false;
    }

    /** Clears the list and rebuilds it from the stored records, in index order. */
    method LoadEntriesFromStorage()
      requires Valid()
      modifies entries
      ensures Valid()
      ensures entries.items == Loaded(prefs)
    {
      var count := Count(prefs);
      entries.items := [];
      var i := 0;
      while i < count as int
        invariant 0 <= i <= |Loaded(prefs)|
        invariant entries.items == Loaded(prefs)[..i]
      {
        var date := GetString(prefs, DateKey(i), "");
        var content := GetString(prefs, ContentKey(i), "");
        entries.items := entries.items + [DiaryEntry(date, content)];
        i := i + 1;
      }
    }

    /** Appends `entry` as record number `EntryCount` and bumps the count. */
    method SaveEntryToStorage(entry: DiaryEntry)
      requires Valid()
      modifies this`prefs
      ensures Valid()
      ensures prefs == Saved(old(prefs), entry)
    {
      var currentCount := Count(prefs);
      KeysDistinct(currentCount as int, currentCount as int);
      var editor := prefs;
      editor := editor[DateKey(currentCount as int) := StrPref(entry.date)];
      editor := editor[ContentKey(currentCount as int) := StrPref(entry.content)];
      editor := editor[ENTRY_COUNT := IntPref(Inc32(currentCount))];
      prefs := editor;
    }

    /** The startup check: put an empty entry for `today` in front unless one already exists. */
    method EnsureTodayEntry(today: string)
      modifies entries
      ensures HasEntryFor(old(entries.items), today) ==> entries.items == old(entries.items)
      ensures !HasEntryFor(old(entries.items), today) ==> entries.items == [DiaryEntry(today, "")] + old(entries.items)
      ensures HasEntryFor(entries.items, today)
    {
      if !HasEntryFor(entries.items, today) {
        entries.items := [DiaryEntry(today, "")] + entries.items;
        assert entries.items[0].date == today;
      }
    }

    /** onCreate, with the clock's current day passed in as `today`. */
    method OnCreate(today: string)
      requires Valid()
      modifies entries, adapter`hasListener, this`clientReady
      ensures Valid() && prefs == old(prefs) && adapter.hasListener && clientReady
      ensures entries.items ==
        if HasEntryFor(Loaded(prefs), today) then Loaded(prefs) else [DiaryEntry(today, "")] + Loaded(prefs)
      ensures HasEntryFor(entries.items, today)
    {
      LoadEntriesFromStorage();
      EnsureTodayEntry(today);
      adapter.SetOnEntryButtonClickListener();
      clientReady := true;
    }

    /** The onSuccess callback: keep the row's date, take the rewritten text, and save it. */
    method OnTransformed(position: int, transformedText: string)
      requires Valid() && 0 <= position < |entries.items|
      modifies entries, this`prefs
      ensures Valid()
      ensures var e := DiaryEntry(old(entries.items[position].date), transformedText);
        entries.items == old(entries.items)[position := e] && prefs == Saved(old(prefs), e)
    {
      entries.items := entries.items[position := DiaryEntry(entries.items[position].date, transformedText)];
      SaveEntryToStorage(entries.items[position]);
    }

    /**
     * sendTextToChatGPT(text) with the onSuccess callback for row `position`, completed by
     * `outcome`. Returns the request that was enqueued, if any.
     */
    method SendTextToChatGPT(position: int, text: string, outcome: Outcome) returns (sent: Option<ChatGPTRequest>)
      requires Valid()
      requires clientReady && outcome.Success? ==> 0 <= position < |entries.items|
      modifies entries, this`prefs
      ensures Valid()
      ensures sent == if clientReady then Some(ChatGPTRequest(text, DEFAULT_MAX_TOKENS)) else None
      ensures clientReady && outcome.Success? ==>
        var e := DiaryEntry(old(entries.items[position].date), SuccessText(outcome).value);
        entries.items == old(entries.items)[position := e] && prefs == Saved(old(prefs), e)
      ensures !(clientReady && outcome.Success?) ==> entries.items == old(entries.items) && prefs == old(prefs)
    {
      if !clientReady {
        return None;
      }
      sent := Some(ChatGPTRequest(text, DEFAULT_MAX_TOKENS));
      match SuccessText(outcome)
      case Some(transformedText) =>
        OnTransformed(position, transformedText);
      case None =>
    }

    /**
     * A press of the input row's button at `position` with `text` in its field: the adapter's
     * handler, then the listener onCreate installed, then the call's completion `outcome`.
     */
    method SubmitRow(position: int, text: string, outcome: Outcome)
      requires Valid() && 0 <= position < |entries.items|
      modifies entries, this`prefs
      ensures Valid()
      ensures text == "" ==> entries.items == old(entries.items) && prefs == old(prefs)
      ensures text != "" && adapter.hasListener && clientReady && outcome.Success? ==>
        var e := DiaryEntry(old(entries.items[position].date), SuccessText(outcome).value);
        entries.items == old(entries.items)[position := e] && prefs == Saved(old(prefs), e)
      ensures text != "" && !(adapter.hasListener && clientReady && outcome.Success?) ==>
        entries.items == old(entries.items)[position := DiaryEntry(old(entries.items[position].date), text)] &&
        prefs == old(prefs)
      ensures text != "" && !(adapter.hasListener && clientReady && outcome.Success?) ==>
        forall today :: !IsInputRow(entries.items[position], today)
    {
      var bound := entries.items[position];
      var invoked := adapter.OnButtonClick(position, bound, text);
      if invoked.Some? {
        var _ := SendTextToChatGPT(invoked.value.position, invoked.value.text, outcome);
      }
    }
  }
}
