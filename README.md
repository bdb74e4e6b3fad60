# AI Diary: entry list and preferences store

A Dafny model of the core of the AI Diary Android app. The app is meant to keep one diary entry per day.
Each entry is a formatted date and a text. Today's entry starts empty. The user types a line
into it, and a remote completion service rewrites that line. The rewritten entry is then
appended to a SharedPreferences file.

The model covers:

- `Entries` (EntryAdapter.kt)
  - `DiaryEntry`, the record type.
  - `EntryList`, the one mutable list that the activity and the adapter share. It is a class,
    so the adapter's in-place write is seen by the activity.
  - `EntryAdapter`: the item count, the input/display classification of a row, and the input
    row's button handler. The handler ignores empty text. Otherwise it overwrites the row and
    invokes the listener, if one is installed.
- `Store` (MainActivity.kt)
  - The "DiaryEntries" preferences file as a map from keys to int or string values.
  - `EntryCount` is an int. `EntryDate_i` and `EntryContent_i` are the strings of record `i`.
    The keys are spelled out with the decimal form of `i`, including a minus sign.
  - `Loaded` and `Saved` say what a load reads and what a save writes.
  - Lemmas relate the two: round trip, frame, duplicate dates.
  - The count's increment wraps at 2^31 - 1, as a Kotlin `Int` does.
- `Activity` (MainActivity.kt)
  - `MainActivity` as a class that holds the shared list, the adapter and the preferences.
  - Methods for load, save, the startup check for today's entry, onCreate, the success
    callback, the dispatch on how the remote call ended, and a whole button press: handler,
    listener, call and completion.

The current day comes in as a `today` parameter instead of being read from the clock. How the
remote call ended is an `Outcome` value:

- `Success` carries the optional body, whose `transformedText` may itself be null.
- `HttpError` is a non-2xx status.
- `TransportFailure` is `onFailure`.

Behaviour of the code worth knowing:

- The button handler writes the typed text into the row before the request is sent. If the
  call fails, the row keeps the raw text, which is not saved. The row is then no longer an
  input row, so it cannot be resubmitted until the next start. `SubmitRow` states this.
- A 2xx response whose body or `transformedText` is null passes `""` to the callback. An empty
  record is then saved, and the row becomes an input row again.
- Nothing tracks a request in flight, so a second submission for the same row is not refused.
- Loading does not de-duplicate by date. Every save appends a record (`SaveDuplicatesDate`).
- At a stored count of Int.MAX_VALUE the increment wraps to Int.MIN_VALUE, and the next load
  is empty (`SaveAtMaxCountLosesEntries`).

## Model

| member | source | states |
|---|---|---|
| Entries.HasEntryFor | app/src/main/java/com/example/aidiary/MainActivity.kt:50 | true exactly when some entry of the list carries the given date |
| Entries.EntryAdapter.constructor | app/src/main/java/com/example/aidiary/EntryAdapter.kt:13-16 | the adapter holds the list it was given and no listener yet |
| Entries.EntryAdapter.ItemCount | app/src/main/java/com/example/aidiary/EntryAdapter.kt:29 | the count equals the length of the shared list, and every position below it is a row with one of the two view types |
| Entries.EntryAdapter.ItemViewType | app/src/main/java/com/example/aidiary/EntryAdapter.kt:31-34 | a row is INPUT_VIEW_TYPE (2) iff its content is empty and its date is today; otherwise ENTRY_VIEW_TYPE (1) |
| Entries.EntryAdapter.SetOnEntryButtonClickListener | app/src/main/java/com/example/aidiary/EntryAdapter.kt:50-52 | a listener is installed afterwards |
| Entries.EntryAdapter.OnButtonClick | app/src/main/java/com/example/aidiary/EntryAdapter.kt:59-66 | empty text changes nothing and invokes nothing; non-empty text replaces only that position with (bound date, text), invokes the listener once with that position and text when one is set, and leaves the row classified as a display row for every day |
| Store.Inc32 | app/src/main/java/com/example/aidiary/MainActivity.kt:109 | below Int.MAX_VALUE the new count is the old count plus one; at Int.MAX_VALUE it wraps to Int.MIN_VALUE |
| Store.NatToStringInjective | app/src/main/java/com/example/aidiary/MainActivity.kt:107-108 | distinct non-negative indices give distinct decimal spellings |
| Store.IntToStringInjective | app/src/main/java/com/example/aidiary/MainActivity.kt:107-108 | distinct Int indices, negative ones included, give distinct key suffixes |
| Store.KeysDistinct | app/src/main/java/com/example/aidiary/MainActivity.kt:93-94 | the date key and content key of each record differ from those of every other record, from each other and from "EntryCount" |
| Store.Loaded | app/src/main/java/com/example/aidiary/MainActivity.kt:88-96 | no "EntryCount" loads nothing; otherwise one entry per index below a positive count, none for a count <= 0; entry i has the stored date and content of record i, and "" for each missing field |
| Store.Saved | app/src/main/java/com/example/aidiary/MainActivity.kt:101-112 | the file stays well-typed, the count becomes the old count plus one (wrapping), and record number old-count reads back as the saved entry |
| Store.SaveKeepsOtherRecords | app/src/main/java/com/example/aidiary/MainActivity.kt:105-109 | a save leaves the date and content keys of every record other than the one at the old count exactly as they were, present or absent |
| Store.SaveThenLoad | app/src/main/java/com/example/aidiary/MainActivity.kt:86-112 | for a stored count in 0 .. Int.MAX_VALUE - 1, loading after a save yields the previous load with the saved entry appended |
| Store.SaveAtMaxCountLosesEntries | app/src/main/java/com/example/aidiary/MainActivity.kt:105-109 | with the stored count at Int.MAX_VALUE the file loads 2^31 - 1 rows before the save and none after it, because the count wraps to Int.MIN_VALUE |
| Store.SaveTwiceIntoEmptyThenLoad | app/src/main/java/com/example/aidiary/MainActivity.kt:86-112 | saving e1 then e2 into an empty file and loading yields exactly [e1, e2] |
| Store.SaveDuplicatesDate | app/src/main/java/com/example/aidiary/MainActivity.kt:101-112 | for a stored count in 0 .. Int.MAX_VALUE - 1, saving an entry whose date is already stored adds a record, and the next load has two rows with that date |
| Store.SavedDayIsFoundOnNextLoad | app/src/main/java/com/example/aidiary/MainActivity.kt:49-53 | for a stored count in 0 .. Int.MAX_VALUE - 1, once an entry for a day is saved, the next start's check finds an entry for that day |
| Activity.SuccessText | app/src/main/java/com/example/aidiary/MainActivity.kt:133-135 | onSuccess is called only for a 2xx response; with the body's transformedText when present, with "" when the body or the field is null |
| Activity.MainActivity.constructor | app/src/main/java/com/example/aidiary/MainActivity.kt:27-29 | one fresh empty list, shared by the adapter; no listener and no HTTP client yet |
| Activity.MainActivity.LoadEntriesFromStorage | app/src/main/java/com/example/aidiary/MainActivity.kt:86-99 | the list is replaced wholesale by what the file loads; the file is untouched, so a second load gives the same list |
| Activity.MainActivity.SaveEntryToStorage | app/src/main/java/com/example/aidiary/MainActivity.kt:101-112 | the file becomes Saved(old file, entry) and stays well-typed |
| Activity.MainActivity.EnsureTodayEntry | app/src/main/java/com/example/aidiary/MainActivity.kt:49-53 | a list with an entry for today is unchanged; otherwise (today, "") is put at index 0 in front of the old entries; either way some entry has today's date |
| Activity.MainActivity.OnCreate | app/src/main/java/com/example/aidiary/MainActivity.kt:36-84 | the list is the loaded list with today's placeholder in front when needed; the listener and the client are set; the file is unchanged |
| Activity.MainActivity.OnTransformed | app/src/main/java/com/example/aidiary/MainActivity.kt:56-61 | only that position changes: its date is kept and its content becomes the rewritten text; exactly that entry is appended to the file |
| Activity.MainActivity.SendTextToChatGPT | app/src/main/java/com/example/aidiary/MainActivity.kt:115-157 | without a client nothing is sent; otherwise the request is (text, max_tokens 4); a success runs the callback; an HTTP error or a transport failure changes neither the list nor the file |
| Activity.MainActivity.SubmitRow | app/src/main/java/com/example/aidiary/MainActivity.kt:56-61 | a press with empty text changes nothing; with text and a successful call the row holds the rewritten text and it is appended to the file; otherwise the row holds the typed text, the file is unchanged, and the row is no longer an input row |

## Left out

- Android UI: view binding, the layout manager, onCreateViewHolder, the view holders' text
  binding, notifyDataSetChanged / notifyItemChanged, Toast and Log. They only redraw or report.
- HTTP client construction: HTTP/1.1, the three one-minute timeouts, the bearer header, the base
  URL and endpoint path, the logging interceptor. All of it is reduced to the `Outcome` of one
  call. The error body and the "Unknown Error" text are only logged, so they are not modelled.
- Gson serialisation. A body Gson cannot parse reaches `onFailure` and so is a
  `TransportFailure`.
- Asynchrony. The completion is applied as one step right after the request. A list change
  between the request and the callback, and two quick presses before the row is redrawn, are
  not modelled.
- The clock and the locale date format. `today` is a parameter.
- Durability and atomicity of `apply()`. The file is a map that is updated at once.
- A value of the wrong kind under a key makes getInt/getString throw in Android. The model
  instead requires the file to be well-typed (`Typed`), and every save keeps it so.
- An out-of-range position makes the Kotlin list access throw. The methods that index the list
  require a valid position instead.
- `position` and `adapterPosition` are taken to be the same index.
- Store.SaveThenLoad: stated only for a stored count in 0 .. Int.MAX_VALUE - 1. A negative
  count loads nothing before or after the save. At Int.MAX_VALUE the count wraps to
  Int.MIN_VALUE and the next load is empty (`SaveAtMaxCountLosesEntries`).
- Store.SaveDuplicatesDate: stated for the same count range. For a negative or wrapping count
  the next load does not return the saved entry, so no duplicate appears.
- Store.SavedDayIsFoundOnNextLoad: stated for the same count range. For a negative or wrapping
  count the next start does not find the saved day.
