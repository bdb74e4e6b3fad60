/**
 * The "DiaryEntries" SharedPreferences file as MainActivity.kt reads and writes it: an int under
 * "EntryCount" and, for every record i, strings under "EntryDate_i" and "EntryContent_i".
 */
module Store {
  import opened Entries

  /** Kotlin's Int. */
  newtype int32 = x: int | -0x8000_0000 <= x < 0x8000_0000

  const MAX_INT32: int32 := 0x7fff_ffff

  /** Kotlin's `c + 1` on an Int, which wraps from MAX_VALUE to MIN_VALUE. */
  function Inc32(c: int32): (r: int32)
    ensures c < MAX_INT32 ==> r as int == c as int + 1
    ensures c == MAX_INT32 ==> r as int == -0x8000_0000
  {
    if c == MAX_INT32 then -0x8000_0000 else c + 1
  }

  /** A stored preference value; this file only ever holds ints and strings. */
  datatype Pref = IntPref(i: int32) | StrPref(s: string)

  type Prefs = map<string, Pref>

  const ENTRY_COUNT: string := "EntryCount"

  /** Only "EntryCount" holds an int; getInt/getString on a value of the other kind would throw. */
  ghost predicate Typed(p: Prefs)
  {
    forall k :: k in p ==> (p[k].IntPref? <==> k == ENTRY_COUNT)
  }

  function DigitChar(d: int): char
    requires 0 <= d < 10
  {
    ('0' as int + d) as char
  }

  /** The decimal digits of `n`, as a Kotlin string template prints it. */
  function NatToString(n: nat): (s: string)
    ensures |s| >= 1
    ensures s[0] != '-'
  {
    if n < 10 then [DigitChar(n)] else NatToString(n / 10) + [DigitChar(n % 10)]
  }

  /** Kotlin's "$i" for an Int. */
  function IntToString(i: int): (s: string)
    ensures |s| >= 1
  {
    if i < 0 then "-" + NatToString(-i) else NatToString(i)
  }

  /** A number of two or more digits is the spelling of n / 10 followed by the digit n % 10. */
  lemma NatToStringSplit(n: nat)
    requires n >= 10
    ensures var s := NatToString(n);
      |s| >= 2 && s[..|s| - 1] == NatToString(n / 10) && s[|s| - 1] == DigitChar(n % 10)
  {
  }

  lemma {:induction false} NatToStringInjective(a: nat, b: nat)
    ensures NatToString(a) == NatToString(b) ==> a == b
  {
    if NatToString(a) == NatToString(b) && a >= 10 && b >= 10 {
      NatToStringSplit(a);
      NatToStringSplit(b);
      NatToStringInjective(a / 10, b / 10);
    } else if NatToString(a) == NatToString(b) && (a >= 10 || b >= 10) {
      if a >= 10 { NatToStringSplit(a); } else { NatToStringSplit(b); }
    }
  }

  lemma IntToStringInjective(i: int, j: int)
    ensures IntToString(i) == IntToString(j) ==> i == j
  {
    if IntToString(i) == IntToString(j) {
      if i < 0 && j < 0 {
        assert IntToString(i)[1..] == NatToString(-i) && IntToString(j)[1..] == NatToString(-j);
        NatToStringInjective(-i, -j);
      } else if i >= 0 && j >= 0 {
        NatToStringInjective(i, j);
      }
    }
  }

  function DateKey(i: int): string
  {
    "EntryDate_" + IntToString(i)
  }

  function ContentKey(i: int): string
  {
    "EntryContent_" + IntToString(i)
  }

  /** The key of each field of each record is different from every other key the app uses. */
  lemma KeysDistinct(i: int, j: int)
    ensures DateKey(i) == DateKey(j) ==> i == j
    ensures ContentKey(i) == ContentKey(j) ==> i == j
    ensures DateKey(i) != ContentKey(j)
    ensures DateKey(i) != ENTRY_COUNT && ContentKey(i) != ENTRY_COUNT
  {
    if DateKey(i) == DateKey(j) {
      assert DateKey(i)[10..] == IntToString(i) && DateKey(j)[10..] == IntToString(j);
      IntToStringInjective(i, j);
    }
    if ContentKey(i) == ContentKey(j) {
      assert ContentKey(i)[13..] == IntToString(i) && ContentKey(j)[13..] == IntToString(j);
      IntToStringInjective(i, j);
    }
    assert DateKey(i)[5] == 'D' && ContentKey(j)[5] == 'C';
    assert |DateKey(i)| > |ENTRY_COUNT| && |ContentKey(i)| > |ENTRY_COUNT|;
  }

  /** SharedPreferences.getInt(key, default). */
  function GetInt(p: Prefs, key: string, default: int32): int32
    requires key in p ==> p[key].IntPref?
  {
    if key in p then p[key].i else default
  }

  /** SharedPreferences.getString(key, default) ?: "" (a present string is never null). */
  function GetString(p: Prefs, key: string, default: string): string
    requires key in p ==> p[key].StrPref?
  {
    if key in p then p[key].s else default
  }

  /** The stored count, 0 when "EntryCount" is absent. */
  function Count(p: Prefs): int32
    requires Typed(p)
  {
    GetInt(p, ENTRY_COUNT, 0)
  }

  /** Record i as the loader reads it, a missing field reading as "". */
  function EntryAt(p: Prefs, i: int): DiaryEntry
    requires Typed(p)
  {
    KeysDistinct(i, i);
    DiaryEntry(GetString(p, DateKey(i), ""), GetString(p, ContentKey(i), ""))
  }

  /** The list loadEntriesFromStorage rebuilds: records 0 .. count - 1, none for a count <= 0. */
  function Loaded(p: Prefs): (r: seq<DiaryEntry>)
    requires Typed(p)
    ensures ENTRY_COUNT !in p ==> r == []
    ensures ENTRY_COUNT in p ==> |r| == if p[ENTRY_COUNT].i < 0 then 0 else p[ENTRY_COUNT].i as int
    ensures forall i :: 0 <= i < |r| ==> r[i] == EntryAt(p, i)
    ensures forall i :: 0 <= i < |r| ==>
      (DateKey(i) in p ==> r[i].date == p[DateKey(i)].s) && (DateKey(i) !in p ==> r[i].date == "")
    ensures forall i :: 0 <= i < |r| ==>
      (ContentKey(i) in p ==> r[i].content == p[ContentKey(i)].s) && (ContentKey(i) !in p ==> r[i].content == "")
  {
    var n := if Count(p) < 0 then 0 else Count(p) as int;
    seq(n, i requires 0 <= i < n => EntryAt(p, i))
  }

  /** The preferences after saveEntryToStorage(e): record `count` written, count bumped. */
  function Saved(p: Prefs, e: DiaryEntry): (q: Prefs)
    requires Typed(p)
    ensures Typed(q)
    ensures Count(q) == Inc32(Count(p))
    ensures EntryAt(q, Count(p) as int) == e
  {
    var c := Count(p) as int;
    KeysDistinct(c, c);
    p[DateKey(c) := StrPref(e.date)][ContentKey(c) := StrPref(e.content)][ENTRY_COUNT := IntPref(Inc32(Count(p)))]
  }

  /** Saving touches no key of any other record: every earlier record reads back as before. */
  lemma SaveKeepsOtherRecords(p: Prefs, e: DiaryEntry, i: int)
    requires Typed(p) && i != Count(p) as int
    ensures var q := Saved(p, e);
      (DateKey(i) in q <==> DateKey(i) in p) && (ContentKey(i) in q <==> ContentKey(i) in p) &&
      (DateKey(i) in p ==> q[DateKey(i)] == p[DateKey(i)]) &&
      (ContentKey(i) in p ==> q[ContentKey(i)] == p[ContentKey(i)])
  {
    var c := Count(p) as int;
    KeysDistinct(i, c);
    KeysDistinct(c, i);
    KeysDistinct(i, i);
  }

  /** Save followed by load appends exactly the saved entry to what load returned before. */
  lemma SaveThenLoad(p: Prefs, e: DiaryEntry)
    requires Typed(p) && 0 <= Count(p) < MAX_INT32
    ensures Loaded(Saved(p, e)) == Loaded(p) + [e]
  {
    var q := Saved(p, e);
    var c := Count(p) as int;
    forall i | 0 <= i < c
      ensures EntryAt(q, i) == EntryAt(p, i)
    {
      SaveKeepsOtherRecords(p, e, i);
    }
  }

  /**
   * At Int.MAX_VALUE the count wraps to Int.MIN_VALUE, so the load after the save is empty
   * although every record is still in the file.
   */
  lemma SaveAtMaxCountLosesEntries(p: Prefs, e: DiaryEntry)
    requires Typed(p) && Count(p) == MAX_INT32
    ensures |Loaded(p)| == 0x7fff_ffff
    ensures Loaded(Saved(p, e)) == []
  {
  }

  /** Two saves into an empty file load back as exactly those two entries, in order. */
  lemma SaveTwiceIntoEmptyThenLoad(e1: DiaryEntry, e2: DiaryEntry)
    ensures Loaded(Saved(Saved(map[], e1), e2)) == [e1, e2]
  {
    var empty: Prefs := map[];
    SaveThenLoad(empty, e1);
    SaveThenLoad(Saved(empty, e1), e2);
  }

  /**
   * Saving is append-only: an entry whose date is already stored gets a second record, and the
   * next load returns two rows with that date.
   */
  lemma SaveDuplicatesDate(p: Prefs, e: DiaryEntry, j: int)
    requires Typed(p) && 0 <= Count(p) < MAX_INT32
    requires 0 <= j < |Loaded(p)| && Loaded(p)[j].date == e.date
    ensures var r := Loaded(Saved(p, e));
      |r| == |Loaded(p)| + 1 && j < |r| - 1 && r[j].date == e.date && r[|r| - 1].date == e.date
  {
    SaveThenLoad(p, e);
  }

  /** After today's entry is saved, the next start finds an entry for today and adds no placeholder. */
  lemma SavedDayIsFoundOnNextLoad(p: Prefs, e: DiaryEntry)
    requires Typed(p) && 0 <= Count(p) < MAX_INT32
    ensures HasEntryFor(Loaded(Saved(p, e)), e.date)
  {
  }
}
