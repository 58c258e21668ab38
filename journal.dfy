/** The digital journal: an in-memory list of diary entries, shown in order, that the
    add-entry form appends to and a swipe deletes from. */
module Journal {

  /** A calendar date, as an abstract instant; it is only stored and shown. */
  type Date = int

  datatype DiaryEntry = DiaryEntry(date: Date, activityDescription: string)

  /** How many of the offsets 0, ..., n - 1 are in `offsets`. */
  function CountBelow(offsets: set<nat>, n: nat): (k: nat)
    ensures k <= n
  {
    if n == 0 then 0 else CountBelow(offsets, n - 1) + (if n - 1 in offsets then 1 else 0)
  }

  /** `s` without the elements at `offsets`, the others in their original order, which
      is what removing at a set of offsets leaves. */
  function RemoveOffsets<T>(s: seq<T>, offsets: set<nat>): (r: seq<T>)
    ensures |r| == |s| - CountBelow(offsets, |s|)
    ensures multiset(r) <= multiset(s)
    decreases |s|
  {
    if s == [] then []
    else
      var kept := RemoveOffsets(s[..|s| - 1], offsets);
      assert s == s[..|s| - 1] + [s[|s| - 1]];
      if |s| - 1 in offsets then kept else kept + [s[|s| - 1]]
  }

  /** An element whose offset is not removed moves down by the number of removed offsets
      before it and is otherwise kept. */
  lemma {:induction false} KeptMovesDown<T>(s: seq<T>, offsets: set<nat>, i: nat)
    requires i < |s| && i !in offsets
    ensures i - CountBelow(offsets, i) < |RemoveOffsets(s, offsets)|
    ensures RemoveOffsets(s, offsets)[i - CountBelow(offsets, i)] == s[i]
    decreases |s|
  {
    var init := s[..|s| - 1];
    if i < |s| - 1 {
      KeptMovesDown(init, offsets, i);
      assert init[i] == s[i];
    } else {
      assert |RemoveOffsets(init, offsets)| == i - CountBelow(offsets, i);
    }
  }

  /** Counting below a bound only looks at offsets below it. */
  lemma {:induction false} CountBelowAgree(a: set<nat>, b: set<nat>, n: nat)
    requires forall i: nat :: i < n ==> (i in a <==> i in b)
    ensures CountBelow(a, n) == CountBelow(b, n)
    decreases n
  {
    if n > 0 {
      CountBelowAgree(a, b, n - 1);
    }
  }

  /** When every offset is below `n`, all of them are counted. */
  lemma {:induction false} CountBelowAll(offsets: set<nat>, n: nat)
    requires forall o :: o in offsets ==> o < n
    ensures CountBelow(offsets, n) == |offsets|
    decreases n
  {
    if n == 0 {
      assert offsets == {};
    } else {
      var rest := offsets - {n - 1};
      CountBelowAll(rest, n - 1);
      CountBelowAgree(offsets, rest, n - 1);
      if n - 1 in offsets {
        assert offsets == rest + {n - 1};
      } else {
        assert offsets == rest;
      }
    }
  }

  /** Removing valid offsets shortens the list by exactly their number. */
  lemma RemoveValidOffsets<T>(s: seq<T>, offsets: set<nat>)
    requires forall o :: o in offsets ==> o < |s|
    ensures |RemoveOffsets(s, offsets)| == |s| - |offsets|
  {
    CountBelowAll(offsets, |s|);
  }

  /** `RemoveOffsets` ignores offsets at or past the end of its argument (a proof step for
      the lemmas below; the list itself is never given such offsets). */
  lemma {:induction false} RemoveBeyondEnd<T>(s: seq<T>, offsets: set<nat>)
    requires forall o :: o in offsets ==> o >= |s|
    ensures RemoveOffsets(s, offsets) == s
    decreases |s|
  {
    if s != [] {
      RemoveBeyondEnd(s[..|s| - 1], offsets);
      assert s[..|s| - 1] + [s[|s| - 1]] == s;
    }
  }

  /** Deleting no rows leaves the journal as it was. */
  lemma RemoveNothing<T>(s: seq<T>)
    ensures RemoveOffsets(s, {}) == s
  {
    RemoveBeyondEnd(s, {});
  }

  /** Deleting the entry just saved gives back the list as it was before the save. */
  lemma DeleteUndoesSave<T>(s: seq<T>, entry: T)
    ensures RemoveOffsets(s + [entry], {|s|}) == s
  {
    var t := s + [entry];
    assert t[..|t| - 1] == s;
    RemoveBeyondEnd(s, {|s|});
  }

  /** The journal page's list of entries. */
  class DigitalJournal {
    var diaryEntries: seq<DiaryEntry>

    constructor ()
      ensures diaryEntries == []
    {
      diaryEntries := [];
    }

    /** A swipe-to-delete: the list's `onDelete` passes the offsets of rows it shows. */
    method DeleteEntry(offsets: set<nat>)
      requires forall o :: o in offsets ==> o < |diaryEntries|
      modifies this
      ensures diaryEntries == RemoveOffsets(old(diaryEntries), offsets)
      ensures |diaryEntries| == |old(diaryEntries)| - |offsets|
    {
      RemoveValidOffsets(diaryEntries, offsets);
      diaryEntries := RemoveOffsets(diaryEntries, offsets);
    }
  }

  /** The add-entry sheet: its own date and text fields, bound to the journal's list. */
  class AddEntryForm {
    const journal: DigitalJournal
    var activityDescription: string
    var date: Date

    /** The sheet opens with empty text and today's date. */
    constructor (journal: DigitalJournal, today: Date)
      ensures this.journal == journal
      ensures activityDescription == "" && date == today
    {
      this.journal := journal;
      activityDescription := "";
      date := today;
    }

    /** Typing into the text field. */
    method EditDescription(text: string)
      modifies this`activityDescription
      ensures activityDescription == text
    {
      activityDescription := text;
    }

    /** Picking a date. */
    method PickDate(day: Date)
      modifies this`date
      ensures date == day
    {
      date := day;
    }

    /** The Save button: the form's entry goes at the end of the journal; the entries
        already there stay as they were. */
    method SaveEntry()
      modifies journal
      ensures |journal.diaryEntries| == |old(journal.diaryEntries)| + 1
      ensures journal.diaryEntries[..|old(journal.diaryEntries)|] == old(journal.diaryEntries)
      ensures journal.diaryEntries[|old(journal.diaryEntries)|] == DiaryEntry(date, activityDescription)
    {
      var newEntry := DiaryEntry(date, activityDescription);
      journal.diaryEntries := journal.diaryEntries + [newEntry];
    }
  }
}
