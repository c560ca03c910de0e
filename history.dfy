/** `src/hooks/useHistory.js`: the list of recent uploads, newest first, kept
    to ten entries. */
module UploadHistory {
  import opened JsArray

  /** `{ fileName, rows }`. */
  datatype Entry = Entry(fileName: string, rows: nat)

  /** What reading the stored list gave: nothing stored, text that does not
      parse, a parsed value that is falsy, or a parsed list. */
  datatype Stored = Absent | Unparsable | ParsedFalsy | ParsedList(entries: seq<Entry>)

  const MaxEntries: nat := 10

  /** The initial list: the stored list when there is one, otherwise empty. */
  function Load(stored: Stored): (h: seq<Entry>)
    ensures stored.ParsedList? ==> h == stored.entries
    ensures !stored.ParsedList? ==> h == []
  {
    match stored
    case ParsedList(entries) => entries
    case _ => []
  }

  /** `[entry, ...prev].slice(0, 10)`. */
  function Added(prev: seq<Entry>, entry: Entry): (h: seq<Entry>)
    ensures |h| == if |prev| < MaxEntries then |prev| + 1 else MaxEntries
    ensures h[0] == entry
    ensures h[1..] == prev[..|h| - 1]
  {
    var h := Slice([entry] + prev, 0, MaxEntries);
    assert h[1..] == prev[..|h| - 1];
    h
  }

  /** A list of at most ten entries stays at most ten long. */
  lemma AddedStaysBounded(prev: seq<Entry>, entry: Entry)
    requires |prev| <= MaxEntries
    ensures |Added(prev, entry)| <= MaxEntries
    ensures |prev| < MaxEntries ==> Added(prev, entry) == [entry] + prev
  {
    var h := Added(prev, entry);
    if |prev| < MaxEntries {
      assert h == [h[0]] + h[1..];
    }
  }

  /** `prev.filter((_, i) => i !== index)`, the positions counted from
      `offset`. */
  function DropIndex(prev: seq<Entry>, index: int, offset: int): (h: seq<Entry>)
    ensures IsSubsequence(h, prev)
  {
    if prev == [] then []
    else
      var rest := DropIndex(prev[1..], index, offset + 1);
      if offset == index then rest else [prev[0]] + rest
  }

  /** `deleteHistory(index)`. */
  function Deleted(prev: seq<Entry>, index: int): (h: seq<Entry>)
    ensures IsSubsequence(h, prev)
  {
    DropIndex(prev, index, 0)
  }

  lemma {:induction false} DropIndexOutside(prev: seq<Entry>, index: int, offset: int)
    requires index < offset || index >= offset + |prev|
    ensures DropIndex(prev, index, offset) == prev
  {
    if prev != [] {
      DropIndexOutside(prev[1..], index, offset + 1);
    }
  }

  lemma {:induction false} DropIndexInside(prev: seq<Entry>, index: int, offset: int)
    requires offset <= index < offset + |prev|
    ensures DropIndex(prev, index, offset) == prev[..index - offset] + prev[index - offset + 1..]
  {
    var k := index - offset;
    if k == 0 {
      DropIndexOutside(prev[1..], index, offset + 1);
    } else {
      var tail := prev[1..];
      DropIndexInside(tail, index, offset + 1);
      calc {
        DropIndex(prev, index, offset);
        [prev[0]] + DropIndex(tail, index, offset + 1);
        [prev[0]] + (tail[..k - 1] + tail[k..]);
        { assert prev[..k] == [prev[0]] + tail[..k - 1]; assert tail[k..] == prev[k + 1..]; }
        prev[..k] + prev[k + 1..];
      }
    }
  }

  /** Deleting a valid position removes exactly that entry and keeps the
      others in order. */
  lemma DeletedRemovesEntry(prev: seq<Entry>, index: int)
    requires 0 <= index < |prev|
    ensures Deleted(prev, index) == prev[..index] + prev[index + 1..]
    ensures |Deleted(prev, index)| == |prev| - 1
  {
    DropIndexInside(prev, index, 0);
  }

  /** Deleting a position outside the list changes nothing. */
  lemma DeletedOutOfRange(prev: seq<Entry>, index: int)
    requires index < 0 || index >= |prev|
    ensures Deleted(prev, index) == prev
  {
    DropIndexOutside(prev, index, 0);
  }

  /** The hook's state. Writing the list back to storage after each change
      is not part of this model. */
  class History {
    var entries: seq<Entry>

    constructor(stored: Stored)
      ensures entries == Load(stored)
    {
      entries := Load(stored);
    }

    /** `addHistory(fileName, rows)`. */
    method Add(fileName: string, rows: nat)
      modifies this
      ensures entries == Added(old(entries), Entry(fileName, rows))
    {
      entries := Added(entries, Entry(fileName, rows));
    }

    /** `deleteHistory(index)`. */
    method Delete(index: int)
      modifies this
      ensures entries == Deleted(old(entries), index)
    {
      entries := Deleted(entries, index);
    }
  }
}
