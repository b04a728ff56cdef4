/** Reflog entries and the iterator that hands them out one at a time. */
module Reflog {
  import opened Common
  import opened Oids
  import opened RefStore

  /** An entry as handed to the caller: its own copies of the two ids in
      hex form, the message and the committer, sharing nothing with the
      reflog it came from. */
  datatype RefLogEntry = RefLogEntry(oidOld: string, oidNew: string, message: string, committer: Signature)

  /** The entry built from one reflog record. */
  function EntryOf(rec: LogRecord): (e: RefLogEntry)
    ensures e.oidOld == Hex(rec.oldId) && e.oidNew == Hex(rec.newId)
    ensures |e.oidOld| == 2 * RawSize && |e.oidNew| == 2 * RawSize
    ensures e.message == rec.message && e.committer == rec.committer
  {
    RefLogEntry(Hex(rec.oldId), Hex(rec.newId), rec.message, rec.committer)
  }

  /** The entries of a whole reflog, in index order. */
  function Entries(log: seq<LogRecord>): (r: seq<RefLogEntry>)
    ensures |r| == |log|
    ensures forall k :: 0 <= k < |log| ==> r[k] == EntryOf(log[k])
  {
    if log == [] then [] else [EntryOf(log[0])] + Entries(log[1..])
  }

  /** Extending a prefix of the reflog by one record extends its entries by
      that record's entry. */
  lemma EntriesPrefixStep(log: seq<LogRecord>, i: nat)
    requires i < |log|
    ensures Entries(log[..i + 1]) == Entries(log[..i]) + [EntryOf(log[i])]
  {
  }

  class RefLogIter {
    /** The reflog as read when the iterator was opened. */
    const reflog: seq<LogRecord>
    /** Entry count captured at open time. */
    const size: nat
    /** Index of the next entry to hand out. */
    var i: nat
    /** Entries handed out so far. */
    ghost var yielded: seq<RefLogEntry>

    /** The cursor stays within the captured size, and what has been handed
        out is exactly the entries before the cursor, in index order. */
    ghost predicate Valid()
      reads this
    {
      size == |reflog| && i <= size && yielded == Entries(reflog[..i])
    }

    /** The state `log()` leaves a new iterator in. */
    constructor Open(log: seq<LogRecord>)
      ensures Valid()
      ensures reflog == log && size == |log| && i == 0 && yielded == []
    {
      reflog, size, i := log, |log|, 0;
      yielded := [];
    }

    /** Hands out the entry at the cursor and advances, or reports the end. */
    method Next() returns (r: Option<RefLogEntry>)
      requires Valid()
      modifies this
      ensures Valid()
      ensures old(i) < size ==> r == Some(EntryOf(reflog[old(i)])) && i == old(i) + 1 &&
                                yielded == old(yielded) + [r.value]
      ensures old(i) >= size ==> r == None && i == old(i) && yielded == old(yielded)
      ensures r.None? ==> yielded == Entries(reflog)
    {
      if i < size {
        EntriesPrefixStep(reflog, i);
        r := Some(EntryOf(reflog[i]));
        i := i + 1;
        yielded := yielded + [r.value];
      } else {
        assert reflog[..i] == reflog;
        r := None;
      }
    }
  }
}
