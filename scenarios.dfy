/** Scenarios: the reference and reflog models used by a client on small stores. */
module Scenarios {
  import opened Common
  import opened Oids
  import opened RefStore
  import opened Reflog
  import opened References

  const IdA: Oid := seq(RawSize, _ => 0xaa)
  const IdB: Oid := seq(RawSize, _ => 0xbb)
  const IdC: Oid := seq(RawSize, _ => 0xcc)

  /** Two branches, each pointing at its own commit. */
  method TwoBranches() returns (store: Store)
    ensures fresh(store) && store.Valid()
    ensures store.refs == map["refs/heads/a" := Direct(IdA), "refs/heads/b" := Direct(IdB)]
    ensures store.handles == map[] && store.released == {}
  {
    store := new Store(map["refs/heads/a" := Direct(IdA), "refs/heads/b" := Direct(IdB)],
                       map[], _ => Err(NotFound));
  }

  /** Renaming `refs/heads/a` onto the existing `refs/heads/b` as the binding
      does it: the store refuses, and the reference is left holding a handle
      that has already been released. */
  method RenameOntoExistingBranch() returns (ref: Reference, r: Result<(), Error>)
    ensures r.Err? && r.error.StoreError?
    ensures ref.handle.Some? && ref.handle.value in ref.store.released
    ensures ref.handle.value !in ref.store.handles && !ref.Valid()
  {
    var store := TwoBranches();
    var h := store.Lookup("refs/heads/a");
    ref := new Reference.Wrap(store, h.value);
    r := ref.Rename(Text("refs/heads/b"));
  }

  /** The same rename with the handle released only on success: the store
      refuses, and the reference still holds its live handle on `refs/heads/a`. */
  method RenameCheckedOntoExistingBranch() returns (ref: Reference, r: Result<(), Error>)
    ensures r.Err? && r.error.StoreError?
    ensures ref.Valid() && ref.handle.Some? && ref.Record() == RefRecord("refs/heads/a", Direct(IdA))
  {
    var store := TwoBranches();
    var h := store.Lookup("refs/heads/a");
    ref := new Reference.Wrap(store, h.value);
    r := ref.RenameChecked(Text("refs/heads/b"));
  }

  /** After a successful delete, every operation on the reference reports a
      deleted reference. */
  method DeleteThenUse() returns (deleted: bool, name: Result<string, Error>, renamed: Result<(), Error>)
    ensures deleted ==> name == Err(DeletedReference) && renamed == Err(DeletedReference)
  {
    var store := TwoBranches();
    var h := store.Lookup("refs/heads/a");
    var ref := new Reference.Wrap(store, h.value);
    var d := ref.Delete();
    deleted := d.Ok?;
    name := ref.GetName();
    renamed := ref.Rename(Text("refs/heads/c"));
  }

  /** A reflog of three records read through `log()`: three entries in
      record order, then the end, and the end again on the next call. */
  method ReadThreeRecords(r0: LogRecord, r1: LogRecord, r2: LogRecord)
    returns (e0: Option<RefLogEntry>, e1: Option<RefLogEntry>, e2: Option<RefLogEntry>,
             end0: Option<RefLogEntry>, end1: Option<RefLogEntry>)
    ensures e0 == Some(EntryOf(r0)) && e1 == Some(EntryOf(r1)) && e2 == Some(EntryOf(r2))
    ensures end0 == None && end1 == None
  {
    var store := new Store(map["refs/heads/a" := Direct(IdC)],
                           map["refs/heads/a" := [r0, r1, r2]], _ => Err(NotFound));
    var h := store.Lookup("refs/heads/a");
    var ref := new Reference.Wrap(store, h.value);
    var it := ref.Log();
    var iter := it.value;
    e0 := iter.Next();
    e1 := iter.Next();
    e2 := iter.Next();
    end0 := iter.Next();
    end1 := iter.Next();
  }
}
