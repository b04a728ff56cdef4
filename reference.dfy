/** A reference object of the binding: one slot holding the store handle it
    owns, and the operations that read the handle, replace it or release it. */
module References {
  import opened Common
  import opened Oids
  import opened RefStore
  import opened Reflog

  /** What an operation reports instead of a result. */
  datatype Error =
    | DeletedReference        // the slot is empty: the reference was deleted
    | ConversionFailed        // an argument could not be turned into a C string
    | StoreError(code: GitCode)
    | ValueError(message: string)

  const NoTargetMessage: string := "no target available"
  const NotDirectMessage: string :=
    "oid is only available if the reference is direct (i.e. not symbolic)"

  class Reference {
    /** The repository store the handle belongs to. */
    const store: Store
    /** The owned handle; `None` once the reference has been deleted. */
    var handle: Option<HandleId>

    /** The slot is empty or holds a handle the store still has live. */
    ghost predicate Valid()
      reads this, store
    {
      store.Valid() && (handle.Some? ==> handle.value in store.handles)
    }

    /** The snapshot the owned handle holds. */
    ghost function Record(): RefRecord
      reads this, store
      requires handle.Some? && handle.value in store.handles
    {
      store.handles[handle.value]
    }

    /** Wraps a handle the store has just handed out. */
    constructor Wrap(s: Store, h: HandleId)
      requires s.Valid() && h in s.handles
      ensures Valid()
      ensures store == s && handle == Some(h)
    {
      store, handle := s, Some(h);
    }

    /** Removes the reference from the store, then releases the handle and
        empties the slot. */
    method Delete() returns (r: Result<(), Error>)
      requires Valid()
      modifies this, store
      ensures Valid()
      ensures old(handle).None? ==> r == Err(DeletedReference) && unchanged(this, store)
      ensures r.Err? ==> handle == old(handle) && unchanged(store)
      ensures old(handle).Some? && r.Err? ==> r.error.StoreError?
      ensures old(handle).Some? && old(Record().name) !in old(store.refs) ==>
                r == Err(StoreError(NotFound))
      ensures store.logs == old(store.logs)
      ensures r.Ok? ==> old(handle).Some? && handle.None? &&
                        old(handle.value) !in old(store.released) &&
                        store.released == old(store.released) + {old(handle.value)} &&
                        store.handles == old(store.handles) - {old(handle.value)} &&
                        store.refs == old(store.refs) - {old(Record().name)}
    {
      if handle.None? {
        return Err(DeletedReference);
      }
      var err := store.Delete(handle.value);
      if err.Some? {
        return Err(StoreError(err.value));
      }
      store.Free(handle.value);
      handle := None;
      r := Ok(());
    }

    /** Rename as the binding does it: the old handle is released right after
        the store call, before its outcome is looked at. When the store call
        fails, the slot is left holding the released handle. */
    method Rename(newName: PyValue) returns (r: Result<(), Error>)
      requires Valid()
      modifies this, store
      ensures old(handle).None? ==> r == Err(DeletedReference) && unchanged(this, store)
      ensures old(handle).Some? && PathToCStr(newName).None? ==>
                r == Err(ConversionFailed) && unchanged(this, store)
      ensures old(handle).Some? && PathToCStr(newName).Some? && r.Err? ==> r.error.StoreError?
      ensures (old(handle).Some? && PathToCStr(newName).Some? &&
               PathToCStr(newName).value != old(Record().name) &&
               PathToCStr(newName).value in old(store.refs)) ==> r.Err?
      ensures (old(handle).Some? && PathToCStr(newName).Some? &&
               old(Record().name) !in old(store.refs)) ==> r == Err(StoreError(NotFound))
      ensures store.logs == old(store.logs)
      ensures r.Err? && r.error.StoreError? ==>
                handle == old(handle) && handle.Some? &&
                handle.value in store.released && handle.value !in store.handles &&
                store.released == old(store.released) + {handle.value} &&
                store.handles == old(store.handles) - {handle.value} &&
                store.refs == old(store.refs)
      ensures Valid() <==> !(r.Err? && r.error.StoreError?)
      ensures r.Ok? ==> old(handle).Some? && handle.Some? &&
                        handle.value !in old(store.handles) &&
                        Record() == RefRecord(PathToCStr(newName).value, old(Record().target)) &&
                        old(handle.value) !in old(store.released) &&
                        store.released == old(store.released) + {old(handle.value)} &&
                        store.handles == (old(store.handles) - {old(handle.value)})[handle.value := Record()] &&
                        store.refs == (old(store.refs) - {old(Record().name)})[Record().name := Record().target]
    {
      if handle.None? {
        return Err(DeletedReference);
      }
      var cName := PathToCStr(newName);
      if cName.None? {
        return Err(ConversionFailed);
      }
      var oldHandle := handle.value;
      var res := store.Rename(oldHandle, cName.value);
      store.Free(oldHandle);
      if res.Err? {
        return Err(StoreError(res.error));
      }
      handle := Some(res.value);
      r := Ok(());
    }

    /** Rename with the old handle released only once the store call has
        succeeded: on every failure the reference keeps its live handle. */
    method RenameChecked(newName: PyValue) returns (r: Result<(), Error>)
      requires Valid()
      modifies this, store
      ensures Valid()
      ensures old(handle).None? ==> r == Err(DeletedReference)
      ensures old(handle).Some? && PathToCStr(newName).None? ==> r == Err(ConversionFailed)
      ensures old(handle).Some? && PathToCStr(newName).Some? && r.Err? ==> r.error.StoreError?
      ensures (old(handle).Some? && PathToCStr(newName).Some? &&
               PathToCStr(newName).value != old(Record().name) &&
               PathToCStr(newName).value in old(store.refs)) ==> r.Err?
      ensures (old(handle).Some? && PathToCStr(newName).Some? &&
               old(Record().name) !in old(store.refs)) ==> r == Err(StoreError(NotFound))
      ensures r.Err? ==> unchanged(this, store)
      ensures store.logs == old(store.logs)
      ensures r.Ok? ==> old(handle).Some? && handle.Some? &&
                        handle.value !in old(store.handles) &&
                        Record() == RefRecord(PathToCStr(newName).value, old(Record().target)) &&
                        old(handle.value) !in old(store.released) &&
                        store.released == old(store.released) + {old(handle.value)} &&
                        store.handles == (old(store.handles) - {old(handle.value)})[handle.value := Record()] &&
                        store.refs == (old(store.refs) - {old(Record().name)})[Record().name := Record().target]
    {
      if handle.None? {
        return Err(DeletedReference);
      }
      var cName := PathToCStr(newName);
      if cName.None? {
        return Err(ConversionFailed);
      }
      var res := store.Rename(handle.value, cName.value);
      if res.Err? {
        return Err(StoreError(res.error));
      }
      store.Free(handle.value);
      handle := Some(res.value);
      r := Ok(());
    }

    /** A direct reference resolves to itself; a symbolic one to a new
        reference on the handle the store resolves it to. */
    method Resolve() returns (r: Result<Reference, Error>)
      requires Valid()
      modifies store
      ensures Valid()
      ensures handle == old(handle)
      ensures old(handle).None? ==> r == Err(DeletedReference)
      ensures old(handle).Some? && old(Record().target).Direct? ==> r == Ok(this)
      ensures old(handle).Some? && !old(Record().target).Direct? ==> r != Ok(this)
      ensures r.Ok? ==> r.value.Valid() && r.value.handle.Some? && r.value.Record().target.Direct?
      ensures r.Err? || r == Ok(this) ==> unchanged(store)
      ensures old(handle).Some? && r.Err? ==> r.error.StoreError?
      ensures r.Ok? && r.value != this ==>
                old(handle).Some? && !old(Record().target).Direct? &&
                fresh(r.value) && r.value.store == store && r.value.Valid() &&
                r.value.handle.Some? && r.value.handle.value !in old(store.handles) &&
                r.value.Record().target.Direct? &&
                store.handles == old(store.handles)[r.value.handle.value := r.value.Record()]
      ensures store.refs == old(store.refs) && store.released == old(store.released)
      ensures store.logs == old(store.logs)
    {
      if handle.None? {
        return Err(DeletedReference);
      }
      if store.handles[handle.value].target.Direct? {
        return Ok(this);
      }
      var res := store.Resolve(handle.value);
      if res.Err? {
        return Err(StoreError(res.error));
      }
      var resolved := new Reference.Wrap(store, res.value);
      r := Ok(resolved);
    }

    /** The target: the hex id of a direct reference, the name a symbolic
        reference points at, and an error for a handle of neither kind. */
    method GetTarget() returns (r: Result<string, Error>)
      requires Valid()
      ensures handle.None? ==> r == Err(DeletedReference)
      ensures handle.Some? && Record().target.Direct? ==> r == Ok(Hex(Record().target.oid))
      ensures handle.Some? && Record().target.Symbolic? ==> r == Ok(Record().target.name)
      ensures handle.Some? && Record().target.Untyped? ==> r == Err(ValueError(NoTargetMessage))
    {
      if handle.None? {
        return Err(DeletedReference);
      }
      var rec := store.handles[handle.value];
      match rec.target
      case Direct(oid) => r := Ok(Hex(oid));
      case Symbolic(name) => r := Ok(name);
      case Untyped => r := Err(ValueError(NoTargetMessage));
    }

    /** Points a symbolic reference at another name. The new handle is made
        first; only when that succeeds is the old one released and replaced. */
    method SetTarget(value: PyValue) returns (r: Result<(), Error>)
      requires Valid()
      modifies this, store
      ensures Valid()
      ensures old(handle).None? ==> r == Err(DeletedReference)
      ensures old(handle).Some? && PathToCStr(value).None? ==> r == Err(ConversionFailed)
      ensures old(handle).Some? && PathToCStr(value).Some? && r.Err? ==> r.error.StoreError?
      ensures r.Err? ==> unchanged(this, store)
      ensures store.logs == old(store.logs)
      ensures r.Ok? ==> old(handle).Some? && handle.Some? &&
                        handle.value !in old(store.handles) &&
                        Record() == RefRecord(old(Record().name), Symbolic(PathToCStr(value).value)) &&
                        store.refs == old(store.refs)[Record().name := Record().target] &&
                        old(handle.value) !in old(store.released) &&
                        store.released == old(store.released) + {old(handle.value)} &&
                        store.handles == (old(store.handles) - {old(handle.value)})[handle.value := Record()]
    {
      if handle.None? {
        return Err(DeletedReference);
      }
      var cName := PathToCStr(value);
      if cName.None? {
        return Err(ConversionFailed);
      }
      var res := store.SetSymbolicTarget(handle.value, cName.value);
      if res.Err? {
        return Err(StoreError(res.error));
      }
      store.Free(handle.value);
      handle := Some(res.value);
      r := Ok(());
    }

    /** The full name of the reference. */
    method GetName() returns (r: Result<string, Error>)
      requires Valid()
      ensures handle.None? ==> r == Err(DeletedReference)
      ensures handle.Some? ==> r == Ok(Record().name)
    {
      if handle.None? {
        return Err(DeletedReference);
      }
      r := Ok(store.handles[handle.value].name);
    }

    /** The raw object id; only a direct reference has one. */
    method GetOid() returns (r: Result<Oid, Error>)
      requires Valid()
      ensures handle.None? ==> r == Err(DeletedReference)
      ensures handle.Some? && Record().target.Direct? ==> r == Ok(Record().target.oid)
      ensures handle.Some? && !Record().target.Direct? ==> r == Err(ValueError(NotDirectMessage))
    {
      if handle.None? {
        return Err(DeletedReference);
      }
      var rec := store.handles[handle.value];
      if !rec.target.Direct? {
        return Err(ValueError(NotDirectMessage));
      }
      r := Ok(rec.target.oid);
    }

    /** Points the reference at the object id that `value` expands to. Both
        the expansion and the store call may fail; only after both succeed is
        the old handle released and replaced. */
    method SetOid(value: PyValue) returns (r: Result<(), Error>)
      requires Valid()
      modifies this, store
      ensures Valid()
      ensures old(handle).None? ==> r == Err(DeletedReference)
      ensures old(handle).Some? && store.expand(value).Err? ==> r == Err(StoreError(store.expand(value).error))
      ensures old(handle).Some? && r.Err? ==> r.error.StoreError?
      ensures r.Err? ==> unchanged(this, store)
      ensures store.logs == old(store.logs)
      ensures r.Ok? ==> old(handle).Some? && store.expand(value).Ok? && handle.Some? &&
                        handle.value !in old(store.handles) &&
                        Record() == RefRecord(old(Record().name), Direct(store.expand(value).value)) &&
                        store.refs == old(store.refs)[Record().name := Record().target] &&
                        old(handle.value) !in old(store.released) &&
                        store.released == old(store.released) + {old(handle.value)} &&
                        store.handles == (old(store.handles) - {old(handle.value)})[handle.value := Record()]
    {
      if handle.None? {
        return Err(DeletedReference);
      }
      var oid := store.expand(value);
      if oid.Err? {
        return Err(StoreError(oid.error));
      }
      var res := store.SetDirectTarget(handle.value, oid.value);
      if res.Err? {
        return Err(StoreError(res.error));
      }
      store.Free(handle.value);
      handle := Some(res.value);
      r := Ok(());
    }

    /** The object id in hex; only a direct reference has one. */
    method GetHex() returns (r: Result<string, Error>)
      requires Valid()
      ensures handle.None? ==> r == Err(DeletedReference)
      ensures handle.Some? && Record().target.Direct? ==> r == Ok(Hex(Record().target.oid))
      ensures handle.Some? && !Record().target.Direct? ==> r == Err(ValueError(NotDirectMessage))
    {
      if handle.None? {
        return Err(DeletedReference);
      }
      var rec := store.handles[handle.value];
      if !rec.target.Direct? {
        return Err(ValueError(NotDirectMessage));
      }
      r := Ok(Hex(rec.target.oid));
    }

    /** The reference type code. */
    method GetType() returns (r: Result<int, Error>)
      requires Valid()
      ensures handle.None? ==> r == Err(DeletedReference)
      ensures handle.Some? ==> r == Ok(TypeCode(Record().target))
    {
      if handle.None? {
        return Err(DeletedReference);
      }
      r := Ok(TypeCode(store.handles[handle.value].target));
    }

    /** Opens an iterator over the reflog of the reference's name, with the
        cursor at the first entry and the entry count captured. */
    method Log() returns (r: Result<RefLogIter, Error>)
      requires Valid()
      ensures handle.None? ==> r == Err(DeletedReference)
      ensures handle.Some? ==> r.Ok? && fresh(r.value) && r.value.Valid() &&
                               r.value.reflog == store.LogOf(Record().name) &&
                               r.value.size == |r.value.reflog| &&
                               r.value.i == 0 && r.value.yielded == []
    {
      if handle.None? {
        return Err(DeletedReference);
      }
      var log := store.LogOf(store.handles[handle.value].name);
      var iter := new RefLogIter.Open(log);
      r := Ok(iter);
    }
  }
}
