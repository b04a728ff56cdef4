/** The reference store the binding talks to: the named references of a
    repository, their reflogs, and the table of in-memory reference handles
    that the store hands out and that callers release. Only what the binding
    relies on is stated; where the store may fail for reasons that the
    binding cannot see (name validation, chain following, I/O), the model
    lets it fail with any error code and change nothing. */
module RefStore {
  import opened Common
  import opened Oids

  /** Opaque id of an in-memory reference handle. */
  type HandleId = nat

  /** Reference type codes as the binding exposes them. */
  const RefTypeInvalid: int := 0
  const RefTypeOid: int := 1
  const RefTypeSymbolic: int := 2

  /** What a reference points at. `Untyped` is a handle whose type is
      neither direct nor symbolic (the invalid type code). */
  datatype Target = Direct(oid: Oid) | Symbolic(name: string) | Untyped

  /** The type code of a target. */
  function TypeCode(t: Target): (c: int)
    ensures c == RefTypeOid <==> t.Direct?
    ensures c == RefTypeSymbolic <==> t.Symbolic?
    ensures c == RefTypeInvalid <==> t.Untyped?
  {
    match t
    case Direct(_) => RefTypeOid
    case Symbolic(_) => RefTypeSymbolic
    case Untyped => RefTypeInvalid
  }

  /** The snapshot a handle holds: the reference's name and target as they
      were when the handle was made. */
  datatype RefRecord = RefRecord(name: string, target: Target)

  /** Identity of whoever performed a change. */
  datatype Signature = Signature(name: string, email: string, time: int, offset: int)

  /** One record of a reflog, as the store keeps it. */
  datatype LogRecord = LogRecord(oldId: Oid, newId: Oid, message: string, committer: Signature)

  /** Error codes of store calls. */
  datatype GitCode = NotFound | Exists | Ambiguous | InvalidSpec | GenericError

  class Store {
    /** The reference namespace. */
    var refs: map<string, Target>
    /** The reflog of each reference name that has one. */
    var logs: map<string, seq<LogRecord>>
    /** Live handles and the snapshot each one holds. */
    var handles: map<HandleId, RefRecord>
    /** Next handle id to hand out. */
    var nextHandle: HandleId
    /** Every handle released so far. */
    ghost var released: set<HandleId>
    /** Expansion of a possibly abbreviated hex id against the object database. */
    const expand: PyValue -> Result<Oid, GitCode>

    /** Handle ids are never reused: live and released ids are all below
        `nextHandle`, and no released id is live. */
    ghost predicate Valid()
      reads this
    {
      (forall h :: h in handles ==> h < nextHandle) &&
      (forall h :: h in released ==> h < nextHandle && h !in handles)
    }

    /** The reflog kept for `name`; a name without history has an empty one. */
    function LogOf(name: string): seq<LogRecord>
      reads this
    {
      if name in logs then logs[name] else []
    }

    constructor (refs0: map<string, Target>, logs0: map<string, seq<LogRecord>>,
                 expand0: PyValue -> Result<Oid, GitCode>)
      ensures Valid()
      ensures refs == refs0 && logs == logs0 && expand == expand0
      ensures handles == map[] && released == {}
    {
      refs, logs, expand := refs0, logs0, expand0;
      handles, nextHandle := map[], 0;
      released := {};
    }

    /** Hands out a new handle holding `rec`. */
    method Alloc(rec: RefRecord) returns (h: HandleId)
      requires Valid()
      modifies this
      ensures Valid()
      ensures h !in old(handles) && h !in released
      ensures handles == old(handles)[h := rec]
      ensures refs == old(refs) && logs == old(logs) && released == old(released)
    {
      h := nextHandle;
      nextHandle := nextHandle + 1;
      handles := handles[h := rec];
    }

    /** Releases a live handle. */
    method Free(h: HandleId)
      requires Valid() && h in handles
      modifies this
      ensures Valid()
      ensures handles == old(handles) - {h}
      ensures released == old(released) + {h} && h !in old(released)
      ensures refs == old(refs) && logs == old(logs) && nextHandle == old(nextHandle)
    {
      handles := handles - {h};
      released := released + {h};
    }

    /** Looks a reference up by name and hands out a handle on it. */
    method Lookup(name: string) returns (r: Result<HandleId, GitCode>)
      requires Valid()
      modifies this
      ensures Valid()
      ensures refs == old(refs) && logs == old(logs) && released == old(released)
      ensures r.Ok? <==> name in refs
      ensures r.Err? ==> r.error == NotFound && unchanged(this)
      ensures r.Ok? ==> r.value !in old(handles) && r.value !in released &&
                        handles == old(handles)[r.value := RefRecord(name, refs[name])]
    {
      if name !in refs {
        return Err(NotFound);
      }
      var h := Alloc(RefRecord(name, refs[name]));
      r := Ok(h);
    }

    /** Removes the reference that `h` names from the namespace. The handle
        itself stays live: releasing it is the caller's job. */
    method Delete(h: HandleId) returns (err: Option<GitCode>)
      requires Valid() && h in handles
      modifies this
      ensures Valid()
      ensures old(handles[h].name) !in old(refs) ==> err == Some(NotFound)
      ensures err.Some? ==> unchanged(this)
      ensures err.None? ==> refs == old(refs) - {old(handles[h].name)}
      ensures handles == old(handles) && released == old(released) && logs == old(logs)
    {
      var name := handles[h].name;
      if name !in refs {
        return Some(NotFound);
      }
      var fails: bool := *;
      if fails {
        var code: GitCode := *;
        return Some(code);
      }
      refs := refs - {name};
      err := None;
    }

    /** Renames the reference that `h` names (no overwrite) and hands out a
        handle on the renamed reference. The old handle stays live. */
    method Rename(h: HandleId, newName: string) returns (r: Result<HandleId, GitCode>)
      requires Valid() && h in handles
      modifies this
      ensures Valid()
      ensures old(handles[h].name) !in old(refs) ==> r == Err(NotFound)
      ensures newName != old(handles[h].name) && newName in old(refs) ==> r.Err?
      ensures r.Err? ==> unchanged(this)
      ensures r.Ok? ==> r.value !in old(handles) && r.value !in released &&
                        handles == old(handles)[r.value := RefRecord(newName, old(handles[h].target))] &&
                        refs == (old(refs) - {old(handles[h].name)})[newName := old(handles[h].target)]
      ensures released == old(released) && logs == old(logs)
    {
      var rec := handles[h];
      if rec.name !in refs {
        return Err(NotFound);
      }
      if newName != rec.name && newName in refs {
        return Err(Exists);
      }
      var fails: bool := *;
      if fails {
        var code: GitCode := *;
        return Err(code);
      }
      refs := (refs - {rec.name})[newName := rec.target];
      var h' := Alloc(RefRecord(newName, rec.target));
      r := Ok(h');
    }

    /** Follows a symbolic reference to a direct one and hands out a handle
        on it. How the chain is followed is the store's business. */
    method Resolve(h: HandleId) returns (r: Result<HandleId, GitCode>)
      requires Valid() && h in handles
      modifies this
      ensures Valid()
      ensures r.Err? ==> unchanged(this)
      ensures r.Ok? ==> r.value !in old(handles) && r.value !in released &&
                        r.value in handles &&
                        handles == old(handles)[r.value := handles[r.value]] &&
                        handles[r.value].target.Direct?
      ensures refs == old(refs) && logs == old(logs) && released == old(released)
    {
      var fails: bool := *;
      if fails {
        var code: GitCode := *;
        return Err(code);
      }
      var name: string := *;
      var oid: Oid := *;
      var h' := Alloc(RefRecord(name, Direct(oid)));
      r := Ok(h');
    }

    /** Points the reference that `h` names at another reference name and
        hands out a handle on the updated reference. */
    method SetSymbolicTarget(h: HandleId, target: string) returns (r: Result<HandleId, GitCode>)
      requires Valid() && h in handles
      modifies this
      ensures Valid()
      ensures r.Err? ==> unchanged(this)
      ensures r.Ok? ==> r.value !in old(handles) && r.value !in released &&
                        handles == old(handles)[r.value := RefRecord(old(handles[h].name), Symbolic(target))] &&
                        refs == old(refs)[old(handles[h].name) := Symbolic(target)]
      ensures released == old(released) && logs == old(logs)
    {
      var fails: bool := *;
      if fails {
        var code: GitCode := *;
        return Err(code);
      }
      var name := handles[h].name;
      refs := refs[name := Symbolic(target)];
      var h' := Alloc(RefRecord(name, Symbolic(target)));
      r := Ok(h');
    }

    /** Points the reference that `h` names at an object id and hands out a
        handle on the updated reference. */
    method SetDirectTarget(h: HandleId, oid: Oid) returns (r: Result<HandleId, GitCode>)
      requires Valid() && h in handles
      modifies this
      ensures Valid()
      ensures r.Err? ==> unchanged(this)
      ensures r.Ok? ==> r.value !in old(handles) && r.value !in released &&
                        handles == old(handles)[r.value := RefRecord(old(handles[h].name), Direct(oid))] &&
                        refs == old(refs)[old(handles[h].name) := Direct(oid)]
      ensures released == old(released) && logs == old(logs)
    {
      var fails: bool := *;
      if fails {
        var code: GitCode := *;
        return Err(code);
      }
      var name := handles[h].name;
      refs := refs[name := Direct(oid)];
      var h' := Alloc(RefRecord(name, Direct(oid)));
      r := Ok(h');
    }
  }
}
