# Reference handles and reflog iteration of the pygit2 binding

This project models the reference object of pygit2's C extension
(`src/reference.c`) in Dafny. The library underneath is replaced by an abstract
store. A reference object owns one slot. The slot holds a handle the store
handed out, or nothing once the reference has been deleted. Its operations read
the snapshot the handle holds, swap in a new handle, or release it. The
reflog iterator captures the log and its entry count when it is opened and
hands out one entry per call until its cursor reaches that count.

Modules, one per file:

- `Common` (`common.dfy`): `Option`, `Result`, and the scripting-side argument
  `PyValue` with its conversion to a C string.
- `Oids` (`oid.dfy`): 20-byte object ids and their 40-digit lowercase hex form.
- `RefStore` (`store.dfy`): the store. It holds the reference namespace
  (name to `Direct(oid)`, `Symbolic(name)` or `Untyped`), the reflogs, and the
  table of live handles with their snapshots. A ghost set records every
  released handle. Handle ids are never reused, so "released exactly once"
  and "still live" can be stated. Where the store may fail for reasons the
  binding cannot see, the model lets it fail with any error code and change
  nothing. These reasons are name validation, chain following and I/O. Two
  failures are forced because the binding's callers can see them. Delete and
  rename of a name that is no longer in the namespace give `NotFound`. A
  rename onto another existing name fails, because the binding passes
  no-overwrite.
- `Reflog` (`reflog.dfy`): the entry value type, the entries of a whole log,
  and the iterator class.
- `References` (`reference.dfy`): the reference class.
- `Scenarios` (`scenarios.dfy`): scenarios of a client using the models on small stores.

The guard that every operation starts with has a body that is not part of
this model. It is modelled as "fail with `DeletedReference` when the slot is
empty". Every operation requires `Valid()`: the slot is empty or holds a
handle the store still has live. This stands for the C rule that a freed
handle is never read. The model therefore shows that after a failed
`rename` nothing more can be done safely with the object.

A caller would expect a failed rename to leave the reference unchanged and
leak nothing. The code does not, and the model follows the code: `Rename`
releases the old handle before it looks at the store's answer (see
Findings). Resolving a direct reference returns the very same object, not
an equivalent new one, and `Resolve` says so.

## Model

| member | source | states |
|---|---|---|
| `References.Reference.Delete` | src/reference.c:120-136 | A deleted reference reports `DeletedReference`. If the store refuses the delete, its error is returned and the slot and store are unchanged; a name already gone from the namespace gives `StoreError(NotFound)`. On success the name leaves the namespace, the handle is released exactly once (it was not released before) and the slot becomes empty. The reflogs are never changed. |
| `References.Reference.Rename` | src/reference.c:144-167 | As written. A deleted reference or a non-text name fails with nothing changed. A name already gone from the namespace gives `StoreError(NotFound)`, and renaming onto another existing name always fails. On success the slot holds a fresh handle on (new name, old target), the old handle is released exactly once, the handle table is the old one minus the old handle plus the new one, and the namespace maps the new name to the old target with the old name removed. If the store call fails, the namespace is unchanged but the old handle has been released and is no longer live while the slot still holds it; `Valid()` is false exactly then. The reflogs are never changed. |
| `References.Reference.RenameChecked` | src/reference.c:158-166 | The corrected rename. The old handle is released only after the store succeeds. On every failure the reference and store are unchanged (a name already gone gives `StoreError(NotFound)`), and `Valid()` holds after every call. On success the slot, handle table and namespace are as for a successful `Rename`. |
| `References.Reference.Resolve` | src/reference.c:175-195 | A deleted reference fails. A direct reference returns the same object and the store is unchanged. A symbolic one never returns itself: it returns the store's error with nothing changed, or a fresh reference on a fresh live handle. Every successful result is a valid reference whose target is direct. The caller's slot, the namespace and the reflogs are never changed. |
| `References.Reference.GetTarget` | src/reference.c:200-220 | A direct reference gives the hex form of its oid. A symbolic reference gives the name it points at. A handle of neither type gives `ValueError("no target available")`. A deleted reference gives `DeletedReference`. Nothing is changed. |
| `References.Reference.SetTarget` | src/reference.c:222-247 | A deleted reference, a non-text argument or a store failure gives an error and leaves the reference and store untouched. The old handle is kept. On success the slot holds a fresh handle on (same name, `Symbolic(new name)`), and the namespace maps the name to that target. The old handle is released exactly once. The reflogs are never changed. |
| `References.Reference.GetName` | src/reference.c:252-257 | The snapshot's full name, or `DeletedReference`. Nothing is changed. |
| `References.Reference.GetOid` | src/reference.c:262-280 | The raw oid of a direct reference. Any other type gives `ValueError` with the "only available if the reference is direct" message. A deleted reference gives `DeletedReference`. Nothing is changed. |
| `References.Reference.SetOid` | src/reference.c:282-309 | A failed expansion returns the expansion's error. A failed store call returns the store's error. In both cases the reference and store are untouched. On success the slot holds a fresh handle on (same name, `Direct(expanded oid)`), and the old handle is released exactly once. The reflogs are never changed. |
| `References.Reference.GetHex` | src/reference.c:314-332 | The hex form of a direct reference's oid. Any other type gives the same `ValueError` as the oid getter. A deleted reference gives `DeletedReference`. Nothing is changed. |
| `References.Reference.GetType` | src/reference.c:338-346 | The type code of the snapshot's target, or `DeletedReference`. |
| `References.Reference.Log` | src/reference.c:354-368 | A live reference always gets a fresh, valid iterator. It holds the reflog of the reference's name, or an empty log when the name has none. Its size equals the log's length, its cursor is 0 and nothing has been handed out. There is no failure path other than a deleted reference. |
| `References.Reference.Wrap` | src/reference.c:520-530 | Given a live handle of a valid store, a new reference object whose slot holds that handle and which is valid. |
| `Reflog.RefLogIter.Open` | src/reference.c:361-366 | The iterator starts with the given log, `size` equal to its length, cursor 0 and nothing handed out. |
| `Reflog.RefLogIter.Next` | src/reference.c:50-72 | With `i < size`, it returns the entry built from record `i` and advances `i` by exactly one. With `i >= size`, it returns the end and leaves `i` unchanged, so repeated calls keep ending. `0 <= i <= size` is kept, and the entries handed out are always those of records `0..i-1` in order. At the end they are the whole log's entries. |
| `Reflog.EntryOf` | src/reference.c:57-63 | The entry built from a record carries the old id's hex form in `oidOld` and the new id's in `oidNew` (each 40 characters), and copies of the record's message and committer. |
| `Reflog.Entries` | src/reference.c:55-65 | The entries of a log have the log's length, and entry `k` is the one built from record `k`. |
| `Reflog.EntriesPrefixStep` | src/reference.c:55-65 | Handing out record `i` after records `0..i-1` gives the entries of records `0..i`, in order. |
| `RefStore.TypeCode` | src/reference.c:338-346 | Code 1 exactly for a direct target, 2 exactly for a symbolic one, 0 exactly for a handle of neither type. |
| `Oids.Hex` | src/reference.c:59-60 | The text form of an oid is 40 characters, each a lowercase hex digit. |
| `Common.PathToCStr` | src/reference.c:153-156 | Conversion succeeds exactly for a text argument and yields its text. |
| `RefStore.Store.Free` | src/reference.c:132-133 | Releasing a live handle removes it from the live table and adds it to the released set. It was not released before. |
| `RefStore.Store.Delete` | src/reference.c:128-130 | A name missing from the namespace gives `NotFound`. A failure changes nothing. Success removes the name and leaves the handle live. |
| `RefStore.Store.Rename` | src/reference.c:159 | A missing name gives `NotFound`, and another existing name is refused. A failure changes nothing. Success moves the target to the new name and hands out a fresh handle. The old handle stays live. |
| `RefStore.Store.Resolve` | src/reference.c:190-192 | A failure changes nothing. Success hands out a fresh handle whose target is direct, and the namespace is unchanged. |
| `RefStore.Store.SetSymbolicTarget` | src/reference.c:237-242 | A failure changes nothing. Success maps the name to the new symbolic target and hands out a fresh handle on it. |
| `RefStore.Store.SetDirectTarget` | src/reference.c:300-304 | A failure changes nothing. Success maps the name to the new oid and hands out a fresh handle on it. |
| `Scenarios.RenameOntoExistingBranch` | src/reference.c:159-165 | Renaming `refs/heads/a` onto the existing `refs/heads/b` fails with a store error and leaves the slot holding a released, no longer live handle. |
| `Scenarios.RenameCheckedOntoExistingBranch` | src/reference.c:159-165 | With the corrected rename, the same call fails and the reference still holds its live handle on `refs/heads/a`. |
| `Scenarios.DeleteThenUse` | src/reference.c:125-133 | After a successful delete, the name getter and rename both report `DeletedReference`. |
| `Scenarios.ReadThreeRecords` | src/reference.c:50-72 | On a three-record reflog, three calls give the entries of records 0, 1, 2 in order. The fourth and fifth calls give the end. |

## Findings

| source | as written | input that shows it | evidently intended | confidence | as-written member | corrected member |
|---|---|---|---|---|---|---|
| src/reference.c:159-165 | The old handle is released right after the store's rename call, before `err` is checked. On failure the function returns with the slot still holding the released handle. Any later operation then reads freed memory. Deallocation frees the handle a second time (src/reference.c:110). | A reference on `refs/heads/a`, renamed to the existing `refs/heads/b` (no-overwrite, so the store refuses). | Release the old handle only after the store succeeds. On failure, keep the live handle. | high (not executed) | `References.Reference.Rename`, `Scenarios.RenameOntoExistingBranch` | `References.Reference.RenameChecked`, `Scenarios.RenameCheckedOntoExistingBranch` |

## Left out

- Type, member, getter/setter and method tables (object registration), and
  deallocation of references, iterators and entries. Deallocation would release
  a handle a second time after the rename defect above. That is stated in
  Findings, not modelled.
- Reference counting of the returned `self` in resolve, and allocation
  failure of new objects. The entry allocation in the iterator is unchecked in
  the source, and the model treats allocation as always succeeding.
- The error channel of the interpreter. Errors are returned as `Error`
  values instead. The mapping of store error codes to exception classes is
  not part of this model.
- Conversion of results to scripting-side objects (strings, bytes, integers,
  signatures). Getters return the model's values: strings, `Oid`, `int`,
  `Signature`. The committer getter of an entry only builds such an object and
  is left out.
- The store's internals: how resolution follows symbolic chains and detects
  cycles, rename's name validation, and which ids a short hex string expands to
  (the abstract `expand` function of the store). What happens to reflog files
  on delete and rename is store policy; the model's store leaves its logs
  unchanged.
- `RefStore.Store.SetSymbolicTarget`, `RefStore.Store.SetDirectTarget` and
  `RefStore.Store.Resolve` are not forced to fail when the handle's name has
  left the namespace; the two setters may then succeed and map the name
  again. Whether the library does so is not part of this model.
- `RefStore.Store.Resolve`: states only that a successful resolve hands out a
  direct snapshot, not which reference it is, because chain following is the
  store's own.
- The return code of reading the reflog, which the source ignores. There is
  no failure path for `log()`.
- `Oids.Hex` is a concrete lowercase hex formatting that stands in for the
  library's formatter. Only its shape is stated; the hex round trip belongs
  to the codec, which is not part of this model.
- Exclusive ownership of a handle by a single reference object is not
  stated across objects. It holds by construction, since every wrapped
  handle is fresh.
- Handle ids are unbounded naturals, and the iterator's `size` and `i` are
  unbounded. The source's C integer widths never matter at these sizes.
- Concurrency: the binding has none.
