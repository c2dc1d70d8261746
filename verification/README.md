# FileProjection: a verified model of BlackBone's file mapping state machine

BlackBone's `FileProjection` maps a file into memory. It tries to load the
file as an executable image first (`SEC_IMAGE`), and falls back to a plain
read-only data mapping. It also creates an activation context from the file's
embedded manifest, trying the isolation-aware manifest resource first and the
create-process one second. `Assign` adopts a caller-owned buffer instead.
`Release` tears down whatever is held, and the path constructor and the destructor
delegate to `Project` and `Release`.

The model is functional:

- The seven fields (`_hctx`, `_manifestIdx`, `_hFile`, `_hMapping`, `_pData`,
  `_size`, `_plainData`) form an immutable `Projection` record.
- Each operation is a pure function from the old record to the new record.
  It also returns the trace of operating-system calls it made.
- Every operating-system call is an oracle. Its outcome is part of an
  `OsOutcomes` parameter, and the model branches on that outcome exactly as
  the code does.
- Handles are `Invalid | Null | Valid(id)`. A mapping object is usable when it
  is neither NULL nor INVALID_HANDLE_VALUE (`Valid?`). An activation context or
  a file handle counts as held whenever it is not INVALID_HANDLE_VALUE, because
  that is the only test the code applies to them.

Files:

- `os_calls.dfy` (module `OsCalls`): handles, pointers, the calls, and the
  resources each call acquires or releases. It also holds the teardown rank of
  the release calls, and trace lemmas (append, one-call traces).
- `file_projection.dfy` (module `FileProjection`): the record, `Release`,
  `Assign`, `Project` and its parts, and the call-order lemmas.
- `accounting.dfy` (module `Accounting`): resource accounting per operation.
  Each operation gives back exactly what the instance held, and the instance
  then owns exactly what the operation acquired.
- `lifecycle.dfy` (module `Lifecycle`): construction, destruction, any sequence
  of calls, and the whole-lifetime theorem that nothing leaks and nothing is
  released twice.

### Behaviour of the code worth knowing

The model reproduces each of these points as the code behaves:

- `Project` is documented to return "nullptr if failed"
  (FileProjection.cpp:28). The code does not always do so. `_pData` is cleared
  only while a usable mapping handle is held (FileProjection.cpp:121-127), so
  after `Assign`, `Release` keeps the buffer pointer
  (`Accounting.AssignThenRelease`). A later `Project` that opens no file, or
  creates no mapping, then returns that stale pointer instead of null
  (`Accounting.FailedProjectAfterAssign`).
- In image mode the size comes from the section query
  (FileProjection.cpp:67-69) whether or not `MapViewOfFile` returned null at
  line 65. So a null base address can come with a non-zero size
  (`Accounting.NullViewWithSize`).
- A project whose file does not open does not leave the instance empty. The
  activation context is created before the file is opened, so it can still
  be held.
- `Release` never resets `_plainData` or `_manifestIdx`. A `Project` whose two
  activation-context attempts both fail keeps the old `_manifestIdx`.
- A mapping handle that came back as INVALID_HANDLE_VALUE stays INVALID after
  `Release`. Only a usable mapping handle is reset, and it is reset to NULL.

## Model

| member | source | states |
|---|---|---|
| FileProjection.Release | src/BlackBone/PE/FileProjection.cpp:113-140 | Afterwards the context and file handles are INVALID and the size is 0. A usable mapping handle becomes NULL, and the base address is cleared only in that case; an unusable mapping handle and its base address stay as they were. The mode flag and the manifest index are untouched. The instance then holds nothing. |
| FileProjection.ReleaseInTeardownOrder | src/BlackBone/PE/FileProjection.cpp:115-137 | `Release` makes only release calls, each kind at most once, in the order: activation context, view, mapping object, file. |
| FileProjection.TeardownGivesBackHeld | src/BlackBone/PE/FileProjection.cpp:115-137 | The teardown calls give back each held resource exactly once. A view is unmapped only under a usable mapping handle, so no unmap happens after `Assign`. |
| FileProjection.ReleaseGivesBackHeld | src/BlackBone/PE/FileProjection.cpp:113-140 | The multiset of resources `Release` gives back equals what the instance held, and `Release` acquires nothing. |
| FileProjection.Assign | src/BlackBone/PE/FileProjection.cpp:95-107 | The calls are exactly `Release`'s. The stored address is returned, and address, size and mode flag equal the arguments. No handle is held afterwards: the mapping handle keeps the value `Release` leaves (NULL if it was usable, otherwise unchanged), and the manifest index is unchanged. |
| FileProjection.LowPart | src/BlackBone/PE/FileProjection.cpp:67-69 | The stored size is a 32-bit value congruent to the section size modulo 2^32: its low 32 bits. |
| FileProjection.WithContext | src/BlackBone/PE/FileProjection.cpp:38-51 | Activation-context selection changes only the context handle and the manifest index. |
| FileProjection.Mapped | src/BlackBone/PE/FileProjection.cpp:57-83 | Mapping leaves the context handle, the file handle and the manifest index unchanged. |
| FileProjection.Project | src/BlackBone/PE/FileProjection.cpp:29-86 | Returns the final base address. The rules it follows: (1) The context handle is the first attempt's if that succeeded, else the second's. (2) The manifest index becomes 2 on first-try success and 1 on second-try success, and is unchanged if both fail. (3) The file handle is the open's outcome. (4) If the open failed, mapping handle, address and mode flag keep their post-release values and the size is 0. (5) The mode flag is false exactly when the image section is usable. (6) Image mode takes the view and the low 32 bits of the section size, even when the view is null. (7) Data mode takes the view and the file size only when the data mapping is usable; otherwise the size stays 0 and the address is whatever the release left. |
| FileProjection.ProjectCallOrder | src/BlackBone/PE/FileProjection.cpp:29-83 | The trace starts with the release calls, and no later call releases anything. The activation-context calls come right after the release and before the file is opened. The isolation-aware manifest is tried first, and the create-process manifest only after it failed. No mapping is tried when the open failed. Otherwise the image section is tried first, and the data mapping only when the image handle is NULL or INVALID. |
| FileProjection.ContextBeforeOpen | src/BlackBone/PE/FileProjection.cpp:31-57 | In `Project`'s trace the activation-context calls come directly after the release calls, and `CreateFile` is the very next call. |
| FileProjection.ContextAttempts | src/BlackBone/PE/FileProjection.cpp:38-51 | The context calls try `[IsolationAware]` when the first attempt succeeds and `[IsolationAware, CreateProcess]` otherwise, and they release nothing. |
| FileProjection.MapAttempts | src/BlackBone/PE/FileProjection.cpp:60-82 | The mapping modes tried are `[Image]` or `[Image, Data]`, decided by the image handle alone, and nothing is released. |
| FileProjection.AcquireAttempts | src/BlackBone/PE/FileProjection.cpp:38-83 | After its release, `Project` releases nothing. Its context and mapping attempts are as above, and there is no mapping attempt when the open failed. |
| Accounting.ContextAcquires | src/BlackBone/PE/FileProjection.cpp:40-51 | The context attempts acquire exactly the context the instance then holds. A failed attempt acquires nothing. |
| Accounting.MapAcquires | src/BlackBone/PE/FileProjection.cpp:57-83 | The mapping calls acquire exactly the mapping object and view the instance then holds. |
| Accounting.AcquireAccounting | src/BlackBone/PE/FileProjection.cpp:38-83 | Starting from an instance that holds nothing, the instance ends up holding exactly what `Project`'s calls after the release acquired. |
| Accounting.ProjectAccounting | src/BlackBone/PE/FileProjection.cpp:29-86 | `Project` gives back exactly what the instance held, and then holds exactly what it acquired. Projecting twice never accumulates resources. |
| Accounting.AssignAccounting | src/BlackBone/PE/FileProjection.cpp:95-107 | `Assign` gives back exactly what the instance held, acquires nothing, and leaves nothing held. |
| Accounting.ReleaseIdempotent | src/BlackBone/PE/FileProjection.cpp:113-140 | A second `Release` leaves the state as the first left it and makes no call. |
| Accounting.AssignThenRelease | src/BlackBone/PE/FileProjection.cpp:95-140 | `Release` after `Assign` makes no call: it never unmaps the buffer or closes anything. It keeps the buffer address and mode flag, and sets the size to 0. |
| Accounting.FailedProjectAfterAssign | src/BlackBone/PE/FileProjection.cpp:53-85 | A `Project` after `Assign` that opens no file, or creates no mapping, returns the assigned buffer rather than null. |
| Accounting.NullViewWithSize | src/BlackBone/PE/FileProjection.cpp:62-69 | An example: an image section whose view failed gives a null base address with a non-zero size, and image mode. |
| Lifecycle.Construct | src/BlackBone/PE/FileProjection.cpp:8-10 | A default-constructed instance holds nothing, maps nothing, and has size 0. Releasing it makes no call and changes nothing. |
| Lifecycle.ConstructFromPath | src/BlackBone/PE/FileProjection.cpp:12-15 | The path constructor gives nothing back and holds exactly what its projection acquired. |
| Lifecycle.Destroy | src/BlackBone/PE/FileProjection.cpp:18-21 | The destructor gives back exactly what the instance holds, acquires nothing, and leaves nothing held. |
| Lifecycle.Apply | src/BlackBone/PE/FileProjection.cpp:29-140 | Every public call first gives back exactly what was held, then holds exactly what it acquired. |
| Lifecycle.RunAccounting | src/BlackBone/PE/FileProjection.cpp:29-140 | Over any sequence of calls, what was acquired plus what was held at the start equals what was given back plus what is held at the end. |
| Lifecycle.Lifetime | src/BlackBone/PE/FileProjection.cpp:8-21 | From construction to destruction, with any calls in between, the resources acquired and the resources given back are the same multiset: nothing leaks and nothing is released twice. |
| Lifecycle.NeverReleasesUnowned | src/BlackBone/PE/FileProjection.cpp:113-140 | After every sequence of calls from construction, everything given back so far had been acquired before. |

## Left out

- The Win32 and NT calls themselves are not modelled. `CreateActCtxW`, `CreateFileW`, `CreateFileMappingW`, `MapViewOfFile`, `NtQuerySection` (resolved through `GET_IMPORT`), `GetFileSize`, `ReleaseActCtx`, `UnmapViewOfFile` and `CloseHandle` are foreign calls. Each is an oracle whose outcome is a parameter, and the release calls' own results are ignored, as the code ignores them.
- The path string, access and share flags, the `ACTCTXW` fields other than the manifest resource id, and the mapping protection flags are left out. They carry no decision logic.
- The status that `NtQuerySection` returns is left out, because the code ignores it. The oracle supplies the signed 64-bit `Size` field (`Int64`) as the call leaves it, which is 0 if the call wrote nothing.
- The high half of the file size is left out, because the code passes NULL for it. The oracle supplies the DWORD `GetFileSize` returns, including INVALID_FILE_SIZE as a plain value.
- `_size` is an unbounded natural number. The header that declares its width is not part of this model, and every value stored into it fits in 32 bits, except the caller-supplied `Assign` size.
- The initial field values come from the header, which is not part of this model. A default-constructed instance is assumed to hold INVALID_HANDLE_VALUE for `_hctx` and `_hFile`, NULL for `_hMapping`, a null `_pData`, 0 for `_size` and `_manifestIdx`, and false for `_plainData`. These match the sentinels `Release` writes.
- SEC_IMAGE loader layout, PE parsing and the contents of mapped memory are left out. The operating-system loader does that work.
- Thread safety is left out. Instances are unsynchronised, and nothing here runs concurrently.
- The default argument `plainData = true` of `Assign` (FileProjection.cpp:95) is not modelled: callers of the model pass `true` explicitly.
- The ownership and lifetime of the buffer passed to `Assign` are left out. That memory belongs to the caller.
- The read accessors of the header are left out. They only return fields, and the fields are visible in the record.
