/**
 The state machine of a file projection: an instance that maps a file into
 memory, as an executable image when the loader accepts it and as plain data
 otherwise, and that also holds an activation context built from the file's
 embedded manifest.

 The instance is an immutable record. Each operation is a pure function from
 the old record, and from the outcomes the operating system reports, to the new
 record plus the trace of calls the operation made.
 */
module FileProjection {
  import opened OsCalls

  /** The seven fields of an instance. */
  datatype Projection = Projection(
    hctx: Handle,          // activation context
    manifestIdx: int,      // 2: isolation-aware manifest, 1: create-process manifest
    hFile: Handle,         // the opened file
    hMapping: Handle,      // the mapping object
    pData: Pointer,        // base of the mapped view, or the assigned buffer
    size: nat,             // bytes at pData
    plainData: bool        // mapped as raw data rather than as an image
  )

  /** The outcome every operating-system call of one `Project` would report.
      A call that is not made leaves its outcome unused. */
  datatype OsOutcomes = OsOutcomes(
    isolationCtx: Handle,      // CreateActCtxW with the isolation-aware manifest id
    createProcessCtx: Handle,  // CreateActCtxW with the create-process manifest id
    file: Handle,              // CreateFileW
    imageMapping: Handle,      // CreateFileMappingW with SEC_IMAGE
    dataMapping: Handle,       // CreateFileMappingW without SEC_IMAGE
    view: Pointer,             // MapViewOfFile
    sectionSize: Int64,        // the 64-bit Size field NtQuerySection leaves behind
    fileSize: Dword            // GetFileSize
  )

  /** A state together with the calls made to reach it. */
  datatype Step = Step(state: Projection, trace: seq<Call>)

  /** A step of an operation that also hands back a base address. */
  datatype Outcome = Outcome(state: Projection, trace: seq<Call>, base: Pointer)

  /** The field values of a freshly constructed instance. */
  const Empty := Projection(Invalid, 0, Invalid, Null, Nil, 0, false)

  /** The low 32 bits of a 64-bit size, read through LowPart. */
  function LowPart(x: int): (r: Dword)
    ensures exists k :: x == k * 0x1_0000_0000 + r
  {
    var r := x % 0x1_0000_0000;
    assert x == (x / 0x1_0000_0000) * 0x1_0000_0000 + r;
    r
  }

  /** The resources an instance owns: those `Release` is bound to give back.
      A mapped view counts only while a usable mapping object is held. */
  function Held(s: Projection): multiset<Resource> {
    Optional(s.hctx != Invalid, multiset{ActivationContext(s.hctx)})
    + Optional(s.hMapping.Valid? && s.pData != Nil, multiset{View(s.pData)})
    + Optional(s.hMapping.Valid?, multiset{Section(s.hMapping)})
    + Optional(s.hFile != Invalid, multiset{OpenFile(s.hFile)})
  }

  /* ---------------------------------------------------------------- Release */

  /** The calls `Release` makes: one per resource still held, activation
      context first, then the view (only under a usable mapping object), the
      mapping object, and the file. */
  function TeardownCalls(s: Projection): seq<Call> {
    OptionalCall(s.hctx != Invalid, ReleaseActCtx(s.hctx))
    + OptionalCall(s.hMapping.Valid? && s.pData != Nil, UnmapView(s.pData))
    + OptionalCall(s.hMapping.Valid?, CloseMapping(s.hMapping))
    + OptionalCall(s.hFile != Invalid, CloseFile(s.hFile))
  }

  /** Releases whatever the instance holds, resetting each released field to
      its sentinel. The size always becomes 0; the base address is cleared only
      together with a usable mapping object; the mode flag and the manifest
      index are never touched. */
  function Release(s: Projection): (r: Step)
    ensures r.state.hctx == Invalid && r.state.hFile == Invalid && r.state.size == 0
    ensures !r.state.hMapping.Valid?
    ensures s.hMapping.Valid? ==> r.state.hMapping == Null && r.state.pData == Nil
    ensures !s.hMapping.Valid? ==> r.state.hMapping == s.hMapping && r.state.pData == s.pData
    ensures r.state.plainData == s.plainData && r.state.manifestIdx == s.manifestIdx
    ensures Held(r.state) == multiset{}
  {
    var mapped := s.hMapping.Valid?;
    var after := Projection(
      hctx := Invalid,
      manifestIdx := s.manifestIdx,
      hFile := Invalid,
      hMapping := if mapped then Null else s.hMapping,
      pData := if mapped && s.pData != Nil then Nil else s.pData,
      size := 0,
      plainData := s.plainData);
    Step(after, TeardownCalls(s))
  }

  /** `Release` makes release calls only, in teardown order. */
  lemma ReleaseInTeardownOrder(s: Projection)
    ensures InTeardownOrder(Release(s).trace)
  {
    var c := OptionalCall(s.hctx != Invalid, ReleaseActCtx(s.hctx));
    var v := OptionalCall(s.hMapping.Valid? && s.pData != Nil, UnmapView(s.pData));
    var m := OptionalCall(s.hMapping.Valid?, CloseMapping(s.hMapping));
    assert InTeardownOrder(c) && RanksBelow(c, 1);
    OrderedAppend(c, s.hMapping.Valid? && s.pData != Nil, UnmapView(s.pData));
    OrderedAppend(c + v, s.hMapping.Valid?, CloseMapping(s.hMapping));
    OrderedAppend(c + v + m, s.hFile != Invalid, CloseFile(s.hFile));
  }

  /** The teardown calls give back one of each resource held, and nothing else. */
  lemma TeardownGivesBackHeld(s: Projection)
    ensures Released(TeardownCalls(s)) == Held(s)
  {
    ReleasedOptionalFour(
      s.hctx != Invalid, ReleaseActCtx(s.hctx), ActivationContext(s.hctx),
      s.hMapping.Valid? && s.pData != Nil, UnmapView(s.pData), View(s.pData),
      s.hMapping.Valid?, CloseMapping(s.hMapping), Section(s.hMapping),
      s.hFile != Invalid, CloseFile(s.hFile), OpenFile(s.hFile));
  }

  /** What `Release` gives back is exactly what the instance held, and it
      acquires nothing. */
  lemma ReleaseGivesBackHeld(s: Projection)
    ensures Released(Release(s).trace) == Held(s)
    ensures Acquired(Release(s).trace) == multiset{}
  {
    TeardownGivesBackHeld(s);
    ReleaseInTeardownOrder(s);
    ReleaseOnlyTrace(Release(s).trace);
  }

  /* ----------------------------------------------------------------- Assign */

  /** Releases, then adopts a caller-owned buffer without acquiring anything. */
  function Assign(s: Projection, buffer: Pointer, size: nat, plainData: bool): (r: Outcome)
    ensures r.base == buffer == r.state.pData
    ensures r.state.size == size && r.state.plainData == plainData
    ensures r.state.hctx == Invalid && r.state.hFile == Invalid && !r.state.hMapping.Valid?
    ensures r.state.hMapping == (if s.hMapping.Valid? then Null else s.hMapping)
    ensures r.state.manifestIdx == s.manifestIdx
    ensures Held(r.state) == multiset{}
    ensures r.trace == Release(s).trace
  {
    var rel := Release(s);
    var st := rel.state.(pData := buffer, plainData := plainData, size := size);
    Outcome(st, rel.trace, st.pData)
  }

  /* ---------------------------------------------------------------- Project */

  /** The activation-context calls: the isolation-aware manifest first, and
      the create-process manifest only when that fails. */
  function ContextCalls(os: OsOutcomes): seq<Call> {
    if os.isolationCtx != Invalid then
      [CreateActCtx(IsolationAware, os.isolationCtx)]
    else
      [CreateActCtx(IsolationAware, Invalid), CreateActCtx(CreateProcess, os.createProcessCtx)]
  }

  /** The fields after the activation-context attempts: the context handle is
      the last one created, and the manifest index records which attempt
      succeeded, or stays as it was. */
  function WithContext(s: Projection, os: OsOutcomes): (r: Projection)
    ensures r == s.(hctx := r.hctx, manifestIdx := r.manifestIdx)
  {
    if os.isolationCtx != Invalid then
      s.(hctx := os.isolationCtx, manifestIdx := 2)
    else if os.createProcessCtx != Invalid then
      s.(hctx := os.createProcessCtx, manifestIdx := 1)
    else
      s.(hctx := os.createProcessCtx)
  }

  /** The mapping calls on an opened file: an image section first, a plain
      data mapping only when the image section is not usable; a view, and a
      size query, only under a usable mapping object. */
  function MapCalls(file: Handle, os: OsOutcomes): seq<Call> {
    var image := os.imageMapping;
    var data := os.dataMapping;
    if image.Valid? then
      [CreateMapping(Image, file, image), MapView(image, os.view), QuerySection(image, os.sectionSize)]
    else if data.Valid? then
      [CreateMapping(Image, file, image), CreateMapping(Data, file, data),
       MapView(data, os.view), GetFileSize(file, os.fileSize)]
    else
      [CreateMapping(Image, file, image), CreateMapping(Data, file, data)]
  }

  /** The fields after mapping an opened file. */
  function Mapped(s: Projection, os: OsOutcomes): (r: Projection)
    ensures r.hctx == s.hctx && r.hFile == s.hFile && r.manifestIdx == s.manifestIdx
  {
    var image := os.imageMapping;
    var data := os.dataMapping;
    if image.Valid? then
      s.(hMapping := image, plainData := false, pData := os.view, size := LowPart(os.sectionSize))
    else if data.Valid? then
      s.(hMapping := data, plainData := true, pData := os.view, size := os.fileSize)
    else
      s.(hMapping := data, plainData := true)
  }

  /** Every call `Project` makes after its initial release. */
  function AcquireCalls(os: OsOutcomes): seq<Call> {
    ContextCalls(os) + [CreateFile(os.file)]
    + (if os.file != Invalid then MapCalls(os.file, os) else [])
  }

  /** The fields `Project` ends with, starting from the released instance. */
  function Acquire(s: Projection, os: OsOutcomes): Projection {
    var withFile := WithContext(s, os).(hFile := os.file);
    if os.file != Invalid then Mapped(withFile, os) else withFile
  }

  /** Releases, then maps the file the outcomes describe, and returns the base
      address: null when the view failed, and when no mapping object was
      created whatever address the release left behind. */
  function Project(s: Projection, os: OsOutcomes): (r: Outcome)
    ensures r.base == r.state.pData
    // activation context
    ensures r.state.hctx == (if os.isolationCtx != Invalid then os.isolationCtx else os.createProcessCtx)
    ensures r.state.manifestIdx ==
      (if os.isolationCtx != Invalid then 2
       else if os.createProcessCtx != Invalid then 1
       else s.manifestIdx)
    // the file
    ensures r.state.hFile == os.file
    ensures os.file == Invalid ==>
      && r.state.hMapping == Release(s).state.hMapping
      && r.state.pData == Release(s).state.pData
      && r.state.size == 0
      && r.state.plainData == s.plainData
    // the mapping
    ensures os.file != Invalid ==>
      && (r.state.plainData <==> !os.imageMapping.Valid?)
      && r.state.hMapping == (if os.imageMapping.Valid? then os.imageMapping else os.dataMapping)
    ensures os.file != Invalid && os.imageMapping.Valid? ==>
      r.state.pData == os.view && r.state.size == LowPart(os.sectionSize)
    ensures os.file != Invalid && !os.imageMapping.Valid? && os.dataMapping.Valid? ==>
      r.state.pData == os.view && r.state.size == os.fileSize
    ensures os.file != Invalid && !os.imageMapping.Valid? && !os.dataMapping.Valid? ==>
      r.state.pData == Release(s).state.pData && r.state.size == 0
  {
    var rel := Release(s);
    var st := Acquire(rel.state, os);
    Outcome(st, rel.trace + AcquireCalls(os), st.pData)
  }

  /** The calls `Project` makes: first the release calls, then no further
      release; the activation-context calls before the file is opened, the
      isolation-aware manifest before the create-process one; the image
      section before the data mapping, and no mapping at all when the file
      did not open. */
  lemma ProjectCallOrder(s: Projection, os: OsOutcomes)
    ensures Release(s).trace <= Project(s, os).trace
    ensures ReleasesNothing(Project(s, os).trace[|Release(s).trace|..])
    ensures |Release(s).trace| + |ContextCalls(os)| < |Project(s, os).trace|
    ensures Project(s, os).trace[|Release(s).trace|..|Release(s).trace| + |ContextCalls(os)|] == ContextCalls(os)
    ensures Project(s, os).trace[|Release(s).trace| + |ContextCalls(os)|] == CreateFile(os.file)
    ensures ActCtxAttempts(Project(s, os).trace) ==
      (if os.isolationCtx != Invalid then [IsolationAware] else [IsolationAware, CreateProcess])
    ensures MappingAttempts(Project(s, os).trace) ==
      (if os.file == Invalid then []
       else if os.imageMapping.Valid? then [Image] else [Image, Data])
  {
    var rel := Release(s).trace;
    var acq := AcquireCalls(os);
    ReleaseInTeardownOrder(s);
    ReleaseOnlyTrace(rel);
    AcquireAttempts(os);
    ActCtxAttemptsAppend(rel, acq);
    MappingAttemptsAppend(rel, acq);
    assert (rel + acq)[|rel|..] == acq;
    ContextBeforeOpen(s, os);
  }

  /** In `Project`'s trace the activation-context calls follow the release
      calls directly, and the file is opened right after them. */
  lemma ContextBeforeOpen(s: Projection, os: OsOutcomes)
    ensures |Release(s).trace| + |ContextCalls(os)| < |Project(s, os).trace|
    ensures Project(s, os).trace[|Release(s).trace|..|Release(s).trace| + |ContextCalls(os)|] == ContextCalls(os)
    ensures Project(s, os).trace[|Release(s).trace| + |ContextCalls(os)|] == CreateFile(os.file)
  {
    var maps := if os.file != Invalid then MapCalls(os.file, os) else [];
    assert Project(s, os).trace == Release(s).trace + (ContextCalls(os) + [CreateFile(os.file)] + maps);
    OpenAfterContext(Release(s).trace, ContextCalls(os), CreateFile(os.file), maps);
  }

  /** Where the context calls and the open sit in a trace laid out as
      release, context calls, open, mapping calls (`maps`). */
  lemma OpenAfterContext(rel: seq<Call>, ctx: seq<Call>, open: Call, maps: seq<Call>)
    ensures var t := rel + (ctx + [open] + maps);
            && |rel| + |ctx| < |t|
            && t[|rel|..|rel| + |ctx|] == ctx
            && t[|rel| + |ctx|] == open
  {
    var t := rel + (ctx + [open] + maps);
    assert t[|rel|..|rel| + |ctx|] == (ctx + [open] + maps)[..|ctx|];
  }

  /* ------------------------------------------------------ attempt orderings */

  /** The activation-context calls: which manifests they try, in order. */
  lemma ContextAttempts(os: OsOutcomes)
    ensures ReleasesNothing(ContextCalls(os))
    ensures ActCtxAttempts(ContextCalls(os)) ==
      (if os.isolationCtx != Invalid then [IsolationAware] else [IsolationAware, CreateProcess])
    ensures MappingAttempts(ContextCalls(os)) == []
  {
    var first := CreateActCtx(IsolationAware, os.isolationCtx);
    var second := CreateActCtx(CreateProcess, os.createProcessCtx);
    Single(first);
    if os.isolationCtx == Invalid {
      Single(second);
      Cons(first, [second]);
    }
  }

  /** A usable image section: one mapping attempt, in image mode. */
  lemma ImageAttempts(file: Handle, image: Handle, view: Pointer, size: Int64)
    ensures var t := [CreateMapping(Image, file, image), MapView(image, view), QuerySection(image, size)];
            ReleasesNothing(t) && ActCtxAttempts(t) == [] && MappingAttempts(t) == [Image]
  {
    var t := [CreateMapping(Image, file, image), MapView(image, view), QuerySection(image, size)];
    assert t[1..][1..][1..] == [];
    assert ActCtxAttempts(t[1..][1..]) == [] && MappingAttempts(t[1..][1..]) == [];
    assert ActCtxAttempts(t[1..]) == [] && MappingAttempts(t[1..]) == [];
  }

  /** A failed image section: a second mapping attempt, in data mode. */
  lemma DataAttempts(file: Handle, image: Handle, data: Handle, rest: seq<Call>)
    requires ReleasesNothing(rest) && ActCtxAttempts(rest) == [] && MappingAttempts(rest) == []
    ensures var t := [CreateMapping(Image, file, image), CreateMapping(Data, file, data)] + rest;
            ReleasesNothing(t) && ActCtxAttempts(t) == [] && MappingAttempts(t) == [Image, Data]
  {
    var t := [CreateMapping(Image, file, image), CreateMapping(Data, file, data)] + rest;
    assert t[1..][1..] == rest;
    assert ActCtxAttempts(t[1..]) == [] && MappingAttempts(t[1..]) == [Data];
  }

  /** The view and size query that follow a usable data mapping try nothing. */
  lemma DataTailAttempts(file: Handle, data: Handle, view: Pointer, size: Dword)
    ensures var t := [MapView(data, view), GetFileSize(file, size)];
            ReleasesNothing(t) && ActCtxAttempts(t) == [] && MappingAttempts(t) == []
  {
    var t := [MapView(data, view), GetFileSize(file, size)];
    assert t[1..][1..] == [];
    assert ActCtxAttempts(t[1..]) == [] && MappingAttempts(t[1..]) == [];
  }

  /** The mapping calls: which modes they try, in order. */
  lemma MapAttempts(file: Handle, os: OsOutcomes)
    ensures ReleasesNothing(MapCalls(file, os))
    ensures ActCtxAttempts(MapCalls(file, os)) == []
    ensures MappingAttempts(MapCalls(file, os)) ==
      (if os.imageMapping.Valid? then [Image] else [Image, Data])
  {
    var image := os.imageMapping;
    var data := os.dataMapping;
    if image.Valid? {
      ImageAttempts(file, image, os.view, os.sectionSize);
    } else if data.Valid? {
      DataTailAttempts(file, data, os.view, os.fileSize);
      DataAttempts(file, image, data, [MapView(data, os.view), GetFileSize(file, os.fileSize)]);
      assert MapCalls(file, os) == [CreateMapping(Image, file, image), CreateMapping(Data, file, data)]
        + [MapView(data, os.view), GetFileSize(file, os.fileSize)];
    } else {
      DataAttempts(file, image, data, []);
      assert MapCalls(file, os) == [CreateMapping(Image, file, image), CreateMapping(Data, file, data)] + [];
    }
  }

  /** The attempts `Project` makes after releasing, and that none of its
      calls gives anything back. */
  lemma AcquireAttempts(os: OsOutcomes)
    ensures ReleasesNothing(AcquireCalls(os))
    ensures ActCtxAttempts(AcquireCalls(os)) ==
      (if os.isolationCtx != Invalid then [IsolationAware] else [IsolationAware, CreateProcess])
    ensures MappingAttempts(AcquireCalls(os)) ==
      (if os.file == Invalid then []
       else if os.imageMapping.Valid? then [Image] else [Image, Data])
  {
    ContextAttempts(os);
    Single(CreateFile(os.file));
    if os.file != Invalid {
      MapAttempts(os.file, os);
      ConcatAttempts(ContextCalls(os), [CreateFile(os.file)], MapCalls(os.file, os));
      ConcatReleasesNothing(ContextCalls(os), [CreateFile(os.file)], MapCalls(os.file, os));
    } else {
      assert AcquireCalls(os) == ContextCalls(os) + [CreateFile(os.file)] + [];
      ConcatAttempts(ContextCalls(os), [CreateFile(os.file)], []);
      ConcatReleasesNothing(ContextCalls(os), [CreateFile(os.file)], []);
    }
  }
}
