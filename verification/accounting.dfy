/**
 Resource accounting for one operation of a file projection: what it gives
 back, what it acquires, and what the instance owns afterwards.

 The central fact is that every operation first gives back exactly what the
 instance held, and that the instance then owns exactly what the operation
 acquired: nothing is leaked across re-use and nothing is released twice.
 */
module Accounting {
  import opened OsCalls
  import opened FileProjection

  /** The activation context an instance owns, if any. */
  function HeldContext(s: Projection): multiset<Resource> {
    Optional(s.hctx != Invalid, multiset{ActivationContext(s.hctx)})
  }

  /** The view and mapping object an instance owns, if any. */
  function HeldMapping(s: Projection): multiset<Resource> {
    Optional(s.hMapping.Valid? && s.pData != Nil, multiset{View(s.pData)})
    + Optional(s.hMapping.Valid?, multiset{Section(s.hMapping)})
  }

  /** The file an instance owns, if any. */
  function HeldFile(s: Projection): multiset<Resource> {
    Optional(s.hFile != Invalid, multiset{OpenFile(s.hFile)})
  }

  /** The instance's holdings split into context, mapping and file. */
  lemma HeldSplit(s: Projection)
    ensures Held(s) == HeldContext(s) + HeldMapping(s) + HeldFile(s)
  {
  }

  /** Reordering three parts of a sum. */
  lemma Swap<T>(a: multiset<T>, b: multiset<T>, c: multiset<T>)
    ensures a + b + c == a + c + b
  {
  }

  lemma AcquiredTwo(a: Call, b: Call)
    ensures Acquired([a, b]) == Acquires(a) + Acquires(b)
  {
    assert [a, b][1..] == [b];
    Single(b);
  }

  lemma AcquiredThree(a: Call, b: Call, c: Call)
    ensures Acquired([a, b, c]) == Acquires(a) + Acquires(b) + Acquires(c)
  {
    assert [a, b, c][1..] == [b, c];
    AcquiredTwo(b, c);
  }

  lemma AcquiredFour(a: Call, b: Call, c: Call, d: Call)
    ensures Acquired([a, b, c, d]) == Acquires(a) + Acquires(b) + Acquires(c) + Acquires(d)
  {
    assert [a, b, c, d][1..] == [b, c, d];
    AcquiredThree(b, c, d);
  }

  /** The activation-context attempts acquire exactly the context the instance
      then holds: a failed attempt acquires nothing. */
  lemma ContextAcquires(s: Projection, os: OsOutcomes)
    ensures Acquired(ContextCalls(os)) == HeldContext(WithContext(s, os))
  {
    if os.isolationCtx != Invalid {
      Single(CreateActCtx(IsolationAware, os.isolationCtx));
    } else {
      AcquiredTwo(CreateActCtx(IsolationAware, Invalid), CreateActCtx(CreateProcess, os.createProcessCtx));
    }
  }

  /** A usable image section acquires the section and, when it maps, the view. */
  lemma ImageAcquires(file: Handle, image: Handle, view: Pointer, size: Int64)
    requires image.Valid?
    ensures Acquired([CreateMapping(Image, file, image), MapView(image, view), QuerySection(image, size)])
         == Optional(view != Nil, multiset{View(view)}) + multiset{Section(image)}
  {
    AcquiredThree(CreateMapping(Image, file, image), MapView(image, view), QuerySection(image, size));
  }

  /** A failed image section followed by a usable data mapping acquires the
      data mapping and, when it maps, the view. */
  lemma DataAcquires(file: Handle, image: Handle, data: Handle, view: Pointer, size: Dword)
    requires !image.Valid? && data.Valid?
    ensures Acquired([CreateMapping(Image, file, image), CreateMapping(Data, file, data),
                      MapView(data, view), GetFileSize(file, size)])
         == Optional(view != Nil, multiset{View(view)}) + multiset{Section(data)}
  {
    AcquiredFour(CreateMapping(Image, file, image), CreateMapping(Data, file, data),
      MapView(data, view), GetFileSize(file, size));
  }

  /** The mapping calls acquire exactly the mapping object and view the
      instance then holds. */
  lemma MapAcquires(s: Projection, os: OsOutcomes)
    ensures Acquired(MapCalls(os.file, os)) == HeldMapping(Mapped(s, os))
  {
    var image := os.imageMapping;
    var data := os.dataMapping;
    if image.Valid? {
      ImageAcquires(os.file, image, os.view, os.sectionSize);
    } else if data.Valid? {
      DataAcquires(os.file, image, data, os.view, os.fileSize);
    } else {
      AcquiredTwo(CreateMapping(Image, os.file, image), CreateMapping(Data, os.file, data));
    }
  }

  /** From an instance that owns nothing, the acquiring half of `Project`
      leaves the instance owning exactly what its calls acquired, and gives
      nothing back. */
  lemma AcquireAccounting(s: Projection, os: OsOutcomes)
    requires Held(s) == multiset{}
    ensures Held(Acquire(s, os)) == Acquired(AcquireCalls(os))
    ensures Released(AcquireCalls(os)) == multiset{}
  {
    var ctx := ContextCalls(os);
    var open := [CreateFile(os.file)];
    var st := Acquire(s, os);
    AcquireAttempts(os);
    NothingReleased(AcquireCalls(os));
    Single(CreateFile(os.file));
    ContextAcquires(s, os);
    HeldSplit(st);
    assert HeldContext(st) == Acquired(ctx);
    assert HeldFile(st) == Acquired(open);
    if os.file != Invalid {
      ConcatAcquired(ctx, open, MapCalls(os.file, os));
      MapAcquires(WithContext(s, os).(hFile := os.file), os);
    } else {
      assert AcquireCalls(os) == ctx + open + [];
      ConcatAcquired(ctx, open, []);
      HeldSplit(s);
      assert HeldMapping(st) == HeldMapping(s) == multiset{};
    }
    Swap(HeldContext(st), HeldMapping(st), HeldFile(st));
  }

  /** `Project` gives back exactly what the instance held, and afterwards the
      instance owns exactly what the projection acquired: projecting twice
      never accumulates resources. */
  lemma ProjectAccounting(s: Projection, os: OsOutcomes)
    ensures Released(Project(s, os).trace) == Held(s)
    ensures Held(Project(s, os).state) == Acquired(Project(s, os).trace)
  {
    var rel := Release(s);
    var acq := AcquireCalls(os);
    assert Project(s, os).trace == rel.trace + acq;
    ReleaseGivesBackHeld(s);
    AcquireAccounting(rel.state, os);
    AcquiredAppend(rel.trace, acq);
    ReleasedAppend(rel.trace, acq);
  }

  /** `Assign` gives back what the instance held and acquires nothing. */
  lemma AssignAccounting(s: Projection, buffer: Pointer, size: nat, plainData: bool)
    ensures Released(Assign(s, buffer, size, plainData).trace) == Held(s)
    ensures Acquired(Assign(s, buffer, size, plainData).trace) == multiset{}
    ensures Held(Assign(s, buffer, size, plainData).state) == multiset{}
  {
    ReleaseGivesBackHeld(s);
  }

  /** `Release` is idempotent: a second call changes nothing and calls nothing. */
  lemma ReleaseIdempotent(s: Projection)
    ensures Release(Release(s).state).state == Release(s).state
    ensures Release(Release(s).state).trace == []
  {
  }

  /** After `Assign`, `Release` makes no call at all: the buffer is never
      unmapped and no handle is closed. The buffer address survives the
      release, and so do the mode flag and the manifest index. */
  lemma AssignThenRelease(s: Projection, buffer: Pointer, size: nat, plainData: bool)
    ensures Release(Assign(s, buffer, size, plainData).state).trace == []
    ensures Release(Assign(s, buffer, size, plainData).state).state.pData == buffer
    ensures Release(Assign(s, buffer, size, plainData).state).state.size == 0
    ensures Release(Assign(s, buffer, size, plainData).state).state.plainData == plainData
  {
  }

  /** A `Project` that creates no mapping hands back the buffer an earlier
      `Assign` stored, not null. */
  lemma FailedProjectAfterAssign(s: Projection, buffer: Pointer, size: nat, plainData: bool, os: OsOutcomes)
    requires os.file == Invalid || (!os.imageMapping.Valid? && !os.dataMapping.Valid?)
    ensures Project(Assign(s, buffer, size, plainData).state, os).base == buffer
  {
  }

  /** An image mapping whose view failed leaves a null base with a non-zero
      size. */
  lemma NullViewWithSize()
    ensures var r := Project(Empty, OsOutcomes(Invalid, Invalid, Valid(1), Valid(2), Null, Nil, 0x1_0000_1000, 0));
            r.base == Nil && r.state.size == 0x1000 && !r.state.plainData
  {
    assert LowPart(0x1_0000_1000) == 0x1000;
  }
}
