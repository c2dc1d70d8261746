/**
 The operating-system vocabulary a file projection works with: handles,
 mapped addresses, the calls the projection makes, and the resources those
 calls acquire and release.

 No call is given meaning here. A call is recorded together with the outcome
 the operating system reported, and the outcome is what the projection's logic
 branches on.
 */
module OsCalls {

  /** A HANDLE value as the projection inspects it: the INVALID_HANDLE_VALUE
      sentinel, NULL, or any other value. */
  datatype Handle = Invalid | Null | Valid(id: nat)

  /** A `void*`: nullptr or some address. */
  datatype Pointer = Nil | Addr(address: nat)

  /** A 32-bit unsigned value, as GetFileSize returns it. */
  type Dword = n: int | 0 <= n < 0x1_0000_0000

  /** A signed 64-bit value, as a LARGE_INTEGER holds it. */
  type Int64 = n: int | -0x8000_0000_0000_0000 <= n < 0x8000_0000_0000_0000

  /** The two manifest resource identifiers an activation context is created from. */
  datatype ManifestId = IsolationAware | CreateProcess

  /** The two kinds of file mapping: a loader-laid-out image section, or raw bytes. */
  datatype MapMode = Image | Data

  /** One operating-system call, with the outcome it reported. */
  datatype Call =
    | CreateActCtx(resource: ManifestId, ctx: Handle)
    | CreateFile(file: Handle)
    | CreateMapping(mode: MapMode, file: Handle, mapping: Handle)
    | MapView(mapping: Handle, view: Pointer)
    | QuerySection(mapping: Handle, sectionSize: Int64)
    | GetFileSize(file: Handle, fileSize: Dword)
    | ReleaseActCtx(ctx: Handle)
    | UnmapView(view: Pointer)
    | CloseMapping(mapping: Handle)
    | CloseFile(file: Handle)
  {
    /** True of the four calls that give a resource back. */
    predicate IsRelease() {
      ReleaseActCtx? || UnmapView? || CloseMapping? || CloseFile?
    }
  }

  /** Something the operating system hands out and expects back. */
  datatype Resource =
    | ActivationContext(handle: Handle)
    | View(base: Pointer)
    | Section(handle: Handle)
    | OpenFile(handle: Handle)

  /** `m` when `present`, nothing otherwise. */
  function Optional(present: bool, m: multiset<Resource>): multiset<Resource> {
    if present then m else multiset{}
  }

  /** The call `c` when it is made, no call otherwise. */
  function OptionalCall(made: bool, c: Call): seq<Call> {
    if made then [c] else []
  }

  /** The resource a call acquires, as the projection itself judges success:
      an activation context or a file handle is owned unless it is
      INVALID_HANDLE_VALUE, a mapping object only when it is neither NULL nor
      INVALID_HANDLE_VALUE, and a view when the address is not null. */
  function Acquires(c: Call): multiset<Resource> {
    match c
    case CreateActCtx(_, h) => Optional(h != Invalid, multiset{ActivationContext(h)})
    case CreateFile(h) => Optional(h != Invalid, multiset{OpenFile(h)})
    case CreateMapping(_, _, h) => Optional(h.Valid?, multiset{Section(h)})
    case MapView(_, p) => Optional(p != Nil, multiset{View(p)})
    case _ => multiset{}
  }

  /** The resource a call gives back. */
  function Releases(c: Call): multiset<Resource> {
    match c
    case ReleaseActCtx(h) => multiset{ActivationContext(h)}
    case UnmapView(p) => multiset{View(p)}
    case CloseMapping(h) => multiset{Section(h)}
    case CloseFile(h) => multiset{OpenFile(h)}
    case _ => multiset{}
  }

  /** Everything a trace of calls acquired, counted with multiplicity. */
  function Acquired(t: seq<Call>): multiset<Resource> {
    if t == [] then multiset{} else Acquires(t[0]) + Acquired(t[1..])
  }

  /** Everything a trace of calls released, counted with multiplicity. */
  function Released(t: seq<Call>): multiset<Resource> {
    if t == [] then multiset{} else Releases(t[0]) + Released(t[1..])
  }

  /** The manifest identifier one call tried, if it is an activation-context creation. */
  function ActCtxAttempt(c: Call): seq<ManifestId> {
    if c.CreateActCtx? then [c.resource] else []
  }

  /** The mapping mode one call tried, if it is a mapping creation. */
  function MappingAttempt(c: Call): seq<MapMode> {
    if c.CreateMapping? then [c.mode] else []
  }

  /** The manifest identifiers a trace tried, in the order it tried them. */
  function ActCtxAttempts(t: seq<Call>): seq<ManifestId> {
    if t == [] then [] else ActCtxAttempt(t[0]) + ActCtxAttempts(t[1..])
  }

  /** The mapping modes a trace tried, in the order it tried them. */
  function MappingAttempts(t: seq<Call>): seq<MapMode> {
    if t == [] then [] else MappingAttempt(t[0]) + MappingAttempts(t[1..])
  }

  /** The position of a release call in the teardown order: activation
      context, then view, then mapping object, then file. */
  function ReleaseRank(c: Call): nat
    requires c.IsRelease()
  {
    match c
    case ReleaseActCtx(_) => 0
    case UnmapView(_) => 1
    case CloseMapping(_) => 2
    case CloseFile(_) => 3
  }

  /** A trace of release calls whose ranks strictly increase: each kind of
      resource is given back at most once, and in teardown order. */
  predicate InTeardownOrder(t: seq<Call>) {
    && (forall i :: 0 <= i < |t| ==> t[i].IsRelease())
    && (forall i, j :: 0 <= i < j < |t| ==> ReleaseRank(t[i]) < ReleaseRank(t[j]))
  }

  /** Every call of a trace is a release call ranked below `k`. */
  predicate RanksBelow(t: seq<Call>, k: nat) {
    forall i :: 0 <= i < |t| ==> t[i].IsRelease() && ReleaseRank(t[i]) < k
  }

  /** No call of a trace gives anything back. */
  predicate ReleasesNothing(t: seq<Call>) {
    forall i :: 0 <= i < |t| ==> !t[i].IsRelease()
  }

  /** Appending, when it is made, a release call ranked above everything
      before it keeps a trace in teardown order. */
  lemma OrderedAppend(t: seq<Call>, made: bool, c: Call)
    requires c.IsRelease()
    requires InTeardownOrder(t) && RanksBelow(t, ReleaseRank(c))
    ensures InTeardownOrder(t + OptionalCall(made, c))
    ensures RanksBelow(t + OptionalCall(made, c), ReleaseRank(c) + 1)
  {
  }

  lemma {:induction false} AcquiredAppend(a: seq<Call>, b: seq<Call>)
    ensures Acquired(a + b) == Acquired(a) + Acquired(b)
  {
    if a == [] {
      assert a + b == b;
    } else {
      assert (a + b)[0] == a[0];
      assert (a + b)[1..] == a[1..] + b;
      AcquiredAppend(a[1..], b);
      calc {
        Acquired(a + b);
        == Acquires(a[0]) + Acquired(a[1..] + b);
        == Acquires(a[0]) + (Acquired(a[1..]) + Acquired(b));
        == (Acquires(a[0]) + Acquired(a[1..])) + Acquired(b);
      }
    }
  }

  lemma {:induction false} ReleasedAppend(a: seq<Call>, b: seq<Call>)
    ensures Released(a + b) == Released(a) + Released(b)
  {
    if a == [] {
      assert a + b == b;
    } else {
      assert (a + b)[0] == a[0];
      assert (a + b)[1..] == a[1..] + b;
      ReleasedAppend(a[1..], b);
      calc {
        Released(a + b);
        == Releases(a[0]) + Released(a[1..] + b);
        == Releases(a[0]) + (Released(a[1..]) + Released(b));
        == (Releases(a[0]) + Released(a[1..])) + Released(b);
      }
    }
  }

  lemma {:induction false} ActCtxAttemptsAppend(a: seq<Call>, b: seq<Call>)
    ensures ActCtxAttempts(a + b) == ActCtxAttempts(a) + ActCtxAttempts(b)
  {
    if a == [] {
      assert a + b == b;
    } else {
      assert (a + b)[0] == a[0];
      assert (a + b)[1..] == a[1..] + b;
      ActCtxAttemptsAppend(a[1..], b);
      calc {
        ActCtxAttempts(a + b);
        == ActCtxAttempt(a[0]) + ActCtxAttempts(a[1..] + b);
        == ActCtxAttempt(a[0]) + (ActCtxAttempts(a[1..]) + ActCtxAttempts(b));
        == (ActCtxAttempt(a[0]) + ActCtxAttempts(a[1..])) + ActCtxAttempts(b);
      }
    }
  }

  lemma {:induction false} MappingAttemptsAppend(a: seq<Call>, b: seq<Call>)
    ensures MappingAttempts(a + b) == MappingAttempts(a) + MappingAttempts(b)
  {
    if a == [] {
      assert a + b == b;
    } else {
      assert (a + b)[0] == a[0];
      assert (a + b)[1..] == a[1..] + b;
      MappingAttemptsAppend(a[1..], b);
      calc {
        MappingAttempts(a + b);
        == MappingAttempt(a[0]) + MappingAttempts(a[1..] + b);
        == MappingAttempt(a[0]) + (MappingAttempts(a[1..]) + MappingAttempts(b));
        == (MappingAttempt(a[0]) + MappingAttempts(a[1..])) + MappingAttempts(b);
      }
    }
  }

  /** What a one-call trace acquires, releases and tries is what its call does. */
  lemma Single(c: Call)
    ensures Acquired([c]) == Acquires(c)
    ensures Released([c]) == Releases(c)
    ensures ActCtxAttempts([c]) == ActCtxAttempt(c)
    ensures MappingAttempts([c]) == MappingAttempt(c)
  {
    assert [c][1..] == [];
  }

  /** What a trace acquires, releases and tries is what its first call does
      followed by what the rest does. */
  lemma Cons(c: Call, t: seq<Call>)
    ensures Acquired([c] + t) == Acquires(c) + Acquired(t)
    ensures Released([c] + t) == Releases(c) + Released(t)
    ensures ActCtxAttempts([c] + t) == ActCtxAttempt(c) + ActCtxAttempts(t)
    ensures MappingAttempts([c] + t) == MappingAttempt(c) + MappingAttempts(t)
  {
    assert ([c] + t)[0] == c;
    assert ([c] + t)[1..] == t;
  }

  /** Joining three traces joins what they acquire. */
  lemma ConcatAcquired(a: seq<Call>, b: seq<Call>, c: seq<Call>)
    ensures Acquired(a + b + c) == Acquired(a) + Acquired(b) + Acquired(c)
  {
    AcquiredAppend(a, b);
    AcquiredAppend(a + b, c);
  }

  /** Joining three traces that release nothing releases nothing. */
  lemma ConcatReleasesNothing(a: seq<Call>, b: seq<Call>, c: seq<Call>)
    requires ReleasesNothing(a) && ReleasesNothing(b) && ReleasesNothing(c)
    ensures ReleasesNothing(a + b + c)
  {
  }

  /** Joining three traces joins what they try. */
  lemma ConcatAttempts(a: seq<Call>, b: seq<Call>, c: seq<Call>)
    ensures ActCtxAttempts(a + b + c) == ActCtxAttempts(a) + ActCtxAttempts(b) + ActCtxAttempts(c)
    ensures MappingAttempts(a + b + c) == MappingAttempts(a) + MappingAttempts(b) + MappingAttempts(c)
  {
    ActCtxAttemptsAppend(a, b);
    ActCtxAttemptsAppend(a + b, c);
    MappingAttemptsAppend(a, b);
    MappingAttemptsAppend(a + b, c);
  }

  /** A release call made only sometimes gives back its one resource only when it is made. */
  lemma ReleasedOptional(made: bool, c: Call, r: Resource)
    requires Releases(c) == multiset{r}
    ensures Released(OptionalCall(made, c)) == Optional(made, multiset{r})
  {
    Single(c);
  }

  /** Four release calls, each made only sometimes, give back the resources of
      exactly those that are made. */
  lemma ReleasedOptionalFour(p1: bool, c1: Call, r1: Resource, p2: bool, c2: Call, r2: Resource,
                             p3: bool, c3: Call, r3: Resource, p4: bool, c4: Call, r4: Resource)
    requires Releases(c1) == multiset{r1} && Releases(c2) == multiset{r2}
    requires Releases(c3) == multiset{r3} && Releases(c4) == multiset{r4}
    ensures Released(OptionalCall(p1, c1) + OptionalCall(p2, c2) + OptionalCall(p3, c3) + OptionalCall(p4, c4))
         == Optional(p1, multiset{r1}) + Optional(p2, multiset{r2})
          + Optional(p3, multiset{r3}) + Optional(p4, multiset{r4})
  {
    ReleasedFour(OptionalCall(p1, c1), OptionalCall(p2, c2), OptionalCall(p3, c3), OptionalCall(p4, c4));
    ReleasedOptional(p1, c1, r1);
    ReleasedOptional(p2, c2, r2);
    ReleasedOptional(p3, c3, r3);
    ReleasedOptional(p4, c4, r4);
  }

  lemma ReleasedFour(a: seq<Call>, b: seq<Call>, c: seq<Call>, d: seq<Call>)
    ensures Released(a + b + c + d) == Released(a) + Released(b) + Released(c) + Released(d)
  {
    ReleasedAppend(a, b);
    ReleasedAppend(a + b, c);
    ReleasedAppend(a + b + c, d);
  }

  lemma {:induction false} NoActCtxAttempts(t: seq<Call>)
    requires forall i :: 0 <= i < |t| ==> !t[i].CreateActCtx?
    ensures ActCtxAttempts(t) == []
  {
    if t != [] {
      NoActCtxAttempts(t[1..]);
    }
  }

  lemma {:induction false} NoMappingAttempts(t: seq<Call>)
    requires forall i :: 0 <= i < |t| ==> !t[i].CreateMapping?
    ensures MappingAttempts(t) == []
  {
    if t != [] {
      NoMappingAttempts(t[1..]);
    }
  }

  /** A trace made only of release calls acquires nothing and tries nothing. */
  lemma {:induction false} ReleaseOnlyTrace(t: seq<Call>)
    requires forall i :: 0 <= i < |t| ==> t[i].IsRelease()
    ensures Acquired(t) == multiset{}
    ensures ActCtxAttempts(t) == []
    ensures MappingAttempts(t) == []
  {
    NoActCtxAttempts(t);
    NoMappingAttempts(t);
    if t != [] {
      ReleaseOnlyTrace(t[1..]);
    }
  }

  /** A trace with no release call releases nothing. */
  lemma {:induction false} NothingReleased(t: seq<Call>)
    requires ReleasesNothing(t)
    ensures Released(t) == multiset{}
  {
    if t != [] {
      NothingReleased(t[1..]);
    }
  }
}
