/**
 Exact resource limits: setup_one and setup_resource_limits against a kernel whose calls may fail and
 whose setrlimit may store something other than what it was asked to.
 */
module ResourceLimits {
  import opened Options

  /** rlim_t is 64 bits wide on the supported architecture. */
  type Rlim = n: int | 0 <= n <= 0xFFFF_FFFF_FFFF_FFFF

  const RLIM_INFINITY: Rlim := 0xFFFF_FFFF_FFFF_FFFF

  datatype Resource = AddressSpace | FileSize | OpenFiles

  datatype Limit = Limit(soft: Rlim, hard: Rlim)

  type Table = map<Resource, Limit>

  predicate Total(t: Table) {
    forall r: Resource :: r in t
  }

  const EPERM := 1
  const EIO := 5
  const EOVERFLOW := 75

  datatype SetOutcome = SetFails(errno: int) | Stores(limit: Limit)

  /** What the three system calls of one setup do: an errno, or success. */
  datatype Calls = Calls(firstGet: Option<int>, change: SetOutcome, secondGet: Option<int>)

  /** The stage that failed, named by its resource, and the errno. */
  datatype Failure = Failure(stage: Resource, errno: int)

  /** Whether a hard ceiling admits a value. */
  predicate Below(value: Rlim, hard: Rlim) {
    hard == RLIM_INFINITY || value <= hard
  }

  /** exact_value, for a 64-bit rlim_t. */
  function ExactValue(value: Rlim): Option<Rlim> {
    if value == RLIM_INFINITY then None else Some(value)
  }

  /** The verdict of one setup on the limits it finds. */
  function Verdict(t: Table, r: Resource, value: Rlim, c: Calls): (errno: Option<int>)
    requires Total(t)
  {
    if value == RLIM_INFINITY then Some(EOVERFLOW)
    else if c.firstGet.Some? then c.firstGet
    else if !Below(value, t[r].hard) then Some(EPERM)
    else if c.change.SetFails? then Some(c.change.errno)
    else if c.secondGet.Some? then c.secondGet
    else if c.change.limit != Limit(value, value) then Some(EIO)
    else None
  }

  /** When one setup succeeds, and which errno it fails with otherwise: EOVERFLOW for an infinite value, EPERM for one
      above a finite ceiling -- one equal to it is fine -- EIO when something else was stored, and else the errno of
      the call that failed first. */
  lemma VerdictMeans(t: Table, r: Resource, value: Rlim, c: Calls)
    requires Total(t)
    ensures Verdict(t, r, value, c).None? <==>
            && value < 0xFFFF_FFFF_FFFF_FFFF && c.firstGet.None? && c.secondGet.None?
            && (t[r].hard == 0xFFFF_FFFF_FFFF_FFFF || value <= t[r].hard)
            && c.change == Stores(Limit(value, value))
    ensures value == 0xFFFF_FFFF_FFFF_FFFF ==> Verdict(t, r, value, c) == Some(75)
    ensures value < 0xFFFF_FFFF_FFFF_FFFF && c.firstGet.Some? ==> Verdict(t, r, value, c) == c.firstGet
    ensures value < 0xFFFF_FFFF_FFFF_FFFF && c.firstGet.None?
            && t[r].hard < value && t[r].hard < 0xFFFF_FFFF_FFFF_FFFF ==>
              Verdict(t, r, value, c) == Some(1)
    ensures value < 0xFFFF_FFFF_FFFF_FFFF && c.firstGet.None? && value <= t[r].hard ==>
              Verdict(t, r, value, c) ==
              if c.change.SetFails? then Some(c.change.errno)
              else if c.secondGet.Some? then c.secondGet
              else if c.change.limit == Limit(value, value) then None
              else Some(5)
  {}

  datatype Request = Request(addressSpace: Option<Rlim>, fileSize: Option<Rlim>, openFiles: Option<Rlim>)

  function Requested(q: Request, r: Resource): Option<Rlim> {
    match r
    case AddressSpace => q.addressSpace
    case FileSize => q.fileSize
    case OpenFiles => q.openFiles
  }

  predicate Asks(q: Request) {
    q.addressSpace.Some? || q.fileSize.Some? || q.openFiles.Some?
  }

  /** `t` holds every requested limit exactly, and leaves the rest as in `before`, whose hard ceilings
      are never raised. */
  ghost predicate Realized(q: Request, before: Table, t: Table) {
    && Total(before) && Total(t)
    && forall r :: match Requested(q, r)
         case None => t[r] == before[r]
         case Some(value) =>
           t[r] == Limit(value, value) && value != RLIM_INFINITY && Below(value, before[r].hard)
  }

  /** What the three calls for a resource do. */
  function CallsFor(r: Resource, c0: Calls, c1: Calls, c2: Calls): Calls {
    match r
    case AddressSpace => c0
    case FileSize => c1
    case OpenFiles => c2
  }

  /** The order in which limits are applied. */
  predicate Before(a: Resource, b: Resource) {
    (a.AddressSpace? && !b.AddressSpace?) || (a.FileSize? && b.OpenFiles?)
  }

  /** A requested limit and the verdict of its setup on the limits found at the start. */
  predicate FailsWith(t: Table, q: Request, r: Resource, c: Calls, errno: int)
    requires Total(t)
  {
    Requested(q, r).Some? && Verdict(t, r, Requested(q, r).value, c) == Some(errno)
  }

  /** The failure is that of the first requested limit that cannot be set, with the errno of its own setup. */
  ghost predicate IsFirstFailure(t: Table, q: Request, c0: Calls, c1: Calls, c2: Calls, f: Failure)
    requires Total(t)
  {
    && FailsWith(t, q, f.stage, CallsFor(f.stage, c0, c1, c2), f.errno)
    && forall r, errno :: Before(r, f.stage) ==> !FailsWith(t, q, r, CallsFor(r, c0, c1, c2), errno)
  }

  /** The limits of the child process. */
  class Limits {
    var table: Table

    ghost predicate Valid()
      reads this
    {
      Total(table)
    }

    constructor (inherited: Table)
      requires Total(inherited)
      ensures Valid() && table == inherited
    {
      table := inherited;
    }

    method SetupOne(r: Resource, value: Rlim, c: Calls) returns (failure: Option<Failure>)
      requires Valid()
      modifies this
      ensures Valid()
      ensures failure == match Verdict(old(table), r, value, c)
                         case None => None
                         case Some(errno) => Some(Failure(r, errno))
      ensures failure.None? ==> table == old(table)[r := Limit(value, value)]
      ensures failure.None? ==> value != RLIM_INFINITY && Below(value, old(table)[r].hard)
      ensures forall other :: other != r ==> table[other] == old(table)[other]
      ensures value == RLIM_INFINITY || !Below(value, old(table)[r].hard) ==> table == old(table)
    {
      var exact := ExactValue(value);
      if exact.None? {
        return Some(Failure(r, EOVERFLOW));
      }
      if c.firstGet.Some? {
        return Some(Failure(r, c.firstGet.value));
      }
      var inherited := table[r];
      if inherited.hard != RLIM_INFINITY && exact.value > inherited.hard {
        return Some(Failure(r, EPERM));
      }
      if c.change.SetFails? {
        return Some(Failure(r, c.change.errno));
      }
      table := table[r := c.change.limit];
      if c.secondGet.Some? {
        return Some(Failure(r, c.secondGet.value));
      }
      var observed := table[r];
      if observed.soft != exact.value || observed.hard != exact.value {
        return Some(Failure(r, EIO));
      }
      return None;
    }

    /** Applies the requested limits in order; success means every one is realized exactly, and a
        failure names the first stage that could not be. */
    method SetupResourceLimits(q: Request, c0: Calls, c1: Calls, c2: Calls) returns (failure: Option<Failure>)
      requires Valid()
      modifies this
      ensures Valid()
      ensures failure.None? ==> Realized(q, old(table), table)
      ensures failure.None? <==>
              && (q.addressSpace.Some? ==> Verdict(old(table), AddressSpace, q.addressSpace.value, c0).None?)
              && (q.fileSize.Some? ==> Verdict(old(table), FileSize, q.fileSize.value, c1).None?)
              && (q.openFiles.Some? ==> Verdict(old(table), OpenFiles, q.openFiles.value, c2).None?)
      ensures failure.Some? ==> IsFirstFailure(old(table), q, c0, c1, c2, failure.value)
      ensures forall r :: Requested(q, r).None? ==> table[r] == old(table)[r]
    {
      if q.addressSpace.Some? {
        failure := SetupOne(AddressSpace, q.addressSpace.value, c0);
        if failure.Some? { return; }
      }
      if q.fileSize.Some? {
        failure := SetupOne(FileSize, q.fileSize.value, c1);
        if failure.Some? { return; }
      }
      if q.openFiles.Some? {
        failure := SetupOne(OpenFiles, q.openFiles.value, c2);
        if failure.Some? { return; }
      }
      return None;
    }
  }

  // ----- probing -------------------------------------------------------------------------------

  /** probe_value: a value strictly below a finite ceiling, so that raising it by one can be tried. */
  function ProbeValue(inherited: Limit, preferred: Rlim): (r: Option<Rlim>)
    ensures r.Some? ==> 0 < r.value <= preferred && r.value < RLIM_INFINITY
    ensures r.Some? ==> inherited.hard == RLIM_INFINITY || r.value < inherited.hard
    ensures r.None? <==> preferred == RLIM_INFINITY || preferred == 0
                         || (inherited.hard != RLIM_INFINITY && preferred >= inherited.hard && inherited.hard <= 2)
  {
    if preferred == RLIM_INFINITY then None
    else if inherited.hard != RLIM_INFINITY && preferred >= inherited.hard then
      if inherited.hard <= 2 then None else Some(inherited.hard - 1)
    else if preferred == 0 then None
    else Some(preferred)
  }
}
