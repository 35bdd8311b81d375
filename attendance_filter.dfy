/** The attendance search specification: a predicate over attendance rows made of one
    mandatory working-hours equality and five optional filters, plus the list of related
    entities the query loads with each row. */
module AttendanceFilter {
  import opened Common

  /** A `DateTime`, represented by its tick count (the order of ticks is the order of dates). */
  type DateTime = int

  /** The `WorkingHours` enum, represented by its underlying integer: the filter casts an `int`
      to it, and enum equality compares the underlying values. */
  type WorkingHours = int

  /** The columns of an attendance row that the filter reads. */
  datatype Attendance = Attendance(
    workingHours: WorkingHours,
    date: DateTime,
    officeId: int,
    governorateId: int,
    profileId: int)

  /** The constructor's arguments; each is nullable and null by default. */
  datatype Filter = Filter(
    workingHours: Option<int> := None,
    startDate: Option<DateTime> := None,
    endDate: Option<DateTime> := None,
    officeId: Option<int> := None,
    governorateId: Option<int> := None,
    profileId: Option<int> := None)

  /** The exception `Nullable<T>.Value` raises when the nullable holds no value. */
  datatype FilterError = NullableHasNoValue

  /** The filter built with no arguments at all. */
  const NoArguments := Filter()

  /** A filter that fixes the working hours and nothing else. */
  function WorkingHoursOnly(w: int): Filter
  {
    Filter(workingHours := Some(w))
  }

  /** `!bound.HasValue || v >= bound.Value` */
  predicate NotBefore(bound: Option<DateTime>, v: DateTime)
  {
    bound.None? || v >= bound.value
  }

  /** `!bound.HasValue || v <= bound.Value` */
  predicate NotAfter(bound: Option<DateTime>, v: DateTime)
  {
    bound.None? || v <= bound.value
  }

  /** `!filter.HasValue || id == filter.Value` */
  predicate SameId(filter: Option<int>, id: int)
  {
    filter.None? || id == filter.value
  }

  /** The specification's criteria applied to one row. The working-hours conjunct comes first
      and reads `.Value` unconditionally, so without working hours every evaluation raises;
      otherwise a matching row has the requested working hours, lies in the inclusive date
      range and carries each requested id. */
  function Evaluate(f: Filter, x: Attendance): (r: Result<bool, FilterError>)
    ensures r.Failure? <==> f.workingHours.None?
    ensures r == Success(true) ==> x.workingHours == f.workingHours.value
    ensures r == Success(true) && f.startDate.Some? ==> f.startDate.value <= x.date
    ensures r == Success(true) && f.endDate.Some? ==> x.date <= f.endDate.value
    ensures r == Success(true) && f.officeId.Some? ==> x.officeId == f.officeId.value
    ensures r == Success(true) && f.governorateId.Some? ==> x.governorateId == f.governorateId.value
    ensures r == Success(true) && f.profileId.Some? ==> x.profileId == f.profileId.value
  {
    if f.workingHours.None? then Failure(NullableHasNoValue)
    else
      Success(
        x.workingHours == f.workingHours.value &&
        NotBefore(f.startDate, x.date) &&
        NotAfter(f.endDate, x.date) &&
        SameId(f.officeId, x.officeId) &&
        SameId(f.governorateId, x.governorateId) &&
        SameId(f.profileId, x.profileId))
  }

  /** The row is selected by the specification. */
  predicate Matches(f: Filter, x: Attendance)
  {
    Evaluate(f, x) == Success(true)
  }

  /** The rows of `rows` the specification selects. */
  ghost function Selected(f: Filter, rows: set<Attendance>): set<Attendance>
  {
    set x | x in rows && Matches(f, x)
  }

  /** With every optional filter absent, a row matches exactly when its working hours are the
      requested ones. */
  lemma AbsentFiltersLeaveWorkingHours(w: int, x: Attendance)
    ensures Matches(WorkingHoursOnly(w), x) <==> x.workingHours == w
  {
  }

  /** A row whose working hours and ids agree with the filter matches exactly when its date lies
      in the range, both ends included. */
  lemma DateRangeIsInclusive(f: Filter, x: Attendance)
    requires f.workingHours == Some(x.workingHours)
    requires SameId(f.officeId, x.officeId) && SameId(f.governorateId, x.governorateId)
    requires SameId(f.profileId, x.profileId)
    ensures Matches(f, x) <==> NotBefore(f.startDate, x.date) && NotAfter(f.endDate, x.date)
    ensures f.startDate == Some(x.date) ==> (Matches(f, x) <==> NotAfter(f.endDate, x.date))
    ensures f.endDate == Some(x.date) ==> (Matches(f, x) <==> NotBefore(f.startDate, x.date))
  {
  }

  /** A range whose start lies after its end selects nothing. */
  lemma EmptyRangeMatchesNothing(f: Filter, x: Attendance)
    requires f.startDate.Some? && f.endDate.Some? && f.startDate.value > f.endDate.value
    ensures !Matches(f, x)
  {
  }

  /** `g` keeps the working hours of `f` and every optional filter `f` sets, and may set more. */
  predicate Narrows(g: Filter, f: Filter)
  {
    g.workingHours == f.workingHours &&
    (f.startDate.Some? ==> g.startDate == f.startDate) &&
    (f.endDate.Some? ==> g.endDate == f.endDate) &&
    (f.officeId.Some? ==> g.officeId == f.officeId) &&
    (f.governorateId.Some? ==> g.governorateId == f.governorateId) &&
    (f.profileId.Some? ==> g.profileId == f.profileId)
  }

  /** Supplying extra optional filters never lets more rows through. */
  lemma NarrowingShrinksSelection(g: Filter, f: Filter, rows: set<Attendance>)
    requires Narrows(g, f)
    ensures Selected(g, rows) <= Selected(f, rows)
  {
  }

  /** The related entities the query loads with each attendance row. */
  datatype Navigation = Governorate | Office | Profile

  class FilterAttendanceSpecification {
    /** The criteria handed to the base specification. */
    const Criteria: Filter
    /** The include list of the base specification. */
    var Includes: seq<Navigation>

    /** Builds the criteria from the arguments (no argument is checked here; a missing working
        hours value only raises when the criteria are evaluated) and loads the governorate,
        the office and the profile, in that order. */
    constructor (workingHours: Option<int> := None, startDate: Option<DateTime> := None, endDate: Option<DateTime> := None,
                 officeId: Option<int> := None, governorateId: Option<int> := None, profileId: Option<int> := None)
      ensures Criteria == Filter(workingHours, startDate, endDate, officeId, governorateId, profileId)
      ensures Includes == [Governorate, Office, Profile]
    {
      Criteria := Filter(workingHours, startDate, endDate, officeId, governorateId, profileId);
      Includes := [];
      new;
      AddInclude(Governorate);
      AddInclude(Office);
      AddInclude(Profile);
    }

    /** The base specification's `AddInclude`: appends one navigation to the include list. */
    method AddInclude(n: Navigation)
      modifies this`Includes
      ensures Includes == old(Includes) + [n]
    {
      Includes := Includes + [n];
    }

    /** The specification's criteria applied to one row. */
    function IsSatisfiedBy(x: Attendance): (r: Result<bool, FilterError>)
      ensures r.Failure? <==> Criteria.workingHours.None?
      ensures r == Success(true) <==> Matches(Criteria, x)
    {
      Evaluate(Criteria, x)
    }
  }
}
