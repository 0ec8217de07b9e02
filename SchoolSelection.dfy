// The school-type hook of apps/web/src/hooks/useSchoolType.ts: which endpoint the
// school comes from, the type information derived from it, and the current-type
// selection kept in sync with browser storage. Storage is a map from keys to
// strings; the `schoolTypeChanged` broadcast is counted, not delivered. The hook
// is taken to run in a browser (the `typeof window` guards hold).

module SchoolSelection {
  import opened Wrappers
  import opened Text
  import opened SchoolKinds

  /** `SchoolType | 'MIXED'`. */
  datatype MainType = Single(level: SchoolType) | Mixed

  datatype TypeInfo = TypeInfo(
    hasPrimary: bool, hasSecondary: bool, hasTertiary: bool,
    isMixed: bool, availableTypes: seq<SchoolType>, primaryType: MainType)

  /** The school record, with the server's precomputed type information optional. */
  datatype School = School(hasPrimary: bool, hasSecondary: bool, hasTertiary: bool, schoolType: Option<TypeInfo>)

  datatype Endpoint = StudentSchool | TeacherSchool | AdminSchool

  /** Which of the three school queries runs: each is skipped unless the user has its
      role, so for any other role, or no user, none runs. */
  function SchoolSource(role: Option<string>): (e: Option<Endpoint>)
    ensures e == Some(StudentSchool) <==> role == Some("STUDENT")
    ensures e == Some(TeacherSchool) <==> role == Some("TEACHER")
    ensures e == Some(AdminSchool) <==> role == Some("SCHOOL_ADMIN")
  {
    if role == Some("STUDENT") then Some(StudentSchool)
    else if role == Some("TEACHER") then Some(TeacherSchool)
    else if role == Some("SCHOOL_ADMIN") then Some(AdminSchool)
    else None
  }

  /** The `school` memo: the student's or the teacher's school for those roles, and
      otherwise the admin query's data, which a skipped query does not have. The
      arguments are the data each query would answer if it ran. */
  function SchoolOf(role: Option<string>, adminSchool: Option<School>, studentSchool: Option<School>,
                    teacherSchool: Option<School>): (school: Option<School>)
    ensures SchoolSource(role) == Some(StudentSchool) ==> school == studentSchool
    ensures SchoolSource(role) == Some(TeacherSchool) ==> school == teacherSchool
    ensures SchoolSource(role) == Some(AdminSchool) ==> school == adminSchool
    ensures SchoolSource(role).None? ==> school.None?
  {
    if role == Some("STUDENT") then studentSchool
    else if role == Some("TEACHER") then teacherSchool
    else if SchoolSource(role) == Some(AdminSchool) then adminSchool
    else None
  }

  const NoSchool := TypeInfo(false, false, false, false, [], Single(Primary))

  function Rank(t: SchoolType): nat {
    match t
    case Primary => 0
    case Secondary => 1
    case Tertiary => 2
  }

  /** The flags' types, pushed in the order PRIMARY, SECONDARY, TERTIARY. */
  function AvailableTypes(p: bool, s: bool, t: bool): (ts: seq<SchoolType>)
    ensures Primary in ts <==> p
    ensures Secondary in ts <==> s
    ensures Tertiary in ts <==> t
    ensures forall i, j :: 0 <= i < j < |ts| ==> Rank(ts[i]) < Rank(ts[j])
  {
    (if p then [Primary] else []) + (if s then [Secondary] else []) + (if t then [Tertiary] else [])
  }

  /** The fallback computation from the flags. */
  function FromFlags(school: School): (i: TypeInfo)
    ensures i.hasPrimary == school.hasPrimary && i.hasSecondary == school.hasSecondary
    ensures i.hasTertiary == school.hasTertiary
    ensures i.availableTypes == AvailableTypes(school.hasPrimary, school.hasSecondary, school.hasTertiary)
    ensures i.isMixed <==> |i.availableTypes| > 1
    ensures i.primaryType == Mixed <==> i.isMixed
    ensures |i.availableTypes| == 1 ==> i.primaryType == Single(i.availableTypes[0])
    ensures i.availableTypes == [] ==> i.primaryType == Single(Primary)
  {
    var ts := AvailableTypes(school.hasPrimary, school.hasSecondary, school.hasTertiary);
    var isMixed := |ts| > 1;
    TypeInfo(school.hasPrimary, school.hasSecondary, school.hasTertiary, isMixed, ts,
             if isMixed then Mixed else if ts != [] then Single(ts[0]) else Single(Primary))
  }

  /** The `schoolType` memo. */
  function Info(school: Option<School>): (i: TypeInfo)
    ensures school.None? ==> i == NoSchool
    ensures school.Some? && school.value.schoolType.Some? ==> i == school.value.schoolType.value
    ensures school.Some? && school.value.schoolType.None? ==> i == FromFlags(school.value)
  {
    if school.None? then NoSchool
    else if school.value.schoolType.Some? then school.value.schoolType.value
    else FromFlags(school.value)
  }

  /** A user without one of the three roles (a super admin, say) gets no school and so
      no school types, whatever the queries would answer. */
  lemma {:induction false} OtherRoleHasNoTypes(role: Option<string>, adminSchool: Option<School>,
                                               studentSchool: Option<School>, teacherSchool: Option<School>)
    requires SchoolSource(role).None?
    ensures Info(SchoolOf(role, adminSchool, studentSchool, teacherSchool)) == NoSchool
    ensures Info(SchoolOf(role, adminSchool, studentSchool, teacherSchool)).availableTypes == []
  {
  }

  /** Computed from the flags, a school is mixed exactly when it has two or more
      levels, and a single-level school reports that level. */
  lemma {:induction false} MixedIffSeveralFlags(school: School)
    requires school.schoolType.None?
    ensures Info(Some(school)).isMixed <==>
      (school.hasPrimary && school.hasSecondary) || (school.hasPrimary && school.hasTertiary) ||
      (school.hasSecondary && school.hasTertiary)
    ensures (school.hasSecondary && !school.hasPrimary && !school.hasTertiary) ==>
      Info(Some(school)).primaryType == Single(Secondary)
  {
    var ts := AvailableTypes(school.hasPrimary, school.hasSecondary, school.hasTertiary);
    assert |ts| == (if school.hasPrimary then 1 else 0) + (if school.hasSecondary then 1 else 0) +
      (if school.hasTertiary then 1 else 0);
  }

  const StorageKey := "selectedSchoolType"

  /** `availableTypes.includes(stored)`: the stored string names an available type. */
  function StoredChoice(info: TypeInfo, stored: Option<string>): (t: Option<SchoolType>)
    ensures t.Some? ==> t.value in info.availableTypes && Some(t.value.Name()) == stored
    ensures t.None? ==> forall u :: u in info.availableTypes ==> Some(u.Name()) != stored
  {
    if stored.Some? && stored.value != "" && ParseSchoolType(stored.value).Some?
       && ParseSchoolType(stored.value).value in info.availableTypes
    then ParseSchoolType(stored.value)
    else
      assert forall u :: u in info.availableTypes ==> Some(u.Name()) != stored by {
        forall u | u in info.availableTypes ensures Some(u.Name()) != stored {
          ParseName(u);
        }
      }
      None
  }

  class TypeSelection {
    var currentType: Option<SchoolType>
    var storage: map<string, string>
    /** How many `schoolTypeChanged` events were dispatched. */
    var broadcasts: nat

    /** The selection names an available type, and storage says the same. */
    predicate Synced(info: TypeInfo)
      reads this
    {
      currentType.Some? && currentType.value in info.availableTypes
      && StorageKey in storage && storage[StorageKey] == currentType.value.Name()
    }

    constructor (stored: map<string, string>)
      ensures currentType.None? && storage == stored && broadcasts == 0
    {
      currentType := None;
      storage := stored;
      broadcasts := 0;
    }

    function Stored(): Option<string>
      reads this
    {
      if StorageKey in storage then Some(storage[StorageKey]) else None
    }

    /** The initialising effect: nothing when no type is available; the stored type
        when it is available; otherwise the first available type, written back. */
    method Initialise(info: TypeInfo)
      modifies this
      ensures info.availableTypes == [] ==> currentType == old(currentType) && storage == old(storage)
      ensures info.availableTypes != [] && StoredChoice(info, old(Stored())).Some? ==>
        currentType == StoredChoice(info, old(Stored())) && storage == old(storage)
      ensures info.availableTypes != [] && StoredChoice(info, old(Stored())).None? ==>
        currentType == Some(info.availableTypes[0]) && storage == old(storage)[StorageKey := info.availableTypes[0].Name()]
      ensures info.availableTypes != [] ==> Synced(info)
      ensures broadcasts == old(broadcasts)
    {
      if info.availableTypes == [] {
        return;
      }
      var choice := StoredChoice(info, Stored());
      if choice.Some? {
        currentType := choice;
      } else {
        var first := info.availableTypes[0];
        currentType := Some(first);
        storage := storage[StorageKey := first.Name()];
      }
    }

    /** The `schoolTypeChanged` listener: adopt the stored type when it is available. */
    method OnTypeChanged(info: TypeInfo)
      modifies this`currentType
      ensures StoredChoice(info, Stored()).Some? ==> currentType == StoredChoice(info, Stored())
      ensures StoredChoice(info, Stored()).None? ==> currentType == old(currentType)
    {
      var choice := StoredChoice(info, Stored());
      if choice.Some? {
        currentType := choice;
      }
    }

    /** `setCurrentType`: an available type becomes current and stored and is
        broadcast; any other leaves everything as it was. */
    method SetCurrentType(info: TypeInfo, t: SchoolType)
      modifies this
      ensures t in info.availableTypes ==>
        currentType == Some(t) && storage == old(storage)[StorageKey := t.Name()] && broadcasts == old(broadcasts) + 1
      ensures t !in info.availableTypes ==>
        currentType == old(currentType) && storage == old(storage) && broadcasts == old(broadcasts)
      ensures t in info.availableTypes ==> Synced(info)
      ensures old(Synced(info)) ==> Synced(info)
    {
      if t in info.availableTypes {
        storage := storage[StorageKey := t.Name()];
        currentType := Some(t);
        broadcasts := broadcasts + 1;
      }
    }
  }
}
