/**
 * The admin screen's teacher directory: the list of teachers held in the
 * page's state, the handlers that add and delete teachers, the search
 * filter, the status badge and the statistics cards.
 */
module TeacherList {
  import opened Wrappers
  import opened Seqs
  import opened Text

  /** A teacher as the directory holds it; `studentsCount` may be missing. */
  datatype TeacherRow = TeacherRow(id: string, name: string, email: string, createdAt: int,
                                   status: string, studentsCount: Option<int>)

  /** The add-teacher form. The password is collected but never stored. */
  datatype TeacherForm = TeacherForm(name: string, email: string, password: string)

  predicate IsActive(t: TeacherRow) { t.status == "active" }

  /** The number of students shown for a teacher, 0 when missing. */
  function StudentsShown(t: TeacherRow): int { t.studentsCount.GetOr(0) }

  /** The teacher `handleAddTeacher` appends: active, with no students yet. */
  function NewTeacher(form: TeacherForm, id: string, now: int): (t: TeacherRow)
    ensures t.name == form.name && t.email == form.email && t.id == id && t.createdAt == now
    ensures IsActive(t) && StudentsShown(t) == 0
  {
    TeacherRow(id, form.name, form.email, now, "active", Some(0))
  }

  /** The list without every teacher whose id is `id`. */
  function WithoutTeacher(teachers: seq<TeacherRow>, id: string): (r: seq<TeacherRow>)
    ensures forall t :: t in r <==> t in teachers && t.id != id
    ensures forall t :: multiset(r)[t] == if t.id != id then multiset(teachers)[t] else 0
  {
    Filter(teachers, (t: TeacherRow) => t.id != id)
  }

  /** Deleting drops exactly the teachers carrying that id. */
  lemma {:induction false} DeleteCount(teachers: seq<TeacherRow>, id: string)
    ensures |WithoutTeacher(teachers, id)| + |Filter(teachers, (t: TeacherRow) => t.id == id)| == |teachers|
  {
    if teachers != [] {
      DeleteCount(teachers[1..], id);
    }
  }

  /** The search: name or email contains the term, ignoring case. */
  predicate TeacherMatches(t: TeacherRow, term: string)
  {
    Matches(t.name, term) || Matches(t.email, term)
  }

  function FilteredTeachers(teachers: seq<TeacherRow>, term: string): (r: seq<TeacherRow>)
    ensures forall t :: t in r <==> t in teachers && TeacherMatches(t, term)
    ensures forall t :: multiset(r)[t] == if TeacherMatches(t, term) then multiset(teachers)[t] else 0
  {
    Filter(teachers, (t: TeacherRow) => TeacherMatches(t, term))
  }

  /** An empty search term lists every teacher, in order. */
  lemma EmptySearchKeepsAllTeachers(teachers: seq<TeacherRow>)
    ensures FilteredTeachers(teachers, "") == teachers
  {
    forall i | 0 <= i < |teachers| ensures TeacherMatches(teachers[i], "") {
      EmptyTermMatches(teachers[i].name);
    }
    FilterAll(teachers, (t: TeacherRow) => TeacherMatches(t, ""));
  }

  /** The status badge: "Active" exactly for the status "active", else "Inactive". */
  function StatusBadge(t: TeacherRow): (badge: string)
    ensures badge == "Active" <==> IsActive(t)
    ensures badge == "Inactive" <==> !IsActive(t)
  {
    if IsActive(t) then "Active" else "Inactive"
  }

  /** The "Active Teachers" card. */
  function ActiveCount(teachers: seq<TeacherRow>): (n: nat)
    ensures n <= |teachers|
    ensures (forall t :: t in teachers ==> IsActive(t)) ==> n == |teachers|
    ensures (exists t :: t in teachers && IsActive(t)) <==> n > 0
  {
    FilterCount(teachers, IsActive);
    |Filter(teachers, IsActive)|
  }

  /**
   * The students shown across all teachers, a missing count adding 0. With
   * no negative count it is non-negative and at least each teacher's count.
   */
  function TotalStudents(teachers: seq<TeacherRow>): (total: int)
    ensures |teachers| == 0 ==> total == 0
    ensures (forall i :: 0 <= i < |teachers| ==> StudentsShown(teachers[i]) >= 0) ==>
              total >= 0 && forall i :: 0 <= i < |teachers| ==> StudentsShown(teachers[i]) <= total
  {
    SumByNonNegative(teachers, StudentsShown);
    SumBy(teachers, StudentsShown)
  }

  /** The "Avg Students per Teacher" card: the rounded mean, 0 without teachers. */
  function AverageStudents(teachers: seq<TeacherRow>): (r: int)
    ensures |teachers| == 0 ==> r == 0
    ensures |teachers| > 0 ==> 2 * |teachers| * r - |teachers| <= 2 * TotalStudents(teachers) < 2 * |teachers| * r + |teachers|
  {
    if |teachers| > 0 then RoundedMean(TotalStudents(teachers), |teachers|) else 0
  }

  /** Adding a teacher raises the active count by one and leaves the student total alone. */
  lemma AddMovesCounts(teachers: seq<TeacherRow>, form: TeacherForm, id: string, now: int)
    ensures ActiveCount(teachers + [NewTeacher(form, id, now)]) == ActiveCount(teachers) + 1
    ensures TotalStudents(teachers + [NewTeacher(form, id, now)]) == TotalStudents(teachers)
  {
    FilterAppend(teachers, [NewTeacher(form, id, now)], IsActive);
    SumByAppend(teachers, [NewTeacher(form, id, now)], StudentsShown);
  }

  /** The teacher state of the admin screen (`teachers` / `setTeachers`). */
  class TeacherDirectory {
    var teachers: seq<TeacherRow>

    constructor (initial: seq<TeacherRow>)
      ensures teachers == initial
    {
      teachers := initial;
    }

    /** `handleAddTeacher`: appends one active teacher built from the form. */
    method AddTeacher(form: TeacherForm, id: string, now: int)
      modifies this
      ensures teachers == old(teachers) + [NewTeacher(form, id, now)]
    {
      teachers := teachers + [NewTeacher(form, id, now)];
    }

    /** `handleDeleteTeacher`: keeps every teacher whose id differs. */
    method DeleteTeacher(id: string)
      modifies this
      ensures teachers == WithoutTeacher(old(teachers), id)
    {
      teachers := WithoutTeacher(teachers, id);
    }
  }
}
