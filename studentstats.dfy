/**
 * The admin screen's student overview: the search filter, the statistics
 * cards (total, average and highest balance), the teacher-name lookup, the
 * balance colours and ranges, the status badge, and the "Top Students"
 * panel, which sorts the `students` array in place.
 */
module StudentStats {
  import opened Wrappers
  import opened Seqs
  import opened Text

  /** A student as the admin screen receives it; `email` and `teacherId` may be missing. */
  datatype StudentRow = StudentRow(id: string, name: string, studentId: string, email: Option<string>,
                                   coinBalance: int, teacherId: Option<string>)

  /** A teacher as the student overview looks it up. */
  datatype TeacherRef = TeacherRef(id: string, name: string)

  /** One card of the balance ranges. */
  datatype CoinRange = CoinRange(title: string, count: nat, color: string)

  function Balance(s: StudentRow): int { s.coinBalance }

  /** The search: name, student id or (when present) email contains the term, ignoring case. */
  predicate StudentMatches(s: StudentRow, term: string)
  {
    Matches(s.name, term) || Matches(s.studentId, term) || (s.email.Some? && Matches(s.email.value, term))
  }

  /** `filteredStudents`. */
  function FilteredStudents(students: seq<StudentRow>, term: string): (r: seq<StudentRow>)
    ensures forall s :: s in r <==> s in students && StudentMatches(s, term)
    ensures forall s :: multiset(r)[s] == if StudentMatches(s, term) then multiset(students)[s] else 0
  {
    Filter(students, (s: StudentRow) => StudentMatches(s, term))
  }

  /** An empty search term lists every student, in order. */
  lemma EmptySearchKeepsAllStudents(students: seq<StudentRow>)
    ensures FilteredStudents(students, "") == students
  {
    forall i | 0 <= i < |students| ensures StudentMatches(students[i], "") {
      EmptyTermMatches(students[i].name);
    }
    FilterAll(students, (s: StudentRow) => StudentMatches(s, ""));
  }

  /**
   * `totalCoins`: the sum of the balances. When no balance is negative it is
   * non-negative and at least each student's balance.
   */
  function TotalCoins(students: seq<StudentRow>): (total: int)
    ensures |students| == 0 ==> total == 0
    ensures (forall i :: 0 <= i < |students| ==> students[i].coinBalance >= 0) ==>
              total >= 0 && forall i :: 0 <= i < |students| ==> students[i].coinBalance <= total
  {
    SumByNonNegative(students, Balance);
    SumBy(students, Balance)
  }

  /** `averageCoins`: the rounded mean balance, 0 without students. */
  function AverageCoins(students: seq<StudentRow>): (r: int)
    ensures |students| == 0 ==> r == 0
    ensures |students| > 0 ==> 2 * |students| * r - |students| <= 2 * TotalCoins(students) < 2 * |students| * r + |students|
  {
    if |students| > 0 then RoundedMean(TotalCoins(students), |students|) else 0
  }

  /** The largest balance of a non-empty list. */
  function MaxBalance(students: seq<StudentRow>): (m: int)
    requires |students| > 0
    ensures forall i :: 0 <= i < |students| ==> students[i].coinBalance <= m
    ensures exists i :: 0 <= i < |students| && students[i].coinBalance == m
  {
    if |students| == 1 then students[0].coinBalance
    else
      var rest := MaxBalance(students[1..]);
      assert forall i :: 1 <= i < |students| ==> students[i] == students[1..][i - 1];
      if students[0].coinBalance >= rest then students[0].coinBalance else rest
  }

  /** `highestBalance`: the largest balance, 0 without students. */
  function HighestBalance(students: seq<StudentRow>): (m: int)
    ensures |students| == 0 ==> m == 0
    ensures forall s :: s in students ==> s.coinBalance <= m
    ensures |students| > 0 ==> exists s :: s in students && s.coinBalance == m
  {
    if |students| == 0 then 0 else MaxBalance(students)
  }

  /** A bound on every balance bounds the total by the number of students times that bound. */
  lemma {:induction false} TotalCoinsBound(students: seq<StudentRow>, bound: int)
    requires forall i :: 0 <= i < |students| ==> students[i].coinBalance <= bound
    ensures TotalCoins(students) <= |students| * bound
  {
    if students != [] {
      TotalCoinsBound(students[1..], bound);
      assert |students| * bound == bound + (|students| - 1) * bound;
    }
  }

  /** The average card never shows more than the highest-balance card. */
  lemma AverageAtMostHighest(students: seq<StudentRow>)
    ensures AverageCoins(students) <= HighestBalance(students)
  {
    if |students| > 0 {
      TotalCoinsBound(students, HighestBalance(students));
      RoundedMeanAtMost(TotalCoins(students), |students|, HighestBalance(students));
    }
  }

  /** `getTeacherName`: the name of the first teacher with that id, else "Unassigned". */
  function TeacherName(teachers: seq<TeacherRef>, teacherId: Option<string>): (name: string)
    ensures (forall t :: t in teachers ==> Some(t.id) != teacherId) ==> name == "Unassigned"
    ensures forall i :: 0 <= i < |teachers| && Some(teachers[i].id) == teacherId
              && (forall j :: 0 <= j < i ==> Some(teachers[j].id) != teacherId)
              ==> name == teachers[i].name
  {
    var i := IndexWhere(teachers, (t: TeacherRef) => Some(t.id) == teacherId);
    if i < |teachers| then teachers[i].name else "Unassigned"
  }

  const Green := "text-green-600"
  const Blue := "text-blue-600"
  const Yellow := "text-yellow-600"
  const Red := "text-red-600"

  /** `getCoinBalanceColor`: the text colour of a balance. */
  function BalanceColor(balance: int): (c: string)
    ensures c == Green <==> balance >= 100
    ensures c == Blue <==> 50 <= balance < 100
    ensures c == Yellow <==> 20 <= balance < 50
    ensures c == Red <==> balance < 20
  {
    if balance >= 100 then Green
    else if balance >= 50 then Blue
    else if balance >= 20 then Yellow
    else Red
  }

  predicate InLowRange(s: StudentRow) { s.coinBalance < 20 }
  predicate InLowerMidRange(s: StudentRow) { s.coinBalance >= 20 && s.coinBalance < 50 }
  predicate InUpperMidRange(s: StudentRow) { s.coinBalance >= 50 && s.coinBalance < 100 }
  predicate InHighRange(s: StudentRow) { s.coinBalance >= 100 }

  /** Every balance lies in exactly one of the four ranges, and that range has its colour. */
  lemma RangesPartition(s: StudentRow)
    ensures (if InLowRange(s) then 1 else 0) + (if InLowerMidRange(s) then 1 else 0)
            + (if InUpperMidRange(s) then 1 else 0) + (if InHighRange(s) then 1 else 0) == 1
    ensures InLowRange(s) <==> BalanceColor(s.coinBalance) == Red
    ensures InLowerMidRange(s) <==> BalanceColor(s.coinBalance) == Yellow
    ensures InUpperMidRange(s) <==> BalanceColor(s.coinBalance) == Blue
    ensures InHighRange(s) <==> BalanceColor(s.coinBalance) == Green
  {
  }

  /** The four range counts add up to the number of students. */
  lemma {:induction false} RangeCountsSum(students: seq<StudentRow>)
    ensures |Filter(students, InLowRange)| + |Filter(students, InLowerMidRange)|
            + |Filter(students, InUpperMidRange)| + |Filter(students, InHighRange)| == |students|
  {
    if students != [] {
      RangeCountsSum(students[1..]);
      RangesPartition(students[0]);
    }
  }

  /** `coinRanges`: the four cards, from the lowest range to the highest. */
  function CoinRanges(students: seq<StudentRow>): (r: seq<CoinRange>)
    ensures |r| == 4
    ensures r[0].count + r[1].count + r[2].count + r[3].count == |students|
    ensures r[0] == CoinRange("0-19 coins", |Filter(students, InLowRange)|, "bg-red-100 text-red-800")
    ensures r[1] == CoinRange("20-49 coins", |Filter(students, InLowerMidRange)|, "bg-yellow-100 text-yellow-800")
    ensures r[2] == CoinRange("50-99 coins", |Filter(students, InUpperMidRange)|, "bg-blue-100 text-blue-800")
    ensures r[3] == CoinRange("100+ coins", |Filter(students, InHighRange)|, "bg-green-100 text-green-800")
  {
    RangeCountsSum(students);
    [ CoinRange("0-19 coins", |Filter(students, InLowRange)|, "bg-red-100 text-red-800"),
      CoinRange("20-49 coins", |Filter(students, InLowerMidRange)|, "bg-yellow-100 text-yellow-800"),
      CoinRange("50-99 coins", |Filter(students, InUpperMidRange)|, "bg-blue-100 text-blue-800"),
      CoinRange("100+ coins", |Filter(students, InHighRange)|, "bg-green-100 text-green-800") ]
  }

  /** The status badge: "Active" once a student has coins, else "New". */
  function Status(balance: int): (badge: string)
    ensures badge == "Active" <==> balance > 0
    ensures badge == "New" <==> balance <= 0
  {
    if balance > 0 then "Active" else "New"
  }

  /** Balances are non-increasing over the indices `lo..hi` of `a`. */
  ghost predicate SortedBetween(a: array<StudentRow>, lo: int, hi: int)
    reads a
  {
    forall p, q :: lo <= p < q < hi && 0 <= p && q < a.Length ==> a[p].coinBalance >= a[q].coinBalance
  }

  /** Exchanges two neighbouring entries. */
  method SwapDown(a: array<StudentRow>, j: int)
    requires 0 < j < a.Length
    modifies a
    ensures a[..] == old(a[..])[j - 1 := old(a[j])][j := old(a[j - 1])]
    ensures multiset(a[..]) == multiset(old(a[..]))
  {
    a[j - 1], a[j] := a[j], a[j - 1];
  }

  /**
   * One pass of the sort: moves `a[i]` left past every entry with a smaller
   * balance, so that the first `i + 1` entries are in order.
   */
  method SinkLast(a: array<StudentRow>, i: int)
    requires 0 <= i < a.Length
    requires SortedBetween(a, 0, i)
    modifies a
    ensures SortedBetween(a, 0, i + 1)
    ensures multiset(a[..]) == multiset(old(a[..]))
    ensures a[i + 1..] == old(a[i + 1..])
  {
    var j := i;
    while j > 0 && a[j - 1].coinBalance < a[j].coinBalance
      invariant 0 <= j <= i
      invariant forall p, q :: 0 <= p < q <= i && p != j && q != j ==> a[p].coinBalance >= a[q].coinBalance
      invariant forall q :: j < q <= i ==> a[j].coinBalance > a[q].coinBalance
      invariant multiset(a[..]) == multiset(old(a[..]))
      invariant a[i + 1..] == old(a[i + 1..])
    {
      SwapDown(a, j);
      j := j - 1;
    }
  }

  /**
   * The sort of the "Top Students" panel: sorts the array
   * in place into non-increasing balance order. Equal balances are never
   * swapped, so their order is kept.
   */
  method SortByBalance(a: array<StudentRow>)
    modifies a
    ensures SortedDesc(a[..], Balance)
    ensures multiset(a[..]) == multiset(old(a[..]))
  {
    var i := 0;
    while i < a.Length
      invariant 0 <= i <= a.Length
      invariant SortedBetween(a, 0, i)
      invariant multiset(a[..]) == multiset(old(a[..]))
    {
      SinkLast(a, i);
      i := i + 1;
    }
  }

  /** The "Top Students" panel: sorts the array in place and shows its first five. */
  method TopStudents(a: array<StudentRow>) returns (top: seq<StudentRow>)
    modifies a
    ensures SortedDesc(a[..], Balance)
    ensures multiset(a[..]) == multiset(old(a[..]))
    ensures top == Take(a[..], 5)
    ensures forall i, y :: 0 <= i < |top| && y in multiset(a[..]) - multiset(top) ==> y.coinBalance <= top[i].coinBalance
  {
    SortByBalance(a);
    top := Take(a[..], 5);
    TopOfSorted(a[..], 5, Balance);
  }
}
