/**
 * Liskov substitution, after: both repositories return a plain array, so
 * the consumers work with either one unchanged.
 */
module LiskovAfter {
  import Before = LiskovBefore

  type Lesson = Before.Lesson

  datatype Repository = FileLessonRepository | EloquentLessonRepository

  /** Either repository returns a plain array of the three lessons, the same records as the earlier design's. */
  function GetAll(repo: Repository): (lessons: seq<Lesson>)
    ensures |lessons| == 3
    ensures forall i :: 0 <= i < 3 ==> lessons[i].id == i + 1
    ensures [lessons[0].duration, lessons[1].duration, lessons[2].duration] == [30, 45, 60]
    ensures lessons == Before.Items(Before.GetAll(Before.FileLessonRepository))
  {
    match repo
    case FileLessonRepository =>
      [Before.Lesson(1, "Introduction to PHP", 30),
       Before.Lesson(2, "Object-Oriented Programming", 45),
       Before.Lesson(3, "SOLID Principles", 60)]
    case EloquentLessonRepository =>
      Before.LessonCollection([
        Before.Lesson(1, "Introduction to PHP", 30),
        Before.Lesson(2, "Object-Oriented Programming", 45),
        Before.Lesson(3, "SOLID Principles", 60)]).ToArray()
  }

  /** Both repositories give the same lessons in the same order. */
  lemma GetAllSubstitutable()
    ensures GetAll(FileLessonRepository) == GetAll(EloquentLessonRepository)
  {
  }

  /** The durations added up from the first lesson to the last. */
  function SumDurations(lessons: seq<Lesson>): int
  {
    if lessons == [] then 0 else SumDurations(lessons[..|lessons| - 1]) + lessons[|lessons| - 1].duration
  }

  lemma {:induction false} SumDurationsAppend(a: seq<Lesson>, b: seq<Lesson>)
    ensures SumDurations(a + b) == SumDurations(a) + SumDurations(b)
    decreases |b|
  {
    if b == [] {
      assert a + b == a;
    } else {
      assert (a + b)[..|a + b| - 1] == a + b[..|b| - 1];
      SumDurationsAppend(a, b[..|b| - 1]);
    }
  }

  /** Both repositories' lessons last 30 + 45 + 60 = 135 minutes in all. */
  lemma TotalIs135(repo: Repository)
    ensures SumDurations(GetAll(repo)) == 135
  {
    var ls := GetAll(repo);
    assert ls[..1][..0] == [];
    assert SumDurations(ls[..1]) == 30;
    assert ls[..2][..1] == ls[..1];
    assert SumDurations(ls[..2]) == 75;
    assert ls[..|ls| - 1] == ls[..2];
  }

  /** Adds up the durations of the repository's lessons, in order. */
  method CalculateTotalDuration(repo: Repository) returns (totalDuration: int)
    ensures totalDuration == SumDurations(GetAll(repo))
    ensures totalDuration == 135
  {
    var lessons := GetAll(repo);
    totalDuration := 0;
    for i := 0 to |lessons|
      invariant totalDuration == SumDurations(lessons[..i])
    {
      assert lessons[..i + 1][..i] == lessons[..i];
      totalDuration := totalDuration + lessons[i].duration;
    }
    assert lessons[..|lessons|] == lessons;
    TotalIs135(repo);
  }

  /**
   * The lines the consumer prints: the count heading, then one line per
   * lesson in order, the same lines as the earlier design's array branch.
   */
  method DisplayLessons(repo: Repository) returns (lines: seq<string>)
    ensures |lines| == |GetAll(repo)| + 1
    ensures lines[0] == Before.Header(|GetAll(repo)|)
    ensures forall i :: 0 <= i < |GetAll(repo)| ==> lines[i + 1] == Before.LessonLine(GetAll(repo)[i])
    ensures lines == Before.Display(Before.Array(GetAll(repo)))
  {
    var lessons := GetAll(repo);
    lines := [Before.Header(|lessons|)];
    for i := 0 to |lessons|
      invariant |lines| == i + 1
      invariant lines[0] == Before.Header(|lessons|)
      invariant forall k :: 0 <= k < i ==> lines[k + 1] == Before.LessonLine(lessons[k])
    {
      lines := lines + [Before.LessonLine(lessons[i])];
    }
  }
}
