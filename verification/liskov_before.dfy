/**
 * Liskov substitution, before: one repository returns an array of lessons
 * and the other a collection object, so the consumer has to check which
 * one it got.
 */
module LiskovBefore {
  import Decimal

  /** A lesson record. */
  datatype Lesson = Lesson(id: int, title: string, duration: int)

  /** A read-only wrapper around a list of lessons, set once at construction. */
  datatype LessonCollection = LessonCollection(items: seq<Lesson>)
  {
    /** The items, in order: a collection rebuilt from them is this one. */
    function ToArray(): (all: seq<Lesson>)
      ensures LessonCollection(all) == this
    {
      items
    }

    /** The number of items the collection hands out. */
    function Count(): (n: nat)
      ensures n == |ToArray()|
    {
      |items|
    }
  }

  /** Constructing a collection and reading it back gives the same items and their number. */
  lemma CollectionReadsBack(items: seq<Lesson>)
    ensures LessonCollection(items).ToArray() == items
    ensures LessonCollection(items).Count() == |LessonCollection(items).ToArray()| == |items|
  {
  }

  /** What a repository's getAll returns: a plain array or a collection object. */
  datatype Lessons = Array(lessons: seq<Lesson>) | Collection(collection: LessonCollection)

  /** The lessons a result holds, whichever kind it is. */
  function Items(result: Lessons): seq<Lesson>
  {
    match result
    case Array(xs) => xs
    case Collection(c) => c.ToArray()
  }

  datatype Repository = FileLessonRepository | EloquentLessonRepository

  /**
   * The file repository returns an array and the Eloquent one a collection,
   * both holding the same three lessons.
   */
  function GetAll(repo: Repository): (result: Lessons)
    ensures result.Array? <==> repo.FileLessonRepository?
    ensures |Items(result)| == 3
    ensures forall i :: 0 <= i < 3 ==> Items(result)[i].id == i + 1
    ensures [Items(result)[0].duration, Items(result)[1].duration, Items(result)[2].duration] == [30, 45, 60]
  {
    match repo
    case FileLessonRepository =>
      Array([
        Lesson(1, "Introduction to PHP", 30),
        Lesson(2, "Object-Oriented Programming", 45),
        Lesson(3, "SOLID Principles", 60)])
    case EloquentLessonRepository =>
      Collection(LessonCollection([
        Lesson(1, "Introduction to PHP", 30),
        Lesson(2, "Object-Oriented Programming", 45),
        Lesson(3, "SOLID Principles", 60)]))
  }

  /** The heading line shown before the lessons. */
  function Header(count: int): string
  {
    "Found " + Decimal.Render(count) + " lessons:"
  }

  /** The line shown for one lesson. */
  function LessonLine(lesson: Lesson): string
  {
    "- " + lesson.title + " (" + Decimal.Render(lesson.duration) + " min)"
  }

  /** One line per lesson, in order. */
  function Lines(lessons: seq<Lesson>): (lines: seq<string>)
    ensures |lines| == |lessons|
    ensures forall i :: 0 <= i < |lessons| ==> lines[i] == LessonLine(lessons[i])
  {
    seq(|lessons|, i requires 0 <= i < |lessons| => LessonLine(lessons[i]))
  }

  /** The count heading, then one line per lesson. */
  function Listing(count: int, lessons: seq<Lesson>): (lines: seq<string>)
    ensures |lines| == |lessons| + 1
    ensures lines[0] == Header(count)
    ensures forall i :: 0 <= i < |lessons| ==> lines[i + 1] == LessonLine(lessons[i])
  {
    [Header(count)] + Lines(lessons)
  }

  /**
   * The lines the consumer prints, one branch per kind of result. Either
   * branch prints the count heading, then one line per lesson in order.
   */
  function Display(result: Lessons): (lines: seq<string>)
    ensures |lines| == |Items(result)| + 1
    ensures lines[0] == Header(|Items(result)|)
    ensures forall i :: 0 <= i < |Items(result)| ==> lines[i + 1] == LessonLine(Items(result)[i])
  {
    match result
    case Collection(c) => Listing(c.Count(), c.ToArray())
    case Array(xs) => Listing(|xs|, xs)
  }

  /** Both repositories make the consumer print the same lines, through different branches. */
  function DisplayLessons(repo: Repository): (lines: seq<string>)
    ensures lines == Display(Array(Items(GetAll(FileLessonRepository))))
    ensures |lines| == 4
  {
    Display(GetAll(repo))
  }

  /** The collection, converted to an array, is exactly the file repository's array. */
  lemma EloquentMatchesFile()
    ensures GetAll(EloquentLessonRepository).collection.ToArray() == GetAll(FileLessonRepository).lessons
  {
  }

  /** The collection branch and the array branch print the same lines for the same lessons. */
  lemma BranchesAgree(items: seq<Lesson>)
    ensures Display(Collection(LessonCollection(items))) == Display(Array(items))
    ensures |Display(Array(items))| == |items| + 1
  {
  }
}
