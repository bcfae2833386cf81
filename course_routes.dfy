/**
 * The `/api/courses` handlers (src/app/api/courses/route.ts) over the `courses` table. GET lists
 * the caller's courses by name; POST trims the name and either returns the caller's course whose
 * lower-cased name matches, or inserts one. The table is a sequence of rows in insertion order;
 * the database's id and creation time for a new row are parameters.
 */
module CourseRoutes {
  import opened Wrappers
  import opened Strings
  import opened Json
  import opened Seqs
  import opened Http

  datatype Course = Course(id: string, name: string, userId: string, createdAt: string)

  /** `{ id, name, created_at }`, the columns both handlers select. */
  function CourseJson(c: Course): Json {
    JObj(map["id" := JStr(c.id), "name" := JStr(c.name), "created_at" := JStr(c.createdAt)])
  }

  function OwnedBy(user: string): Course -> bool { (c: Course) => c.userId == user }

  function ByName(): (Course, Course) -> bool { (a: Course, b: Course) => LexLess(a.name, b.name) }

  lemma ByNameIsStrict()
    ensures StrictOrder(ByName())
  {
    forall x ensures !ByName()(x, x) { LexLessIrreflexive(x.name); }
    forall x, y, z | ByName()(x, y) && ByName()(y, z) ensures ByName()(x, z) {
      LexLessTransitive(x.name, y.name, z.name);
    }
  }

  /** `SELECT … WHERE user_id = $1 ORDER BY name ASC`. */
  function UserCourses(rows: seq<Course>, user: string): seq<Course> {
    Sort(Filter(rows, OwnedBy(user)), ByName())
  }

  /** Only the caller's rows, all of them, ordered by name. */
  lemma UserCoursesOrdered(rows: seq<Course>, user: string)
    ensures forall i :: 0 <= i < |UserCourses(rows, user)| ==> UserCourses(rows, user)[i].userId == user
    ensures multiset(UserCourses(rows, user)) == multiset(Filter(rows, OwnedBy(user)))
    ensures forall i :: 0 <= i < |rows| && rows[i].userId == user ==> rows[i] in UserCourses(rows, user)
    ensures forall i, j :: 0 <= i < j < |UserCourses(rows, user)| ==>
              !LexLess(UserCourses(rows, user)[j].name, UserCourses(rows, user)[i].name)
  {
    var mine := Filter(rows, OwnedBy(user));
    var sorted := UserCourses(rows, user);
    FilterMembers(rows, OwnedBy(user));
    ByNameIsStrict();
    SortSorted(mine, ByName());
    forall i | 0 <= i < |sorted| ensures sorted[i].userId == user {
      assert sorted[i] in multiset(mine);
      var k :| 0 <= k < |mine| && mine[k] == sorted[i];
    }
    forall i | 0 <= i < |rows| && rows[i].userId == user ensures rows[i] in sorted {
      assert rows[i] in mine;
      assert rows[i] in multiset(sorted);
    }
  }

  function ListResponse(rows: seq<Course>, user: Option<string>): Response {
    if !HasUser(user) then Unauthorized
    else Success(JArr(Map(UserCourses(rows, user.value), CourseJson)))
  }

  /** The trimmed name a POST body carries, or `None` when the name is missing, not a string or blank. */
  function RequestedName(body: Json): (r: Option<string>)
    ensures r.Some? ==> r.value != "" && r.value == Trim(r.value)
  {
    var name := Get(body, "name");
    if !Truthy(name) || !name.JStr? || Trim(name.s) == "" then None else TrimIdempotent(name.s); Some(Trim(name.s))
  }

  lemma TrimIdempotent(s: string)
    ensures Trim(Trim(s)) == Trim(s)
  {
    TrimStartOfTrimmed(s);
  }

  lemma TrimStartOfTrimmed(s: string)
    ensures TrimStart(TrimEnd(TrimStart(s))) == TrimEnd(TrimStart(s))
    ensures TrimEnd(TrimEnd(TrimStart(s))) == TrimEnd(TrimStart(s))
  {
    var t := TrimEnd(TrimStart(s));
    if t != [] {
      assert !IsWhitespace(t[0]);
      assert !IsWhitespace(t[|t| - 1]);
    }
  }

  /** `LOWER(name) = LOWER($1) AND user_id = $2`. */
  predicate SameCourse(c: Course, user: string, name: string) {
    c.userId == user && ToLower(c.name) == ToLower(name)
  }

  /** The first row the duplicate check finds. */
  function FindCourse(rows: seq<Course>, user: string, name: string): (r: Option<nat>)
    ensures r.Some? ==> r.value < |rows| && SameCourse(rows[r.value], user, name)
    ensures r.Some? ==> forall i :: 0 <= i < r.value ==> !SameCourse(rows[i], user, name)
    ensures r.None? ==> forall i :: 0 <= i < |rows| ==> !SameCourse(rows[i], user, name)
  {
    if rows == [] then None
    else if SameCourse(rows[0], user, name) then Some(0)
    else match FindCourse(rows[1..], user, name)
      case Some(i) => Some(i + 1)
      case None => None
  }

  const PostFailed: Response := Error(500, "Failed to create course")

  /** The rows after a POST and its response, given the id and timestamp a new row would get. */
  function Post(rows: seq<Course>, user: Option<string>, body: Body, freshId: string, now: string): (seq<Course>, Response)
  {
    if !HasUser(user) then (rows, Unauthorized)
    else if body.None? || IsNullish(body.value) then (rows, PostFailed)
    else match RequestedName(body.value)
      case None => (rows, Error(400, "Course name is required"))
      case Some(name) =>
        match FindCourse(rows, user.value, name)
        case Some(i) => (rows, Success(CourseJson(rows[i])))
        case None =>
          var c := Course(freshId, name, user.value, now);
          (rows + [c], Created(CourseJson(c)))
  }

  /** No two courses of one user have the same lower-cased name. */
  ghost predicate NoDuplicateNames(rows: seq<Course>) {
    forall i, j :: 0 <= i < j < |rows| && rows[i].userId == rows[j].userId ==>
      ToLower(rows[i].name) != ToLower(rows[j].name)
  }

  /** Without a caller nothing changes and the answer is 401. */
  lemma PostNeedsUser(rows: seq<Course>, user: Option<string>, body: Body, freshId: string, now: string)
    requires !HasUser(user)
    ensures Post(rows, user, body, freshId, now) == (rows, Unauthorized)
  {
  }

  /**
   * A POST either leaves the table as it was (401, 500, 400, or an existing course returned) or
   * appends exactly one row: the caller's, with the trimmed name, when no course of the caller's
   * had that name up to case, answered with 201.
   */
  lemma PostAppendsAtMostOne(rows: seq<Course>, user: Option<string>, body: Body, freshId: string, now: string)
    ensures Post(rows, user, body, freshId, now).0 == rows
      || (HasUser(user) && body.Some? && RequestedName(body.value).Some?
          && FindCourse(rows, user.value, RequestedName(body.value).value).None?
          && Post(rows, user, body, freshId, now).0
             == rows + [Course(freshId, RequestedName(body.value).value, user.value, now)]
          && Post(rows, user, body, freshId, now).1.status == 201)
  {
  }

  /** A name the caller already has, up to case, returns that course with 200 and inserts nothing. */
  lemma PostFindsExisting(rows: seq<Course>, user: string, body: Json, freshId: string, now: string)
    requires user != "" && !IsNullish(body) && RequestedName(body).Some?
    requires FindCourse(rows, user, RequestedName(body).value).Some?
    ensures Post(rows, Some(user), Some(body), freshId, now)
      == (rows, Success(CourseJson(rows[FindCourse(rows, user, RequestedName(body).value).value])))
  {
  }

  /** POSTs keep a user's course names distinct up to case. */
  lemma PostKeepsNamesDistinct(rows: seq<Course>, user: Option<string>, body: Body, freshId: string, now: string)
    requires NoDuplicateNames(rows)
    ensures NoDuplicateNames(Post(rows, user, body, freshId, now).0)
  {
    var after := Post(rows, user, body, freshId, now).0;
    PostAppendsAtMostOne(rows, user, body, freshId, now);
    if after != rows {
      var name := RequestedName(body.value).value;
      forall i, j | 0 <= i < j < |after| && after[i].userId == after[j].userId
        ensures ToLower(after[i].name) != ToLower(after[j].name)
      {
        if j == |rows| {
          assert !SameCourse(rows[i], user.value, name);
        } else {
          assert after[i] == rows[i] && after[j] == rows[j];
        }
      }
    }
  }

  /** Posting the same name again, in any case and with any surrounding blanks, inserts nothing. */
  lemma PostTwiceInsertsOnce(rows: seq<Course>, user: Option<string>, body1: Body, body2: Body,
                             id1: string, id2: string, now1: string, now2: string)
    requires body1.Some? && !IsNullish(body1.value) && body2.Some? && !IsNullish(body2.value)
    requires RequestedName(body1.value).Some? && RequestedName(body2.value).Some?
    requires ToLower(RequestedName(body1.value).value) == ToLower(RequestedName(body2.value).value)
    ensures var once := Post(rows, user, body1, id1, now1).0;
      Post(once, user, body2, id2, now2).0 == once
  {
    var once := Post(rows, user, body1, id1, now1).0;
    PostAppendsAtMostOne(rows, user, body1, id1, now1);
    if HasUser(user) {
      var name1 := RequestedName(body1.value).value;
      var name2 := RequestedName(body2.value).value;
      match FindCourse(rows, user.value, name1)
      case Some(i) =>
        assert SameCourse(rows[i], user.value, name2);
        assert FindCourse(rows, user.value, name2).Some?;
      case None =>
        assert SameCourse(once[|rows|], user.value, name2);
        assert FindCourse(once, user.value, name2).Some?;
    }
  }

  /** The `courses` table, updated in place by POST. */
  class CourseTable {
    var rows: seq<Course>

    constructor(initial: seq<Course>)
      ensures rows == initial
    {
      rows := initial;
    }

    /** GET: reads the table and changes nothing. */
    function List(user: Option<string>): Response
      reads this
    {
      ListResponse(rows, user)
    }

    /** POST: the duplicate check, then the insert when no course matched. */
    method Create(user: Option<string>, body: Body, freshId: string, now: string) returns (r: Response)
      modifies this
      ensures rows == Post(old(rows), user, body, freshId, now).0
      ensures r == Post(old(rows), user, body, freshId, now).1
      ensures NoDuplicateNames(old(rows)) ==> NoDuplicateNames(rows)
    {
      if !HasUser(user) {
        return Unauthorized;
      }
      if body.None? || IsNullish(body.value) {
        return PostFailed;
      }
      var name := RequestedName(body.value);
      if name.None? {
        return Error(400, "Course name is required");
      }
      var existing := FindCourse(rows, user.value, name.value);
      if existing.Some? {
        return Success(CourseJson(rows[existing.value]));
      }
      var c := Course(freshId, name.value, user.value, now);
      if NoDuplicateNames(rows) {
        PostKeepsNamesDistinct(rows, user, body, freshId, now);
      }
      rows := rows + [c];
      r := Created(CourseJson(c));
    }
  }
}
