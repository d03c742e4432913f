/**
 * The filtered, paginated course listing (`fetch_courses`) and its row count
 * (`count_courses`): from the filters, the search text, the offset and the
 * limit they build a WHERE-condition list, a parallel parameter list and the
 * SQL text. Executing the statement is not part of this model.
 */
module CourseQueries {
  import opened Outcomes
  import opened SqlText
  import opened Backend

  /**
   * A type or department filter as the list functions receive it: absent
   * (`None`), the sentinel `"All"`, or a row id.
   */
  datatype Filter = Unset | All | Id(id: int)

  /** A value bound to one parameter slot. */
  datatype Param = Int(n: int) | Text(s: string)

  /** A statement ready for `cursor.execute`: SQL text and its parameter tuple. */
  datatype Statement = Statement(sql: string, params: seq<Param>)

  /** One WHERE predicate, with the value it binds. */
  datatype Clause = TypeIs(typeId: int) | DepartmentIs(departmentId: int) | NameLike(query: string)

  /**
   * `filter and filter != "All"`: `None` and `"All"` are rejected, and so is
   * the id 0, which Python treats as false.
   */
  predicate Restricts(f: Filter) {
    f.Id? && f.id != 0
  }

  /** `if search_query:` rejects `None` and the empty string. */
  predicate Searches(search: Option<string>) {
    search.Some? && search.value != ""
  }

  /**
   * The Python truthiness tests: `None`, `"All"` and the id 0 restrict
   * nothing and every other id does; `None` and `""` search for nothing and
   * every other text does.
   */
  lemma Truthiness(f: Filter, search: Option<string>)
    ensures Restricts(f) <==> f != Unset && f != All && f != Id(0)
    ensures Searches(search) <==> search != None && search != Some("")
  {
  }

  /** The position a clause kind takes in the condition list: type, department, search. */
  function Rank(c: Clause): nat {
    match c
    case TypeIs(_) => 0
    case DepartmentIs(_) => 1
    case NameLike(_) => 2
  }

  /** The predicates the filters select, in the order the code appends them. */
  function Clauses(filterType: Filter, filterDepartment: Filter, search: Option<string>): (r: seq<Clause>)
    ensures |r| <= 3
    ensures forall i, j | 0 <= i < j < |r| :: Rank(r[i]) < Rank(r[j])
  {
    TypeClauses(filterType) + DepartmentClauses(filterDepartment) + SearchClauses(search)
  }

  function TypeClauses(filterType: Filter): seq<Clause> {
    if Restricts(filterType) then [TypeIs(filterType.id)] else []
  }

  function DepartmentClauses(filterDepartment: Filter): seq<Clause> {
    if Restricts(filterDepartment) then [DepartmentIs(filterDepartment.id)] else []
  }

  function SearchClauses(search: Option<string>): seq<Clause> {
    if Searches(search) then [NameLike(search.value)] else []
  }

  /** The condition fragment of a clause, with placeholder `p`. */
  function Condition(c: Clause, p: string): string {
    match c
    case TypeIs(_) => "courses.course_type_id = " + p
    case DepartmentIs(_) => "courses.department_id = " + p
    case NameLike(_) => "courses.name ILIKE " + p
  }

  /** The parameter a clause binds: the id, or the search text wrapped in `%` wildcards. */
  function Bound(c: Clause): Param {
    match c
    case TypeIs(t) => Int(t)
    case DepartmentIs(d) => Int(d)
    case NameLike(q) => Text("%" + q + "%")
  }

  /** The `conditions` list: one fragment per clause. */
  function Conditions(cs: seq<Clause>, p: string): (r: seq<string>)
    ensures |r| == |cs|
  {
    if cs == [] then [] else [Condition(cs[0], p)] + Conditions(cs[1..], p)
  }

  /** The filter part of `params`: one value per clause. */
  function FilterParams(cs: seq<Clause>): (r: seq<Param>)
    ensures |r| == |cs|
  {
    if cs == [] then [] else [Bound(cs[0])] + FilterParams(cs[1..])
  }

  /** Condition `k` and parameter `k` both come from clause `k`. */
  lemma {:induction false} ClauseAt(cs: seq<Clause>, p: string, k: nat)
    requires k < |cs|
    ensures Conditions(cs, p)[k] == Condition(cs[k], p)
    ensures FilterParams(cs)[k] == Bound(cs[k])
  {
    if k > 0 {
      ClauseAt(cs[1..], p, k - 1);
    }
  }

  /** A single clause gives a single condition and a single parameter. */
  lemma OneClause(c: Clause, p: string)
    ensures Conditions([c], p) == [Condition(c, p)] && FilterParams([c]) == [Bound(c)]
  {
  }

  /** Conditions and parameters of consecutive clause lists follow one another. */
  lemma {:induction false} AppendClauses(a: seq<Clause>, b: seq<Clause>, p: string)
    ensures Conditions(a + b, p) == Conditions(a, p) + Conditions(b, p)
    ensures FilterParams(a + b) == FilterParams(a) + FilterParams(b)
  {
    if a == [] {
      assert a + b == b;
    } else {
      assert (a + b)[1..] == a[1..] + b;
      AppendClauses(a[1..], b, p);
    }
  }

  /** `" WHERE " + " AND ".join(conditions)` when there are conditions, nothing otherwise. */
  function WhereClause(conditions: seq<string>): (r: string)
    ensures r == "" <==> conditions == []
    ensures conditions != [] ==> |r| >= 7 && r[..7] == " WHERE "
  {
    if conditions == [] then "" else " WHERE " + Join(" AND ", conditions)
  }

  // The fixed SQL text, written in pieces short enough for the verifier to
  // check character by character.

  function FetchSelect(): string {
    "\n        SELECT courses.id," + " courses.name," + " departments.code," + " course_types.type_name"
  }

  function CountSelect(): string {
    "\n        SELECT COUNT(*)"
  }

  function FromCourses(): string {
    "\n        FROM courses"
  }

  function JoinDepartments(): string {
    "\n        JOIN departments" + " ON departments.id =" + " courses.department_id"
  }

  function JoinCourseTypes(): string {
    "\n        JOIN course_types" + " ON course_types.id =" + " courses.course_type_id"
  }

  /** The FROM and JOIN lines shared by the listing and the count. */
  function CourseJoins(): string {
    FromCourses() + JoinDepartments() + JoinCourseTypes() + "\n    "
  }

  lemma FetchSelectUnmarked()
    ensures Unmarked(FetchSelect())
  {
    var a, b, c, d := "\n        SELECT courses.id,", " courses.name,", " departments.code,", " course_types.type_name";
    assert Unmarked(a) && Unmarked(b) && Unmarked(c) && Unmarked(d);
    UnmarkedAppend(a, b);
    UnmarkedAppend(a + b, c);
    UnmarkedAppend(a + b + c, d);
  }

  lemma JoinDepartmentsUnmarked()
    ensures Unmarked(JoinDepartments())
  {
    var a, b, c := "\n        JOIN departments", " ON departments.id =", " courses.department_id";
    assert Unmarked(a) && Unmarked(b) && Unmarked(c);
    UnmarkedAppend(a, b);
    UnmarkedAppend(a + b, c);
  }

  lemma JoinCourseTypesUnmarked()
    ensures Unmarked(JoinCourseTypes())
  {
    var a, b, c := "\n        JOIN course_types", " ON course_types.id =", " courses.course_type_id";
    assert Unmarked(a) && Unmarked(b) && Unmarked(c);
    UnmarkedAppend(a, b);
    UnmarkedAppend(a + b, c);
  }

  lemma CourseJoinsUnmarked()
    ensures Unmarked(CourseJoins())
  {
    assert Unmarked(FromCourses()) && Unmarked("\n    ");
    JoinDepartmentsUnmarked();
    JoinCourseTypesUnmarked();
    UnmarkedAppend(FromCourses(), JoinDepartments());
    UnmarkedAppend(FromCourses() + JoinDepartments(), JoinCourseTypes());
    UnmarkedAppend(FromCourses() + JoinDepartments() + JoinCourseTypes(), "\n    ");
  }

  lemma FixedTextUnmarked()
    ensures Unmarked(FetchSelect()) && Unmarked(CountSelect()) && Unmarked(CourseJoins())
    ensures Unmarked(" WHERE ") && Unmarked(" AND ")
    ensures Unmarked(" ORDER BY courses.id LIMIT ") && Unmarked(" OFFSET ")
  {
    FetchSelectUnmarked();
    CourseJoinsUnmarked();
  }

  /** The ORDER BY and paging tail of the listing, appended as one f-string. */
  function PageTail(p: string): string {
    " ORDER BY courses.id LIMIT " + p + " OFFSET " + p
  }

  /** The statement `fetch_courses` executes, or the error it raises. */
  function FetchStatement(databaseType: string, filterType: Filter, filterDepartment: Filter,
                          search: Option<string>, offset: int, limit: int): (r: Result<Statement>)
    ensures r.Err? <==> !Supported(databaseType)
    ensures r.Err? ==> r.message == UnsupportedDatabaseType
    ensures r.Ok? ==> r.value.params == FilterParams(Clauses(filterType, filterDepartment, search)) + [Int(limit), Int(offset)]
  {
    match Placeholder(databaseType)
    case Err(e) => Err(e)
    case Ok(p) =>
      var cs := Clauses(filterType, filterDepartment, search);
      Ok(Statement(FetchSelect() + CourseJoins() + WhereClause(Conditions(cs, p)) + PageTail(p),
                   FilterParams(cs) + [Int(limit), Int(offset)]))
  }

  /** The statement `count_courses` executes, or the error it raises. */
  function CountStatement(databaseType: string, filterType: Filter, filterDepartment: Filter,
                          search: Option<string>): (r: Result<Statement>)
    ensures r.Err? <==> !Supported(databaseType)
    ensures r.Err? ==> r.message == UnsupportedDatabaseType
    ensures r.Ok? ==> r.value.params == FilterParams(Clauses(filterType, filterDepartment, search))
  {
    match Placeholder(databaseType)
    case Err(e) => Err(e)
    case Ok(p) =>
      var cs := Clauses(filterType, filterDepartment, search);
      Ok(Statement(CountSelect() + CourseJoins() + WhereClause(Conditions(cs, p)),
                   FilterParams(cs)))
  }

  /** Each condition fragment opens exactly one slot. */
  lemma ConditionSlots(c: Clause, p: string)
    requires IsToken(p)
    ensures Slots(Condition(c, p), p) == 1
  {
    var words := match c
      case TypeIs(_) => "courses.course_type_id = "
      case DepartmentIs(_) => "courses.department_id = "
      case NameLike(_) => "courses.name ILIKE ";
    assert Unmarked(words);
    assert Condition(c, p) == words + p;
    SlotsAppend(words, p, p);
    SlotsOfWordsAndToken(words, p);
  }

  /** The WHERE part opens one slot per condition. */
  lemma WhereSlots(cs: seq<Clause>, p: string)
    requires IsToken(p)
    ensures Slots(WhereClause(Conditions(cs, p)), p) == |cs|
  {
    var conditions := Conditions(cs, p);
    if conditions != [] {
      forall k | 0 <= k < |conditions| ensures Count(conditions[k], p[0]) == 1 {
        ClauseAt(cs, p, k);
        ConditionSlots(cs[k], p);
      }
      FixedTextUnmarked();
      SlotsOfWordsAndToken(" AND ", p);
      SlotsOfWordsAndToken(" WHERE ", p);
      CountJoin(" AND ", conditions, p[0]);
      SlotsAppend(" WHERE ", Join(" AND ", conditions), p);
    }
  }

  /**
   * The paging tail opens two slots: its words open none, so the slots are
   * the token after `LIMIT` and the token after `OFFSET`.
   */
  lemma PageTailSlots(p: string)
    requires IsToken(p)
    ensures Slots(" ORDER BY courses.id LIMIT ", p) == 0 && Slots(" OFFSET ", p) == 0
    ensures Slots(PageTail(p), p) == 2
  {
    FixedTextUnmarked();
    SlotsOfWordsAndToken(" ORDER BY courses.id LIMIT ", p);
    SlotsOfWordsAndToken(" OFFSET ", p);
    SlotsAppend(" ORDER BY courses.id LIMIT ", p, p);
    SlotsAppend(" ORDER BY courses.id LIMIT " + p, " OFFSET ", p);
    SlotsAppend(" ORDER BY courses.id LIMIT " + p + " OFFSET ", p, p);
  }

  /** The key invariant of `fetch_courses`: as many slots in the SQL text as parameters. */
  lemma FetchSlotsMatchParams(databaseType: string, filterType: Filter, filterDepartment: Filter,
                              search: Option<string>, offset: int, limit: int)
    requires Supported(databaseType)
    ensures Slots(FetchStatement(databaseType, filterType, filterDepartment, search, offset, limit).value.sql,
                  Placeholder(databaseType).value)
         == |FetchStatement(databaseType, filterType, filterDepartment, search, offset, limit).value.params|
  {
    var p := Placeholder(databaseType).value;
    var cs := Clauses(filterType, filterDepartment, search);
    var where := WhereClause(Conditions(cs, p));
    FixedTextUnmarked();
    SlotsOfWordsAndToken(FetchSelect(), p);
    SlotsOfWordsAndToken(CourseJoins(), p);
    WhereSlots(cs, p);
    PageTailSlots(p);
    SlotsAppend(FetchSelect(), CourseJoins(), p);
    SlotsAppend(FetchSelect() + CourseJoins(), where, p);
    SlotsAppend(FetchSelect() + CourseJoins() + where, PageTail(p), p);
  }

  /** The same invariant for `count_courses`. */
  lemma CountSlotsMatchParams(databaseType: string, filterType: Filter, filterDepartment: Filter,
                              search: Option<string>)
    requires Supported(databaseType)
    ensures Slots(CountStatement(databaseType, filterType, filterDepartment, search).value.sql,
                  Placeholder(databaseType).value)
         == |CountStatement(databaseType, filterType, filterDepartment, search).value.params|
  {
    var p := Placeholder(databaseType).value;
    var cs := Clauses(filterType, filterDepartment, search);
    var where := WhereClause(Conditions(cs, p));
    FixedTextUnmarked();
    SlotsOfWordsAndToken(CountSelect(), p);
    SlotsOfWordsAndToken(CourseJoins(), p);
    WhereSlots(cs, p);
    SlotsAppend(CountSelect(), CourseJoins(), p);
    SlotsAppend(CountSelect() + CourseJoins(), where, p);
  }

  /**
   * The part `fetch_courses` and `count_courses` share, written out in each:
   * one condition and one parameter appended per accepted filter, in the
   * order type, department, search.
   */
  method FilterConditions(p: string, filterType: Filter, filterDepartment: Filter, search: Option<string>)
    returns (conditions: seq<string>, params: seq<Param>)
    ensures conditions == Conditions(Clauses(filterType, filterDepartment, search), p)
    ensures params == FilterParams(Clauses(filterType, filterDepartment, search))
  {
    conditions, params := [], [];
    if Restricts(filterType) {
      conditions := conditions + ["courses.course_type_id = " + p];
      params := params + [Int(filterType.id)];
      OneClause(TypeIs(filterType.id), p);
    }
    ghost var done := TypeClauses(filterType);
    assert conditions == Conditions(done, p) && params == FilterParams(done);
    if Restricts(filterDepartment) {
      conditions := conditions + ["courses.department_id = " + p];
      params := params + [Int(filterDepartment.id)];
      OneClause(DepartmentIs(filterDepartment.id), p);
    }
    AppendClauses(done, DepartmentClauses(filterDepartment), p);
    done := done + DepartmentClauses(filterDepartment);
    assert conditions == Conditions(done, p) && params == FilterParams(done);
    if Searches(search) {
      conditions := conditions + ["courses.name ILIKE " + p];
      params := params + [Text("%" + search.value + "%")];
      OneClause(NameLike(search.value), p);
    }
    AppendClauses(done, SearchClauses(search), p);
  }

  /**
   * `fetch_courses` up to `cur.execute`: it appends conditions and parameters
   * one filter at a time and grows the query text step by step.
   */
  method FetchCourses(databaseType: string, filterType: Filter, filterDepartment: Filter,
                      search: Option<string>, offset: int, limit: int) returns (r: Result<Statement>)
    ensures r == FetchStatement(databaseType, filterType, filterDepartment, search, offset, limit)
    ensures r.Ok? ==> Slots(r.value.sql, Placeholder(databaseType).value) == |r.value.params|
  {
    var query := FetchSelect() + CourseJoins();
    var placeholder := Placeholder(databaseType);
    if placeholder.Err? {
      return Err(placeholder.message);
    }
    var p := placeholder.value;
    var conditions, params := FilterConditions(p, filterType, filterDepartment, search);
    if conditions != [] {
      query := query + (" WHERE " + Join(" AND ", conditions));
    }
    assert query == FetchSelect() + CourseJoins() + WhereClause(conditions);
    query := query + PageTail(p);
    params := params + [Int(limit), Int(offset)];
    r := Ok(Statement(query, params));
    FetchSlotsMatchParams(databaseType, filterType, filterDepartment, search, offset, limit);
  }

  /** `count_courses` up to `cur.execute`, built the same way without the paging tail. */
  method CountCourses(databaseType: string, filterType: Filter, filterDepartment: Filter,
                      search: Option<string>) returns (r: Result<Statement>)
    ensures r == CountStatement(databaseType, filterType, filterDepartment, search)
    ensures r.Ok? ==> Slots(r.value.sql, Placeholder(databaseType).value) == |r.value.params|
  {
    var query := CountSelect() + CourseJoins();
    var placeholder := Placeholder(databaseType);
    if placeholder.Err? {
      return Err(placeholder.message);
    }
    var p := placeholder.value;
    var conditions, params := FilterConditions(p, filterType, filterDepartment, search);
    if conditions != [] {
      query := query + (" WHERE " + Join(" AND ", conditions));
    }
    assert query == CountSelect() + CourseJoins() + WhereClause(conditions);
    r := Ok(Statement(query, params));
    CountSlotsMatchParams(databaseType, filterType, filterDepartment, search);
  }

  /** A type filter adds the clause for its id exactly when it is a non-zero id. */
  lemma TypeFilterClause(filterType: Filter, filterDepartment: Filter, search: Option<string>, t: int)
    ensures TypeIs(t) in Clauses(filterType, filterDepartment, search) <==> filterType == Id(t) && t != 0
  {
  }

  /** A department filter adds the clause for its id exactly when it is a non-zero id. */
  lemma DepartmentFilterClause(filterType: Filter, filterDepartment: Filter, search: Option<string>, d: int)
    ensures DepartmentIs(d) in Clauses(filterType, filterDepartment, search) <==> filterDepartment == Id(d) && d != 0
  {
  }

  /** The search adds the clause for its text exactly when the text is present and non-empty. */
  lemma SearchClause(filterType: Filter, filterDepartment: Filter, search: Option<string>, q: string)
    ensures NameLike(q) in Clauses(filterType, filterDepartment, search) <==> search == Some(q) && q != ""
  {
  }

  /**
   * `None`, `"All"` and the id 0 are the same as no filter, and an empty search
   * is the same as none: each adds no condition and no parameter.
   */
  lemma RejectedFiltersAreOmitted(filterType: Filter, filterDepartment: Filter, search: Option<string>)
    ensures Clauses(All, filterDepartment, search) == Clauses(Unset, filterDepartment, search)
    ensures Clauses(Id(0), filterDepartment, search) == Clauses(Unset, filterDepartment, search)
    ensures Clauses(filterType, All, search) == Clauses(filterType, Unset, search)
    ensures Clauses(filterType, Id(0), search) == Clauses(filterType, Unset, search)
    ensures Clauses(filterType, filterDepartment, Some("")) == Clauses(filterType, filterDepartment, None)
  {
  }

  /** An accepted type filter puts its clause first, ahead of whatever the other filters add. */
  lemma AcceptedTypeFilterComesFirst(filterDepartment: Filter, search: Option<string>, t: int)
    requires t != 0
    ensures Clauses(Id(t), filterDepartment, search) == [TypeIs(t)] + Clauses(Unset, filterDepartment, search)
  {
  }

  /** An accepted search puts its clause last, after whatever the id filters add. */
  lemma AcceptedSearchComesLast(filterType: Filter, filterDepartment: Filter, q: string)
    requires q != ""
    ensures Clauses(filterType, filterDepartment, Some(q)) == Clauses(filterType, filterDepartment, None) + [NameLike(q)]
  {
  }

  /**
   * An accepted type filter puts `courses.course_type_id = p` first in the
   * conditions and its id first in the parameters.
   */
  lemma TypeFilterAddsFirstCondition(filterDepartment: Filter, search: Option<string>, t: int, p: string)
    requires t != 0
    ensures var rest := Clauses(Unset, filterDepartment, search);
            && Conditions(Clauses(Id(t), filterDepartment, search), p) == ["courses.course_type_id = " + p] + Conditions(rest, p)
            && FilterParams(Clauses(Id(t), filterDepartment, search)) == [Int(t)] + FilterParams(rest)
  {
    AcceptedTypeFilterComesFirst(filterDepartment, search, t);
    AppendClauses([TypeIs(t)], Clauses(Unset, filterDepartment, search), p);
  }

  /**
   * An accepted search puts `courses.name ILIKE p` last in the conditions and
   * the text wrapped in `%` wildcards last in the parameters.
   */
  lemma SearchAddsLastCondition(filterType: Filter, filterDepartment: Filter, q: string, p: string)
    requires q != ""
    ensures var rest := Clauses(filterType, filterDepartment, None);
            && Conditions(Clauses(filterType, filterDepartment, Some(q)), p) == Conditions(rest, p) + ["courses.name ILIKE " + p]
            && FilterParams(Clauses(filterType, filterDepartment, Some(q))) == FilterParams(rest) + [Text("%" + q + "%")]
  {
    AcceptedSearchComesLast(filterType, filterDepartment, q);
    AppendClauses(Clauses(filterType, filterDepartment, None), [NameLike(q)], p);
  }

  /** ` WHERE ` is emitted if and only if some filter is accepted. */
  lemma WhereIffSomeFilter(filterType: Filter, filterDepartment: Filter, search: Option<string>, p: string)
    ensures WhereClause(Conditions(Clauses(filterType, filterDepartment, search), p)) == ""
        <==> !Restricts(filterType) && !Restricts(filterDepartment) && !Searches(search)
  {
  }

  /**
   * `count_courses` builds the same WHERE part and the same filter parameters
   * as `fetch_courses`; only the listing adds ORDER BY, LIMIT and OFFSET and
   * their two parameters, limit before offset.
   */
  lemma CountSharesFetchFilters(databaseType: string, filterType: Filter, filterDepartment: Filter,
                                search: Option<string>, offset: int, limit: int)
    requires Supported(databaseType)
    ensures var fetch := FetchStatement(databaseType, filterType, filterDepartment, search, offset, limit).value;
            var count := CountStatement(databaseType, filterType, filterDepartment, search).value;
            var p := Placeholder(databaseType).value;
            var where := WhereClause(Conditions(Clauses(filterType, filterDepartment, search), p));
            && fetch.sql == FetchSelect() + CourseJoins() + where + PageTail(p)
            && count.sql == CountSelect() + CourseJoins() + where
            && fetch.params == count.params + [Int(limit), Int(offset)]
  {
  }
}
