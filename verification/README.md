# Course manager: statement building and paging

The program is a desktop tool for managing the courses of an educational
institution, stored in SQLite or PostgreSQL. This project models the parts
of `main.py` that decide what is sent to the database and which page of the
course list is shown:

- **Backend** (`backend.dfy`): `get_param_placeholder` selects the parameter
  token, `?` for sqlite and `%s` for postgresql. For any other database type
  it raises `Unsupported database type`, modelled as an `Err` result. The
  module also defines `Slots`, the number of parameter slots a driver finds
  in SQL text built with a token: the occurrences of the token's marker
  character (`?` or `%`).
- **SqlText** (`sql_text.dfy`): character counting, Python's `str.join`, and
  `Unmarked`, for fixed SQL text that contains no marker character.
- **CourseQueries** (`course_queries.dfy`): `fetch_courses` and
  `count_courses`. The filters are `None`, the sentinel `"All"`, or a row id.
  Python truthiness is kept: the id 0 and the empty search are treated as
  absent.
  - Each accepted filter contributes one condition fragment and one
    parameter, in the order type, department, search.
  - ` WHERE ` is added exactly when there is a condition.
  - The listing adds `ORDER BY courses.id LIMIT p OFFSET p` and the
    parameters `limit` and `offset`.
  - The statements are specified by functions (`FetchStatement`,
    `CountStatement`). The methods `FetchCourses` and `CountCourses` build
    them step by step, as the source does, and are proved equal to those
    functions.
  - The main invariant: the SQL text has as many slots as there are
    parameters.
- **CourseCommands** (`course_commands.dfy`): `fetch_course_by_id`,
  `delete_course`, `create_course` and `update_course`. Each is an f-string
  whose every field is the placeholder, modelled as `p.join(fixed parts)`.
  The fetch and delete statements have 1 slot each, insert has 4 and update
  has 5. In the update, the course id, last in the tuple, fills the slot
  after `WHERE id = `.
- **Pagination** (`pagination.dfy`): ten rows per page.
  - `TotalPages` is ceiling division, `Offset` is the first row of a page,
    and the two predicates say when the Previous and Next buttons are
    enabled. Lemmas show that the pages tile the result. While the count is
    unchanged, Next, and Previous from a counted page, lead to a page with
    rows. The count can change between two refreshes, because each refresh
    reads the filter widgets again.
  - The class `CourseManager` holds the current page, both button states
    and the two statements sent by the most recent refresh. Its constructor,
    `UpdateCourseList`, `NextPage` and `PrevPage` follow `__init__`,
    `update_course_list`, `next_page` and `prev_page`.
  - As in the source, a refresh keeps the current page even when the
    filters changed. The page may therefore lie beyond `TotalPages`, and
    then the fetched page is empty and Next is disabled. The class
    invariant promises only a page number of at least 1 and a Previous
    button that agrees with it.

`outcomes.dfy` holds the `Option` and `Result` datatypes, used for Python's
`None` and for a raised error.

## Model

| member | source | states |
|---|---|---|
| Backend.Placeholder | main.py:108-114 | the token is `?` exactly for sqlite and `%s` exactly for postgresql; it is an error exactly for every other type, with the message `Unsupported database type`; each token opens exactly one slot |
| CourseQueries.Truthiness | main.py:129-137 | a filter restricts exactly when it is not `None`, not `"All"` and not the id 0; the search applies exactly when it is not `None` and not `""` |
| CourseQueries.Conditions | main.py:124-139 | the `conditions` list has one fragment per selected predicate |
| CourseQueries.FilterParams | main.py:124-139 | the filter part of `params` has one value per selected predicate |
| CourseQueries.Clauses | main.py:129-139 | the filters select at most three predicates, in strictly increasing order: type, then department, then search |
| CourseQueries.ClauseAt | main.py:129-139 | condition `k` and parameter `k` come from the same predicate, so the two lists run in parallel |
| CourseQueries.TypeFilterClause | main.py:129-131 | the type predicate for id `t` is selected exactly when the type filter is the id `t` and `t` is not 0 |
| CourseQueries.DepartmentFilterClause | main.py:133-135 | the department predicate for id `d` is selected exactly when the department filter is the id `d` and `d` is not 0 |
| CourseQueries.SearchClause | main.py:137-139 | the ILIKE predicate for text `q` is selected exactly when the search is `q` and `q` is not empty |
| CourseQueries.RejectedFiltersAreOmitted | main.py:129-139 | `"All"` and id 0 act as no filter, and the empty search acts as no search: each adds no condition and no parameter |
| CourseQueries.AcceptedTypeFilterComesFirst | main.py:129-135 | an accepted type filter puts its predicate before those of the other filters |
| CourseQueries.AcceptedSearchComesLast | main.py:129-139 | an accepted search puts its predicate after those of the id filters |
| CourseQueries.TypeFilterAddsFirstCondition | main.py:129-131 | an accepted type filter prepends `courses.course_type_id = p` to the conditions and its id to the parameters |
| CourseQueries.SearchAddsLastCondition | main.py:137-139 | an accepted search appends `courses.name ILIKE p` to the conditions and `%q%` to the parameters |
| CourseQueries.WhereClause | main.py:141-142 | the WHERE part is empty exactly when there are no conditions; otherwise it starts with ` WHERE ` |
| CourseQueries.WhereIffSomeFilter | main.py:141-142 | ` WHERE ` is emitted if and only if at least one filter or the search is accepted |
| CourseQueries.FixedTextUnmarked | main.py:118-145 | the fixed text of the listing and the count contains neither `?` nor `%` |
| CourseQueries.ConditionSlots | main.py:129-139 | each condition fragment opens exactly one slot |
| CourseQueries.WhereSlots | main.py:141-142 | the WHERE part opens one slot per condition |
| CourseQueries.FetchStatement | main.py:117-145 | the listing is an error exactly for an unsupported backend; otherwise its parameters are the filter values in order, then `limit`, then `offset` |
| CourseQueries.CountStatement | main.py:152-177 | the count is an error exactly for an unsupported backend; otherwise its parameters are the filter values in order |
| CourseQueries.PageTailSlots | main.py:144-145 | the tail `PageTail` opens exactly two slots; its words open none, so the slots are the token after `LIMIT` and the token after `OFFSET` |
| CourseQueries.FetchSlotsMatchParams | main.py:117-145 | the listing's SQL text opens exactly as many slots as it has parameters |
| CourseQueries.CountSlotsMatchParams | main.py:152-177 | the count's SQL text opens exactly as many slots as it has parameters |
| CourseQueries.CountSharesFetchFilters | main.py:117-177 | the count has the same FROM/JOIN text, WHERE part and filter parameters as the listing; only the listing adds the ORDER BY/LIMIT/OFFSET tail and the limit and offset values |
| CourseQueries.FilterConditions | main.py:124-139 | the step-by-step appends produce the conditions and parameters of the selected predicates |
| CourseQueries.FetchCourses | main.py:117-145 | the text grown with `+=` is the listing statement, or the placeholder error; its slots match its parameters |
| CourseQueries.CountCourses | main.py:152-177 | the text grown with `+=` is the count statement, or the placeholder error; its slots match its parameters |
| CourseCommands.CourseByIdStatement | main.py:184-195 | an error exactly for an unsupported backend; otherwise the one parameter is the course id |
| CourseCommands.DeleteStatement | main.py:197-202 | an error exactly for an unsupported backend; otherwise the one parameter is the course id |
| CourseCommands.CreateStatement | main.py:204-212 | an error exactly for an unsupported backend; otherwise the parameters are name, description, department id and course type id |
| CourseCommands.UpdateStatement | main.py:214-223 | an error exactly for an unsupported backend; otherwise the parameters are the four new values, then the course id |
| CourseCommands.SingleRowSlotsMatchParams | main.py:184-202 | the fetch-by-id and delete statements each open exactly one slot |
| CourseCommands.CreateSlotsMatchParams | main.py:204-212 | the insert opens exactly four slots |
| CourseCommands.UpdateSlotsMatchParams | main.py:214-223 | the update opens exactly five slots |
| CourseCommands.UpdateBindsIdInWhere | main.py:214-223 | the text before the last slot ends with `WHERE id = ` and holds the other four slots; the fifth parameter is the course id |
| Pagination.TotalPages | main.py:492 | the page count is the smallest number of ten-row pages that holds every row, so it is 0 exactly when there are no rows |
| Pagination.Offset | main.py:495 | a page's first row is a multiple of ten that gives the page number back; it is non-negative exactly for pages from 1 on |
| Pagination.PrevEnabled | main.py:519 | Previous is enabled exactly when the current page starts after row 0, and then the page before has a non-negative offset |
| Pagination.NextEnabledIffRowsRemain | main.py:492-520 | for a page from 0 on, Next is enabled (page below `TotalPages(total)`) exactly when the page after it starts inside the result, that is, when rows remain after the current page |
| Pagination.OffsetStep | main.py:495 | consecutive pages start ten rows apart |
| Pagination.RowOnPage | main.py:492-495 | every row of the result lies on a page between 1 and the page count |
| Pagination.PageOfRowIsUnique | main.py:495 | no row lies on two pages |
| Pagination.PageHasRows | main.py:492-495 | a page is among the counted pages exactly when it starts inside the result |
| Pagination.NextPageHasRows | main.py:492-520 | when Next is enabled, the page it leads to starts inside the result |
| Pagination.PrevPageIsAPage | main.py:492-520 | when Previous is enabled on a counted page, the page it leads to is a page from 1 on that starts inside the result |
| Pagination.CourseManager.constructor | main.py:350-432 | the window starts on page 1 with Previous disabled; its first refresh uses no filters and the empty search and sets Next from the page count |
| Pagination.CourseManager.UpdateCourseList | main.py:484-520 | the page is kept; the count and the current page's listing (offset of the page, limit ten) are issued; Previous is enabled iff the page is above 1 and Next iff it is below the page count |
| Pagination.CourseManager.NextPage | main.py:522-524 | the page goes up by exactly one, then the list is refreshed for the new page |
| Pagination.CourseManager.PrevPage | main.py:526-528 | the page goes down by exactly one, then the list is refreshed for the new page |

## Left out

- The Qt interface is not modelled. This covers the dialogs, the widget layout, message boxes, the page label's text and the filling of the table (main.py:240-482, main.py:497-518). The table shows whatever rows the page statement returns.
- Executing statements is not modelled: `get_db_connection`, the cursors, `commit`, and the sqlite3 and psycopg2 drivers. This is I/O through foreign libraries. The row count returned by the count statement enters `UpdateCourseList`, `NextPage`, `PrevPage` and the constructor as the parameter `totalCourses`.
- What the SQL means on the server is not modelled: JOIN results, LIMIT/OFFSET slicing and foreign keys. `ILIKE` is not an SQLite operator, so the ILIKE fragment is treated as text only. No case-insensitive search is claimed.
- Backend.Slots counts marker characters. It does not model the drivers' own placeholder parsing, such as `%%` escapes or numbered `?NNN` slots. The fixed text of every statement holds no marker character, so this parsing would not change the count.
- The schema and seed scripts and the first-run bootstrap are not modelled (main.py:18-88, main.py:530-546). They are file and database I/O. This includes the misspelled `"postgrsql"` test, which keeps the PostgreSQL schema script from ever running.
- The keyword defaults of `fetch_courses` and `count_courses` are not modelled: filters `None`, `offset=0` and `limit=ITEMS_PER_PAGE` (main.py:117, main.py:152). `FetchStatement`, `CountStatement` and the methods take every argument explicitly. The only caller passes the filters and the offset and relies on the default limit, and `UpdateCourseList` passes `ItemsPerPage` for it.
- Reading `config.ini` is not modelled. The database type is an explicit `databaseType` parameter.
- `fetch_course_types` and `fetch_departments` are not modelled. They only fill the combo boxes. Their one effect on the model is the constructor's requirement that the backend is supported, because they raise otherwise.
- Filter values are limited to `None`, `"All"` and integer ids. Other Python values that reach the filters, such as other strings or booleans, are not modelled. The combo boxes pass `None` for their "All" entry, so the `"All"` branch is reached only by direct calls.
- Pagination.CourseManager.PrevPage requires the Previous button to be enabled. `prev_page` runs only on that button's click, and Qt sends no click from a disabled button.
- Errors raised by the database are not modelled. The only error path is the unsupported database type.

The model needs no integer-width caveat, because Python integers are unbounded and so are Dafny's `int`.
