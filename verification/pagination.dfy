/**
 * Paging of the course list in the main window: how many pages a row count
 * makes, which rows a page shows, and the page number and Previous/Next
 * buttons that `CourseManager` keeps between refreshes.
 */
module Pagination {
  import opened Outcomes
  import opened Backend
  import opened CourseQueries

  /** Rows shown per page. */
  const ItemsPerPage: nat := 10

  /** `total_pages`: the ceiling of `total / ItemsPerPage`, the fewest pages that hold every row. */
  function TotalPages(total: nat): (r: nat)
    ensures (r - 1) * ItemsPerPage < total <= r * ItemsPerPage
    ensures r == 0 <==> total == 0
  {
    (total + ItemsPerPage - 1) / ItemsPerPage
  }

  /** The first row of a page, counting pages from 1. */
  function Offset(page: int): (r: int)
    ensures r % ItemsPerPage == 0 && r / ItemsPerPage + 1 == page
    ensures r >= 0 <==> page >= 1
  {
    (page - 1) * ItemsPerPage
  }

  /** Consecutive pages start `ItemsPerPage` rows apart. */
  lemma OffsetStep(page: int)
    ensures Offset(page + 1) == Offset(page) + ItemsPerPage
  {
  }

  /** The condition the Previous button is enabled under: the current page does not start at row 0. */
  predicate PrevEnabled(page: int): (r: bool)
    ensures r <==> Offset(page) > 0
    ensures r ==> Offset(page - 1) >= 0
  {
    page > 1
  }

  /** The condition the Next button is enabled under: the page after is among the counted pages. */
  predicate NextEnabled(page: int, totalPages: int): (r: bool)
    ensures r <==> page + 1 <= totalPages
  {
    page < totalPages
  }

  /** Every row of the result lies on exactly one page, and that page is one the label counts. */
  lemma RowOnPage(total: nat, k: int)
    requires 0 <= k < total
    ensures var page := k / ItemsPerPage + 1;
            1 <= page <= TotalPages(total) && Offset(page) <= k < Offset(page) + ItemsPerPage
  {
  }

  /** Pages do not overlap: a row between a page's offset and the next one belongs to that page only. */
  lemma PageOfRowIsUnique(k: int, page1: int, page2: int)
    requires Offset(page1) <= k < Offset(page1) + ItemsPerPage
    requires Offset(page2) <= k < Offset(page2) + ItemsPerPage
    ensures page1 == page2
  {
  }

  /** A page is among the `TotalPages` pages exactly when its offset falls inside the result. */
  lemma PageHasRows(page: int, total: nat)
    ensures 1 <= page <= TotalPages(total) <==> 1 <= page && Offset(page) < total
  {
  }

  /**
   * With the same count on both sides, Next is enabled exactly when rows
   * remain after the current page: the page after it starts inside the result.
   */
  lemma NextEnabledIffRowsRemain(page: int, total: nat)
    requires 0 <= page
    ensures NextEnabled(page, TotalPages(total)) <==> Offset(page + 1) < total
  {
    PageHasRows(page + 1, total);
  }

  /**
   * When Next is enabled, the page it leads to holds at least one row, as
   * long as the refresh after the click counts the same total.
   */
  lemma NextPageHasRows(page: int, total: nat)
    requires 1 <= page && NextEnabled(page, TotalPages(total))
    ensures 0 <= Offset(page + 1) < total
  {
    PageHasRows(page + 1, total);
  }

  /**
   * When Previous is enabled on a counted page, the page it leads to is a
   * page from 1 on that holds at least one row, as long as the refresh after
   * the click counts the same total.
   */
  lemma PrevPageIsAPage(page: int, total: nat)
    requires PrevEnabled(page) && page <= TotalPages(total)
    ensures 1 <= page - 1 && 0 <= Offset(page - 1) < total
  {
    PageHasRows(page - 1, total);
  }

  /**
   * The main window, reduced to its paging state. The two statements are
   * the ones the most recent refresh sent to the database; the window
   * itself only keeps the rows they return.
   */
  class CourseManager {
    const databaseType: string
    var currentPage: int
    var prevEnabled: bool
    var nextEnabled: bool
    var lastCount: Statement
    var lastPage: Statement

    /** The backend is one the window can talk to and the page number is a real page. */
    predicate Ready()
      reads this
    {
      Supported(databaseType) && 1 <= currentPage
    }

    /** Ready, and the Previous button agrees with the page number. */
    predicate Valid()
      reads this
    {
      Ready() && prevEnabled == PrevEnabled(currentPage)
    }

    /**
     * `__init__`: page 1, Previous disabled, then a first refresh with the
     * filters the widgets start with (no type, no department, empty search).
     * The backend must be supported, because opening the connection and
     * filling the combo boxes raise otherwise.
     */
    constructor (databaseType: string, totalCourses: nat)
      requires Supported(databaseType)
      ensures Valid() && this.databaseType == databaseType
      ensures currentPage == 1 && !prevEnabled
      ensures nextEnabled == NextEnabled(1, TotalPages(totalCourses))
      ensures lastCount == CountStatement(databaseType, Unset, Unset, Some("")).value
      ensures lastPage == FetchStatement(databaseType, Unset, Unset, Some(""), 0, ItemsPerPage).value
    {
      this.databaseType := databaseType;
      currentPage := 1;
      prevEnabled := false;
      nextEnabled := true;
      lastCount := Statement("", []);
      lastPage := Statement("", []);
      new;
      UpdateCourseList(Unset, Unset, Some(""), totalCourses);
    }

    /**
     * `update_course_list`: counts the matching courses, fetches the current
     * page and sets both buttons. `totalCourses` is the number the count
     * statement returns.
     */
    method UpdateCourseList(filterType: Filter, filterDepartment: Filter, search: Option<string>,
                            totalCourses: nat)
      requires Ready()
      modifies this
      ensures Valid() && currentPage == old(currentPage)
      ensures prevEnabled == PrevEnabled(currentPage)
      ensures nextEnabled == NextEnabled(currentPage, TotalPages(totalCourses))
      ensures lastCount == CountStatement(databaseType, filterType, filterDepartment, search).value
      ensures lastPage == FetchStatement(databaseType, filterType, filterDepartment, search,
                                         Offset(currentPage), ItemsPerPage).value
      ensures Slots(lastPage.sql, Placeholder(databaseType).value) == |lastPage.params|
    {
      var counted := CountCourses(databaseType, filterType, filterDepartment, search);
      var totalPages := TotalPages(totalCourses);
      var offset := Offset(currentPage);
      var fetched := FetchCourses(databaseType, filterType, filterDepartment, search, offset, ItemsPerPage);
      lastCount := counted.value;
      lastPage := fetched.value;
      prevEnabled := currentPage > 1;
      nextEnabled := currentPage < totalPages;
    }

    /** `next_page`: one page forward, then a refresh. */
    method NextPage(filterType: Filter, filterDepartment: Filter, search: Option<string>, totalCourses: nat)
      requires Valid()
      modifies this
      ensures Valid() && currentPage == old(currentPage) + 1 && prevEnabled
      ensures nextEnabled == NextEnabled(currentPage, TotalPages(totalCourses))
      ensures lastCount == CountStatement(databaseType, filterType, filterDepartment, search).value
      ensures Offset(currentPage) == old(Offset(currentPage)) + ItemsPerPage
      ensures lastPage == FetchStatement(databaseType, filterType, filterDepartment, search,
                                         Offset(currentPage), ItemsPerPage).value
    {
      OffsetStep(currentPage);
      currentPage := currentPage + 1;
      UpdateCourseList(filterType, filterDepartment, search, totalCourses);
    }

    /**
     * `prev_page`: one page back, then a refresh. The slot runs only on a
     * click, and a disabled button sends none, so Previous is enabled.
     */
    method PrevPage(filterType: Filter, filterDepartment: Filter, search: Option<string>, totalCourses: nat)
      requires Valid() && prevEnabled
      modifies this
      ensures Valid() && currentPage == old(currentPage) - 1
      ensures nextEnabled == NextEnabled(currentPage, TotalPages(totalCourses))
      ensures lastCount == CountStatement(databaseType, filterType, filterDepartment, search).value
      ensures Offset(currentPage) == old(Offset(currentPage)) - ItemsPerPage
      ensures lastPage == FetchStatement(databaseType, filterType, filterDepartment, search,
                                         Offset(currentPage), ItemsPerPage).value
    {
      OffsetStep(currentPage - 1);
      currentPage := currentPage - 1;
      UpdateCourseList(filterType, filterDepartment, search, totalCourses);
    }
  }
}
