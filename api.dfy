/**
 * The uniform response envelope, the pagination arithmetic and the rendering of
 * validation errors (`ApiUtils`).
 */
module Api {
  import opened Wrappers
  import opened Js

  /** `{ success, data?, error?, message? }`. */
  datatype ApiResponse<T> = ApiResponse(success: bool, data: Option<T>, error: Option<string>, message: Option<string>)

  /** `ApiUtils.success`: a successful envelope carrying the data and message unchanged. */
  function Success<T>(data: T, message: Option<string>): (r: ApiResponse<T>)
    ensures r.success && r.data == Some(data) && r.message == message && r.error.None?
  {
    ApiResponse(true, Some(data), None, message)
  }

  /** `ApiUtils.error`: a failed envelope with the error and message set and no data. */
  function Error<T>(error: string, message: Option<string>): (r: ApiResponse<T>)
    ensures !r.success && r.error == Some(error) && r.message == message && r.data.None?
  {
    ApiResponse(false, None, Some(error), message)
  }

  /** The two constructors never build the same envelope. */
  lemma SuccessAndErrorDiffer<T>(data: T, error: string, m1: Option<string>, m2: Option<string>)
    ensures Success(data, m1) != Error(error, m2)
  {
  }

  // ---------------------------------------------------------------------------
  // Pagination

  /** A JavaScript number produced by `Math.ceil(total / limit)` on integers. */
  datatype PageCount = Finite(n: int) | PositiveInfinity | NegativeInfinity | NaN

  /** The least integer not below `t / l`, for a non-zero `l`. */
  function CeilDiv(t: int, l: int): (r: int)
    requires l != 0
    ensures l > 0 ==> (r - 1) * l < t <= r * l
    ensures l < 0 ==> r * l <= t < (r - 1) * l
  {
    if l > 0 then
      var q := (-t) / l;
      assert -t == q * l + (-t) % l;
      -q
    else
      var q := t / (-l);
      assert t == q * (-l) + t % (-l);
      -q
  }

  /** `Math.ceil(total / limit)`: division by zero gives an infinity, or `NaN` for `0 / 0`. */
  function TotalPages(total: int, limit: int): PageCount
  {
    if limit == 0 then
      (if total > 0 then PositiveInfinity else if total < 0 then NegativeInfinity else NaN)
    else Finite(CeilDiv(total, limit))
  }

  /** For a positive limit, the pages are just enough to hold every item, and no items means no pages. */
  lemma TotalPagesCoverTotal(total: nat, limit: nat)
    requires limit > 0
    ensures TotalPages(total, limit).Finite?
    ensures TotalPages(total, limit).n * limit >= total
    ensures total > 0 ==> (TotalPages(total, limit).n - 1) * limit < total
    ensures total == 0 ==> TotalPages(total, limit).n == 0
  {
  }

  datatype PageInfo = PageInfo(page: int, limit: int, total: int, totalPages: PageCount)
  datatype PaginatedResponse<T> = PaginatedResponse(data: seq<T>, pagination: PageInfo)

  /** `ApiUtils.paginated`: the data unchanged, the page, limit and total echoed, and the page count. */
  function Paginated<T>(data: seq<T>, page: int, limit: int, total: int): (r: PaginatedResponse<T>)
    ensures r.data == data
    ensures r.pagination.page == page && r.pagination.limit == limit && r.pagination.total == total
    ensures r.pagination.totalPages == TotalPages(total, limit)
  {
    PaginatedResponse(data, PageInfo(page, limit, total, TotalPages(total, limit)))
  }

  // ---------------------------------------------------------------------------
  // Validation error text

  /** One element of an issue path: an object key or an array index. */
  datatype PathSegment = Key(name: string) | Index(i: nat)

  /** A validation issue as the formatter sees it. */
  datatype ValidationError = ValidationError(path: seq<PathSegment>, message: string)

  function SegmentText(s: PathSegment): string {
    match s
    case Key(name) => name
    case Index(i) => NatToString(i)
  }

  function PathTexts(path: seq<PathSegment>): (r: seq<string>)
    ensures |r| == |path|
    ensures forall i :: 0 <= i < |path| ==> r[i] == SegmentText(path[i])
  {
    if path == [] then [] else PathTexts(path[..|path| - 1]) + [SegmentText(path[|path| - 1])]
  }

  /** `` `${err.path.join('.')}: ${err.message}` ``. */
  function ErrorEntry(e: ValidationError): string {
    Join(PathTexts(e.path), ".") + ": " + e.message
  }

  function Entries(errors: seq<ValidationError>): (r: seq<string>)
    ensures |r| == |errors|
    ensures forall i :: 0 <= i < |errors| ==> r[i] == ErrorEntry(errors[i])
  {
    if errors == [] then [] else Entries(errors[..|errors| - 1]) + [ErrorEntry(errors[|errors| - 1])]
  }

  /** `ApiUtils.formatValidationError`: the entries joined with ", ". */
  function FormatValidationError(errors: seq<ValidationError>): string {
    Join(Entries(errors), ", ")
  }

  /** The text is empty exactly when there are no errors (every entry holds at least ": "). */
  lemma FormatValidationErrorEmptyIff(errors: seq<ValidationError>)
    ensures FormatValidationError(errors) == "" <==> errors == []
  {
    var entries := Entries(errors);
    forall i | 0 <= i < |entries| ensures entries[i] != "" {
      assert |entries[i]| >= 2;
    }
    JoinEmptyIff(entries, ", ");
  }

  /** Appending an error appends ", " and its entry. */
  lemma {:induction false} FormatValidationErrorAppend(errors: seq<ValidationError>, e: ValidationError)
    requires errors != []
    ensures FormatValidationError(errors + [e]) == FormatValidationError(errors) + ", " + ErrorEntry(e)
  {
    var all := errors + [e];
    assert all[..|all| - 1] == errors;
    assert Entries(all) == Entries(errors) + [ErrorEntry(e)];
    assert Entries(all)[..|all| - 1] == Entries(errors);
  }

  /** A single error renders as its own entry, with no separator. */
  lemma FormatValidationErrorSingle(e: ValidationError)
    ensures FormatValidationError([e]) == ErrorEntry(e)
  {
    assert [e][..0] == [];
  }
}
