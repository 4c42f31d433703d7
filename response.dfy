/** The response envelopes every route answers with: success, error and
    paginated. Numbers are integers here; the page count is a JavaScript
    number, which is infinite or NaN when the limit is zero. */
module Responses {
  import opened Common

  datatype ApiResponse<T> = ApiResponse(success: bool, data: Option<T>, message: string, error: Option<string>)

  /** What `errorResponse` is given: a string, or an `Error` object. */
  datatype Failure = Text(text: string) | Thrown(errorMessage: string)

  /** A JavaScript number as the page count can come out. */
  datatype JsNumber = Finite(n: int) | Infinity | NegativeInfinity | NotANumber

  datatype Pagination = Pagination(page: int, limit: int, total: int, totalPages: JsNumber)

  datatype PaginatedResponse<T> = PaginatedResponse(success: bool, data: seq<T>, message: string, pagination: Pagination)

  const DefaultSuccessMessage := "Operation successful"
  const DefaultListMessage := "Data retrieved successfully"

  /** `message || fallback`. */
  function MessageOr(message: Option<string>, fallback: string): (r: string)
    ensures Truthy(message) ==> r == message.value
    ensures !Truthy(message) ==> r == fallback
    ensures fallback != "" ==> r != ""
  {
    if Truthy(message) then message.value else fallback
  }

  function SuccessResponse<T>(data: T, message: Option<string>): (r: ApiResponse<T>)
    ensures r.success && r.data == Some(data) && r.error.None?
    ensures r.message != ""
    ensures Truthy(message) ==> r.message == message.value
    ensures !Truthy(message) ==> r.message == DefaultSuccessMessage
  {
    ApiResponse(true, Some(data), MessageOr(message, DefaultSuccessMessage), None)
  }

  function FailureText(failure: Failure): string {
    match failure
    case Text(t) => t
    case Thrown(m) => m
  }

  /** `errorResponse`: the error text is both the error and the message; the
      status code is accepted and not used. */
  function ErrorResponse<T>(failure: Failure, statusCode: Option<int>): (r: ApiResponse<T>)
    ensures !r.success && r.data.None?
    ensures r.error == Some(r.message)
    ensures failure.Text? ==> r.message == failure.text
    ensures failure.Thrown? ==> r.message == failure.errorMessage
  {
    ApiResponse(false, None, FailureText(failure), Some(FailureText(failure)))
  }

  /** The status code does not change the envelope. */
  lemma StatusCodeIgnored<T>(failure: Failure, a: Option<int>, b: Option<int>)
    ensures ErrorResponse<T>(failure, a) == ErrorResponse<T>(failure, b)
  {
  }

  /** `Math.ceil(a / b)` for `b != 0`, over the integers. */
  function CeilDiv(a: int, b: int): (r: int)
    requires b != 0
    ensures b > 0 ==> b * (r - 1) < a <= b * r
    ensures b < 0 ==> b * r <= a < b * (r - 1)
  {
    if b > 0 then
      var q := (-a) / b;
      assert b * q <= -a < b * (q + 1);
      -q
    else
      var q := a / (-b);
      assert (-b) * q <= a < (-b) * (q + 1);
      -q
  }

  /** `Math.ceil(total / limit)`: a zero limit divides to an infinity, or
      to NaN when the total is zero too. */
  function TotalPages(total: int, limit: int): (r: JsNumber)
    ensures limit != 0 <==> r.Finite?
    ensures limit > 0 ==> limit * (r.n - 1) < total <= limit * r.n
    ensures limit == 0 ==> (r == Infinity <==> total > 0) && (r == NotANumber <==> total == 0)
                           && (r == NegativeInfinity <==> total < 0)
  {
    if limit != 0 then Finite(CeilDiv(total, limit))
    else if total > 0 then Infinity
    else if total < 0 then NegativeInfinity
    else NotANumber
  }

  /** With a positive limit, the page count is the least number of pages of
      `limit` items that hold `total` items. */
  lemma {:induction false} TotalPagesIsLeast(total: int, limit: int, pages: int)
    requires limit > 0 && limit * pages >= total
    ensures TotalPages(total, limit).Finite? && TotalPages(total, limit).n <= pages
  {
    var r := TotalPages(total, limit).n;
    if r > pages {
      assert limit * (r - 1) >= limit * pages by {
        MultiplyMonotone(limit, pages, r - 1);
      }
    }
  }

  lemma MultiplyMonotone(k: int, a: int, b: int)
    requires k > 0 && a <= b
    ensures k * a <= k * b
  {
  }

  /** No items make no pages; a positive total makes at least one. */
  lemma PageCountBounds(total: int, limit: int)
    requires limit > 0 && total >= 0
    ensures total == 0 <==> TotalPages(total, limit) == Finite(0)
    ensures total > 0 ==> TotalPages(total, limit).n >= 1
  {
  }

  function PaginatedResponseOf<T>(data: seq<T>, page: int, limit: int, total: int, message: Option<string>): (r: PaginatedResponse<T>)
    ensures r.success && r.data == data && r.message != ""
    ensures !Truthy(message) ==> r.message == DefaultListMessage
    ensures Truthy(message) ==> r.message == message.value
    ensures r.pagination.page == page && r.pagination.limit == limit && r.pagination.total == total
    ensures r.pagination.totalPages == TotalPages(total, limit)
  {
    PaginatedResponse(true, data, MessageOr(message, DefaultListMessage), Pagination(page, limit, total, TotalPages(total, limit)))
  }
}
