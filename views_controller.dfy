/** `viewsController`: the `alerts` middleware and the `paginateData`
    helper of the rendered pages. */
module ViewsController {
  import opened Js
  import opened Express
  import opened Listing

  const BookingAlert := "Your booking was successful! Please check your email for a confirmation. If your booking doesn't show up here immediatly, please come back later."

  /** `alerts`: sets `res.locals.alert` for `?alert=booking` only, then
      always calls `next()`. */
  method Alerts(ex: Exchange, alert: Option<string>)
    modifies ex
    ensures alert == Some("booking") ==> ex.locals == old(ex.locals).(alert := Some(BookingAlert))
    ensures alert != Some("booking") ==> ex.locals == old(ex.locals)
    ensures ex.nexts == old(ex.nexts) + [Proceed]
    ensures ex.reqUser == old(ex.reqUser) && ex.paramsId == old(ex.paramsId)
    ensures ex.reply == old(ex.reply) && ex.cookies == old(ex.cookies)
  {
    if alert == Some("booking") {
      ex.locals := ex.locals.(alert := Some(BookingAlert));
    }
    ex.Next(Proceed);
  }

  /** `{ totalPages, currentPage, limit }`. `totalPages` is None where
      `Math.ceil(totalResults / 0)` is not a finite number (Infinity or NaN). */
  datatype PageInfo = PageInfo(totalPages: Option<int>, currentPage: int, limit: int)

  function PaginateData(totalResults: nat, currentPage: int, limit: int): (r: PageInfo)
    ensures r.currentPage == currentPage && r.limit == limit
    ensures r.totalPages.None? <==> limit == 0
    ensures limit > 0 ==> (r.totalPages.value - 1) * limit < totalResults <= r.totalPages.value * limit
    ensures limit > 0 && totalResults == 0 ==> r.totalPages == Some(0)
  {
    PageInfo(if limit == 0 then None else Some(CeilDiv(totalResults, limit)), currentPage, limit)
  }

  /** With a positive limit, `totalPages` is the fewest pages of `limit`
      results that hold all `totalResults`. */
  lemma TotalPagesIsFewest(totalResults: nat, currentPage: int, limit: int, n: int)
    requires limit > 0 && n * limit >= totalResults
    ensures PaginateData(totalResults, currentPage, limit).totalPages.value <= n
  {
    var t := PaginateData(totalResults, currentPage, limit).totalPages.value;
    if n < t {
      MulMonotone(n, t - 1, limit);
    }
  }
}
