/** The part of Express the controllers touch: one request/response exchange.
    A response can be sent once; a second `res.status(..).json(..)` and a
    `res.cookie(..)` after the headers went out both throw
    `ERR_HTTP_HEADERS_SENT`. Errors thrown inside a handler wrapped by
    `catchAsync` reach `next` as a non-operational error. */
module Express {
  import opened Js
  import opened Crypto
  import opened UserModel
  import opened ClientModel

  /** `new AppError(message, statusCode)`: an operational error. */
  datatype AppError = AppError(message: string, statusCode: int)

  /** What a handler passed to `next`. `Rethrown` is an exception that
      `catchAsync` forwarded (a TypeError, `ERR_HTTP_HEADERS_SENT`, a
      failed save). */
  datatype NextCall = Proceed | Fail(error: AppError) | Rethrown

  /** Response bodies. `Messag` is the misspelled `messag` key of `logout`
      and `protect`; `Issued` is `{ status: 'success', token, user }`;
      `Note` is a bare `{ message }`; `Caught` is
      `{ status: 'error', message: err.message }` for a caught exception,
      whose message the model does not track; `UserData` and `ClientData`
      are `{ status: 'success', data: { user } }` and its client twin;
      `Redirect` is `res.redirect(location)`. */
  datatype Body =
    | Message(status: string, message: string)
    | Messag(status: string, messag: string)
    | Issued(token: string, user: UserRecord)
    | Note(message: string)
    | Caught
    | UserData(updated: Option<UserRecord>)
    | ClientData(client: Option<ClientRecord>)
    | Redirect(location: string)

  datatype Reply = Reply(code: int, body: Body)

  datatype CookieOp = SetCookie(name: string, value: string) | ClearCookie(name: string)

  /** `res.locals`. */
  datatype Locals = Locals(user: Option<UserRecord>, token: Option<string>, alert: Option<string>)

  class Exchange {
    /** `req.headers.authorization`. */
    const authorization: Option<string>
    /** `req.cookies.jwt`. */
    const cookieJwt: Option<string>
    var reqUser: Option<UserRecord>
    var paramsId: Option<UserId>
    var locals: Locals
    var reply: Option<Reply>
    var cookies: seq<CookieOp>
    var nexts: seq<NextCall>

    constructor (authorization: Option<string>, cookieJwt: Option<string>)
      ensures this.authorization == authorization && this.cookieJwt == cookieJwt
      ensures reqUser.None? && paramsId.None? && locals == Locals(None, None, None)
      ensures reply.None? && cookies == [] && nexts == []
    {
      this.authorization := authorization;
      this.cookieJwt := cookieJwt;
      reqUser, paramsId, locals := None, None, Locals(None, None, None);
      reply, cookies, nexts := None, [], [];
    }

    /** `res.status(code).json(body)`; `threw` when a response was already sent. */
    method Send(r: Reply) returns (threw: bool)
      modifies this
      ensures threw <==> old(reply).Some?
      ensures reply == if threw then old(reply) else Some(r)
      ensures reqUser == old(reqUser) && paramsId == old(paramsId) && locals == old(locals)
      ensures cookies == old(cookies) && nexts == old(nexts)
    {
      threw := reply.Some?;
      if !threw {
        reply := Some(r);
      }
    }

    /** `res.cookie(..)` / `res.clearCookie(..)`; `threw` after the headers were sent. */
    method Cookie(op: CookieOp) returns (threw: bool)
      modifies this
      ensures threw <==> old(reply).Some?
      ensures cookies == if threw then old(cookies) else old(cookies) + [op]
      ensures reqUser == old(reqUser) && paramsId == old(paramsId) && locals == old(locals)
      ensures reply == old(reply) && nexts == old(nexts)
    {
      threw := reply.Some?;
      if !threw {
        cookies := cookies + [op];
      }
    }

    /** `next(..)`, or `catchAsync` forwarding a rejection. */
    method Next(n: NextCall)
      modifies this
      ensures nexts == old(nexts) + [n]
      ensures reqUser == old(reqUser) && paramsId == old(paramsId) && locals == old(locals)
      ensures reply == old(reply) && cookies == old(cookies)
    {
      nexts := nexts + [n];
    }
  }
}
