/** The `api` client and its response interceptor. Every request made through `api` is
    settled by the server; a fulfilled response is handed back unchanged, a rejection
    goes to the interceptor's error handler. On a 401 the handler posts `/auth/refresh`
    THROUGH `api` (so a 401 on the refresh re-enters the same handler) and, when that
    settles, resends the original request through bare `axios`, which has no
    interceptor. When the refresh rejects, the page location becomes `/login`.

    The network is an oracle: `server(req, k)` is the reply to the `k`-th request sent
    in the session (counting from 0), so a repeated request may be answered differently.
    Re-entry of the handler is bounded by `fuel`; `Exhausted` marks a call that would
    re-enter more deeply than that. */
module AxiosConfig {
  import opened Wrappers

  /** `axios.create({ baseURL, withCredentials: true, headers: {...} })`. */
  const BaseUrl := "http://localhost:8000/api/v1"
  const DefaultHeaders: seq<(string, string)> := [("Content-Type", "application/json")]
  const LoginPath := "/login"

  /** A request configuration as axios keeps it (`error.config` is one of these). */
  datatype Request = Request(verb: string, url: string, baseUrl: string, withCredentials: bool,
                             headers: seq<(string, string)>, body: string)

  /** A request issued through `api`: the instance's defaults merged in. */
  function ApiRequest(verb: string, url: string, body: string): (r: Request)
    ensures r.baseUrl == BaseUrl && r.withCredentials && r.headers == DefaultHeaders
    ensures r.verb == verb && r.url == url && r.body == body
  {
    Request(verb, url, BaseUrl, true, DefaultHeaders, body)
  }

  /** `api.post('/auth/refresh')`: no body, no extra header; the refresh credential
      travels as a cookie. */
  const RefreshRequest := ApiRequest("POST", "/auth/refresh", "")

  /** What the server does with one request. */
  datatype Reply = Answered(status: int, data: string) | NoAnswer

  type Server = (Request, nat) -> Reply

  datatype Response = Response(status: int, data: string, config: Request)
  datatype AxiosError = AxiosError(config: Request, response: Option<Response>)

  /** How a promise for a request ends. */
  datatype Outcome = Fulfilled(response: Response) | Rejected(error: AxiosError) | Exhausted

  /** What a call leaves behind: its outcome, every request sent so far, and
      `window.location.href`. */
  datatype Trace = Trace(outcome: Outcome, sent: seq<Request>, location: string)

  /** axios's default `validateStatus`: a status in [200, 300) fulfils the promise. */
  predicate ValidStatus(status: int) {
    200 <= status < 300
  }

  /** How a bare `axios` call settles a reply. */
  function Settle(req: Request, reply: Reply): (o: Outcome)
    ensures o.Fulfilled? <==> reply.Answered? && ValidStatus(reply.status)
    ensures o.Rejected? <==> !(reply.Answered? && ValidStatus(reply.status))
    ensures o.Rejected? ==> o.error.config == req
    ensures o.Fulfilled? ==> o.response == Response(reply.status, reply.data, req)
    ensures o.Rejected? && reply.Answered? ==>
      StatusOf(o.error) == Some(reply.status) && o.error.response.value == Response(reply.status, reply.data, req)
    ensures reply.NoAnswer? ==> o.Rejected? && o.error.response == None
  {
    match reply
    case NoAnswer => Rejected(AxiosError(req, None))
    case Answered(status, data) =>
      if ValidStatus(status) then Fulfilled(Response(status, data, req))
      else Rejected(AxiosError(req, Some(Response(status, data, req))))
  }

  /** `error.response ? error.response.status : null`. */
  function StatusOf(error: AxiosError): (status: Option<int>) {
    if error.response.Some? then Some(error.response.value.status) else None
  }

  /** A request made through `api`: sent, settled, and a rejection handed to the
      interceptor. */
  function CallTrace(server: Server, req: Request, fuel: nat, sent: seq<Request>, location: string): (t: Trace)
    decreases fuel, 1
  {
    var o := Settle(req, server(req, |sent|));
    if o.Rejected? then HandlerTrace(server, o.error, fuel, sent + [req], location)
    else Trace(o, sent + [req], location)
  }

  /** The interceptor's error handler. */
  function HandlerTrace(server: Server, error: AxiosError, fuel: nat, sent: seq<Request>, location: string): (t: Trace)
    decreases fuel, 0
  {
    if StatusOf(error) != Some(401) then Trace(Rejected(error), sent, location)
    else if fuel == 0 then Trace(Exhausted, sent, location)
    else
      var refresh := CallTrace(server, RefreshRequest, fuel - 1, sent, location);
      match refresh.outcome
      case Fulfilled(_) =>
        // `return axios(error.config)`: the resend bypasses the interceptor
        Trace(Settle(error.config, server(error.config, |refresh.sent|)), refresh.sent + [error.config], refresh.location)
      case Rejected(e) => Trace(Rejected(e), refresh.sent, LoginPath)
      case Exhausted => refresh
  }

  /** The browser side of the session: the page location and the requests sent. */
  class HttpSession {
    const server: Server
    var location: string
    var sent: seq<Request>

    constructor (server: Server, location: string)
      ensures this.server == server && this.location == location && sent == []
    {
      this.server := server;
      this.location := location;
      sent := [];
    }

    /** A bare `axios(config)` call: no interceptor. */
    method Send(req: Request) returns (o: Outcome)
      modifies this
      ensures sent == old(sent) + [req] && location == old(location)
      ensures o == Settle(req, server(req, |old(sent)|))
    {
      o := Settle(req, server(req, |sent|));
      sent := sent + [req];
    }

    /** A call through `api`. */
    method Call(req: Request, fuel: nat) returns (o: Outcome)
      modifies this
      decreases fuel, 1
      ensures Trace(o, sent, location) == CallTrace(server, req, fuel, old(sent), old(location))
    {
      o := Send(req);
      if o.Rejected? {
        o := HandleError(o.error, fuel);
      }
    }

    /** The response interceptor's error handler. */
    method HandleError(error: AxiosError, fuel: nat) returns (o: Outcome)
      modifies this
      decreases fuel, 0
      ensures Trace(o, sent, location) == HandlerTrace(server, error, fuel, old(sent), old(location))
    {
      var status := StatusOf(error);
      if status != Some(401) {
        return Rejected(error);
      }
      if fuel == 0 {
        return Exhausted;
      }
      var refreshed := Call(RefreshRequest, fuel - 1);
      match refreshed
      case Fulfilled(_) =>
        o := Send(error.config);
      case Rejected(e) =>
        location := LoginPath;
        o := Rejected(e);
      case Exhausted =>
        o := Exhausted;
    }
  }

  // ----- properties of a call through `api` -----

  /** A fulfilled response is returned unchanged, after exactly one request. */
  lemma {:induction false} SuccessPassesThrough(server: Server, req: Request, fuel: nat, sent: seq<Request>,
                                                location: string)
    requires server(req, |sent|).Answered? && ValidStatus(server(req, |sent|).status)
    ensures CallTrace(server, req, fuel, sent, location) ==
      Trace(Fulfilled(Response(server(req, |sent|).status, server(req, |sent|).data, req)), sent + [req], location)
  {
  }

  /** A network failure or any error status other than 401 is rejected with the very
      error axios raised; nothing else is sent and the location stays. */
  lemma {:induction false} OtherErrorsPropagate(server: Server, req: Request, fuel: nat, sent: seq<Request>,
                                                location: string)
    requires server(req, |sent|).NoAnswer? ||
             (!ValidStatus(server(req, |sent|).status) && server(req, |sent|).status != 401)
    ensures CallTrace(server, req, fuel, sent, location) ==
      Trace(Settle(req, server(req, |sent|)), sent + [req], location)
    ensures CallTrace(server, req, fuel, sent, location).outcome.Rejected?
  {
  }

  /** On a 401 whose refresh succeeds, the sequence of requests is exactly: the original,
      one refresh, the original again; whatever the resend gets, even another 401, is
      what the caller gets, with no further refresh and no redirect. */
  lemma {:induction false} RefreshThenResend(server: Server, req: Request, fuel: nat, sent: seq<Request>,
                                             location: string)
    requires server(req, |sent|).Answered? && server(req, |sent|).status == 401
    requires fuel > 0
    requires server(RefreshRequest, |sent| + 1).Answered? && ValidStatus(server(RefreshRequest, |sent| + 1).status)
    ensures CallTrace(server, req, fuel, sent, location) ==
      Trace(Settle(req, server(req, |sent| + 2)), sent + [req, RefreshRequest, req], location)
  {
    var refresh := CallTrace(server, RefreshRequest, fuel - 1, sent + [req], location);
    assert refresh.sent == sent + [req] + [RefreshRequest];
    assert refresh.outcome.Fulfilled?;
  }

  /** On a 401 whose refresh is rejected, however that happened (its own reply failed, or
      it got a 401 and its own resend failed), the location becomes `/login` and the
      caller receives the refresh's error, not the original 401. */
  lemma {:induction false} RefreshFailureRedirects(server: Server, req: Request, fuel: nat, sent: seq<Request>,
                                                   location: string)
    requires server(req, |sent|).Answered? && server(req, |sent|).status == 401
    requires fuel > 0
    requires CallTrace(server, RefreshRequest, fuel - 1, sent + [req], location).outcome.Rejected?
    ensures var refresh := CallTrace(server, RefreshRequest, fuel - 1, sent + [req], location);
      CallTrace(server, req, fuel, sent, location) == Trace(refresh.outcome, refresh.sent, LoginPath)
  {
    var o := Settle(req, server(req, |sent|));
    assert o.Rejected? && StatusOf(o.error) == Some(401) && o.error.config == req;
  }

  /** The simplest such case: a refresh answered with neither success nor 401 ends the
      call at `/login` with the refresh's own error, after exactly two requests. */
  lemma {:induction false} RefreshErrorReplyRedirects(server: Server, req: Request, fuel: nat, sent: seq<Request>,
                                                      location: string)
    requires server(req, |sent|).Answered? && server(req, |sent|).status == 401
    requires fuel > 0
    requires var r := server(RefreshRequest, |sent| + 1); r.NoAnswer? || (!ValidStatus(r.status) && r.status != 401)
    ensures CallTrace(server, req, fuel, sent, location) ==
      Trace(Settle(RefreshRequest, server(RefreshRequest, |sent| + 1)), sent + [req, RefreshRequest], LoginPath)
  {
    var sent1 := sent + [req];
    assert |sent1| == |sent| + 1;
    var o := Settle(RefreshRequest, server(RefreshRequest, |sent1|));
    assert o.Rejected? && StatusOf(o.error) != Some(401);
    assert HandlerTrace(server, o.error, fuel - 1, sent1 + [RefreshRequest], location) ==
           Trace(o, sent1 + [RefreshRequest], location);
    var refresh := CallTrace(server, RefreshRequest, fuel - 1, sent1, location);
    assert refresh == Trace(o, sent1 + [RefreshRequest], location);
    RefreshFailureRedirects(server, req, fuel, sent, location);
    assert sent1 + [RefreshRequest] == sent + [req, RefreshRequest];
  }

  /** A call that ends fulfilled leaves the location where it was: only a rejected
      refresh redirects, and that rejection is what the caller then receives. */
  lemma {:induction false} FulfilledKeepsLocation(server: Server, req: Request, fuel: nat, sent: seq<Request>,
                                                  location: string)
    ensures var t := CallTrace(server, req, fuel, sent, location);
      t.outcome.Fulfilled? ==> t.location == location
    decreases fuel, 1
  {
    var o := Settle(req, server(req, |sent|));
    if o.Rejected? {
      HandlerFulfilledKeepsLocation(server, o.error, fuel, sent + [req], location);
    }
  }

  lemma {:induction false} HandlerFulfilledKeepsLocation(server: Server, error: AxiosError, fuel: nat,
                                                         sent: seq<Request>, location: string)
    ensures var t := HandlerTrace(server, error, fuel, sent, location);
      t.outcome.Fulfilled? ==> t.location == location
    decreases fuel, 0
  {
    if StatusOf(error) == Some(401) && fuel > 0 {
      FulfilledKeepsLocation(server, RefreshRequest, fuel - 1, sent, location);
    }
  }

  /** Nothing bounds re-entry: when the server answers every refresh with 401, a call that
      gets a 401 sends one more refresh at every level, for any depth, and never settles
      within the bound. */
  lemma {:induction false} UnboundedReentry(server: Server, req: Request, fuel: nat, sent: seq<Request>,
                                            location: string)
    requires server(req, |sent|).Answered? && server(req, |sent|).status == 401
    requires forall k: nat :: server(RefreshRequest, k).Answered? && server(RefreshRequest, k).status == 401
    ensures CallTrace(server, req, fuel, sent, location) ==
      Trace(Exhausted, sent + [req] + seq(fuel, _ => RefreshRequest), location)
    decreases fuel
  {
    if fuel > 0 {
      UnboundedReentry(server, RefreshRequest, fuel - 1, sent + [req], location);
      assert sent + [req] + [RefreshRequest] + seq(fuel - 1, _ => RefreshRequest) ==
             sent + [req] + seq(fuel, _ => RefreshRequest);
    }
  }

  /** Only two requests are ever sent on a call's behalf: the caller's own configuration,
      unchanged (no header is added), and the refresh; and the location either stays or
      becomes `/login`. */
  lemma {:induction false} CallSendsOnly(server: Server, req: Request, fuel: nat, sent: seq<Request>,
                                         location: string)
    ensures var t := CallTrace(server, req, fuel, sent, location);
      |sent| < |t.sent| && t.sent[..|sent|] == sent && t.sent[|sent|] == req &&
      (forall i | |sent| <= i < |t.sent| :: t.sent[i] == req || t.sent[i] == RefreshRequest) &&
      (t.location == location || t.location == LoginPath)
    decreases fuel, 1
  {
    var o := Settle(req, server(req, |sent|));
    if o.Rejected? {
      HandlerSendsOnly(server, o.error, fuel, sent + [req], location);
    }
  }

  lemma {:induction false} HandlerSendsOnly(server: Server, error: AxiosError, fuel: nat, sent: seq<Request>,
                                            location: string)
    ensures var t := HandlerTrace(server, error, fuel, sent, location);
      |sent| <= |t.sent| && t.sent[..|sent|] == sent &&
      (forall i | |sent| <= i < |t.sent| :: t.sent[i] == error.config || t.sent[i] == RefreshRequest) &&
      (t.location == location || t.location == LoginPath)
    decreases fuel, 0
  {
    if StatusOf(error) == Some(401) && fuel > 0 {
      CallSendsOnly(server, RefreshRequest, fuel - 1, sent, location);
    }
  }

  /** How often `r` occurs in `s`. */
  function Count(s: seq<Request>, r: Request): (n: nat) {
    multiset(s)[r]
  }

  /** The original request is sent at most twice: once, and resent at most once, however
      deeply the refresh re-enters the handler. */
  lemma {:induction false} OriginalSentAtMostTwice(server: Server, req: Request, fuel: nat, sent: seq<Request>,
                                                   location: string)
    requires req != RefreshRequest
    ensures var t := CallTrace(server, req, fuel, sent, location);
      |sent| <= |t.sent| && t.sent[..|sent|] == sent && 1 <= Count(t.sent[|sent|..], req) <= 2
  {
    CallSendsOnly(server, req, fuel, sent, location);
    var t := CallTrace(server, req, fuel, sent, location);
    var sent1 := sent + [req];
    var o := Settle(req, server(req, |sent|));
    if o.Rejected? && StatusOf(o.error) == Some(401) && fuel > 0 {
      var refresh := CallTrace(server, RefreshRequest, fuel - 1, sent1, location);
      CallSendsOnly(server, RefreshRequest, fuel - 1, sent1, location);
      var inner := refresh.sent[|sent1|..];
      NoneOf(inner, req);
      assert refresh.sent == sent1 + inner;
      var resent: seq<Request> := if refresh.outcome.Fulfilled? then [req] else [];
      assert t.sent == sent1 + inner + resent;
      TailCount(sent, req, inner, resent);
    } else {
      assert t.sent == sent1 by {
        if o.Rejected? { assert HandlerTrace(server, o.error, fuel, sent1, location).sent == sent1; }
      }
      TailCount(sent, req, [], []);
    }
  }

  /** The requests after `sent` are the original, then no copy of it, then at most one
      more copy. */
  lemma {:induction false} TailCount(sent: seq<Request>, req: Request, inner: seq<Request>, resent: seq<Request>)
    requires Count(inner, req) == 0 && (resent == [] || resent == [req])
    ensures var s := sent + [req] + inner + resent;
      s[..|sent|] == sent && 1 <= Count(s[|sent|..], req) <= 2
  {
    var s := sent + [req] + inner + resent;
    assert s[|sent|..] == [req] + inner + resent;
    assert multiset([req] + inner + resent) == multiset([req]) + multiset(inner) + multiset(resent);
  }

  /** A sequence made only of refreshes holds no other request. */
  lemma {:induction false} NoneOf(s: seq<Request>, r: Request)
    requires r != RefreshRequest
    requires forall i | 0 <= i < |s| :: s[i] == RefreshRequest
    ensures Count(s, r) == 0
  {
    assert r !in s;
    assert r !in multiset(s);
  }
}
