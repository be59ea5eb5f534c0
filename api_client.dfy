/** The REST client of frontend/js/api_client.js: the `APIClient` class (session token
    mirrored into local storage, the generic `request`, `login`, `logout`, `uploadEvidence`
    and the named passthroughs) and `getStatusClass`.
    The network is an input: each call receives the outcome `fetch` and `response.json()`
    would have produced. */
module ApiClient {
  import opened Wrappers
  import opened Text
  import opened Page
  import Upload

  const BaseURL := "http://localhost:5000/api"
  /** The local-storage key of the session token. */
  const TokenKey := "token"
  const ContentType := "Content-Type"
  const Authorization := "Authorization"
  const JsonMime := "application/json"
  /** The error message used when a failed reply carries no message. */
  const FallbackMessage := "Something went wrong"

  /** A JavaScript object sent as a JSON body; its contents are opaque to the client. */
  type Fields = seq<(string, string)>

  /** A parsed JSON reply: the two fields the client reads, and the rest. */
  datatype Payload = Payload(message: Option<string>, token: Option<string>, rest: Fields)

  /** What `response.json()` gives: an object, `null`, or the error it throws. Reading a
      property of `null` throws a TypeError; `typeError` is its message. */
  datatype Body = Json(payload: Payload) | JsonNull(typeError: string) | Malformed(error: string)

  /** A value a call resolves to: a reply object, or `None` for a `null` reply. */
  type Reply = Option<Payload>

  /** What `fetch` gives: a rejection (no reply), or a reply with its `ok` flag and body. */
  datatype FetchOutcome = Unreachable(error: string) | Received(ok: bool, body: Body)

  datatype RequestBody = JsonText(data: Fields) | Multipart(evidence: seq<Upload.File>)

  /** The arguments of one `fetch(url, options)`. */
  datatype HttpRequest = HttpRequest(
    url: string, verb: string, headers: map<string, string>, body: Option<RequestBody>)

  /** JavaScript truthiness of a string that may be `null`. */
  predicate Truthy(s: Option<string>)
  {
    s.Some? && s.value != []
  }

  /** `${token}` in a template string: `null` is spelled out. */
  function TokenText(token: Option<string>): string
  {
    if token.Some? then token.value else "null"
  }

  /** The token `localStorage.getItem('token')` returns. */
  function StoredToken(store: map<string, string>): Option<string>
  {
    if TokenKey in store then Some(store[TokenKey]) else None
  }

  // ---------------------------------------------------------------------------------------
  // Outcomes of a call
  // ---------------------------------------------------------------------------------------

  /** How `request` settles: a rejected fetch or an unparsable body rethrows that error; a
      reply that is not ok throws its message, or the fallback (a `null` reply throws the
      TypeError of reading `null.message`); an ok reply is returned. */
  function Settle(reply: FetchOutcome): Result<Reply>
  {
    match reply
    case Unreachable(e) => Err(e)
    case Received(_, Malformed(e)) => Err(e)
    case Received(ok, JsonNull(t)) => if !ok then Err(t) else Ok(None)
    case Received(ok, Json(p)) =>
      if !ok then Err(if Truthy(p.message) then p.message.value else FallbackMessage)
      else Ok(Some(p))
  }

  /** How `uploadEvidence` settles: like `request`, but the `ok` flag is never looked at. */
  function SettleUnchecked(reply: FetchOutcome): Result<Reply>
  {
    match reply
    case Unreachable(e) => Err(e)
    case Received(_, Malformed(e)) => Err(e)
    case Received(_, JsonNull(_)) => Ok(None)
    case Received(_, Json(p)) => Ok(Some(p))
  }

  /** How `login` settles: like `request`, except that an ok `null` reply makes `data.token`
      throw after `request` has returned, so outside the loader and without a toast. */
  function SettleLogin(reply: FetchOutcome): Result<Reply>
  {
    if reply.Received? && reply.ok && reply.body.JsonNull? then Err(reply.body.typeError)
    else Settle(reply)
  }

  /** A call succeeds exactly on an ok, parsable reply, and then returns the reply unchanged.
      A reply that is not ok always fails with a non-empty message: the server's when it has
      one, the fallback otherwise. */
  lemma SettleCases(reply: FetchOutcome)
    ensures Settle(reply).Ok? <==> reply.Received? && reply.ok && !reply.body.Malformed?
    ensures Settle(reply).Ok? ==>
      Settle(reply).value == (if reply.body.Json? then Some(reply.body.payload) else None)
    ensures reply.Received? && !reply.ok && reply.body.Json? ==>
      Settle(reply).Err? && Settle(reply).error != [] &&
      Settle(reply).error == (if Truthy(reply.body.payload.message)
                              then reply.body.payload.message.value else FallbackMessage)
    ensures reply.Received? && !reply.ok && reply.body.JsonNull? ==>
      Settle(reply) == Err(reply.body.typeError)
    ensures reply.Received? && reply.body.Malformed? ==> Settle(reply) == Err(reply.body.error)
  {
  }

  /** The upload path returns a reply that is not ok instead of raising it, and otherwise
      agrees with `request`. */
  lemma SettleUncheckedAgrees(reply: FetchOutcome)
    ensures Settle(reply).Ok? ==> SettleUnchecked(reply) == Settle(reply)
    ensures SettleUnchecked(reply).Err? <==>
      Settle(reply).Err? && !(reply.Received? && !reply.body.Malformed?)
    ensures reply.Received? && reply.body.Json? ==> SettleUnchecked(reply) == Ok(Some(reply.body.payload))
    ensures reply.Received? && reply.body.JsonNull? ==> SettleUnchecked(reply) == Ok(None)
  {
  }

  /** `login` fails exactly when `request` fails or the reply is `null`; only a failure of
      `request` raises a toast, and a successful login always has a reply object. */
  lemma SettleLoginCases(reply: FetchOutcome)
    ensures SettleLogin(reply).Ok? <==> Settle(reply).Ok? && Settle(reply).value.Some?
    ensures SettleLogin(reply).Ok? ==> SettleLogin(reply) == Settle(reply)
    ensures Settle(reply).Err? ==> SettleLogin(reply) == Settle(reply)
    ensures reply.Received? && reply.ok && reply.body.JsonNull? ==>
      SettleLogin(reply) == Err(reply.body.typeError) && ToastCount(Bracket(Settle(reply))) == 0
  {
    BracketDiscipline(Settle(reply), 0);
  }

  /** The page events of one call: the loader is shown, a failure is announced by one error
      toast carrying its message, and the loader is hidden. */
  function Bracket(r: Result<Reply>): seq<UiEvent>
  {
    [LoaderShown] + (if r.Err? then [Toasted(r.error, Error)] else []) + [LoaderHidden]
  }

  /** On every exit path the loader is shown once, first, and hidden once, last; the overlay
      count is back where it was; exactly the failures raise a toast. */
  lemma BracketDiscipline(r: Result<Reply>, overlays: nat)
    ensures Bracket(r)[0] == LoaderShown && Bracket(r)[|Bracket(r)| - 1] == LoaderHidden
    ensures Occurrences(Bracket(r), LoaderShown) == 1
    ensures Occurrences(Bracket(r), LoaderHidden) == 1
    ensures ToastCount(Bracket(r)) == (if r.Err? then 1 else 0)
    ensures Overlays(overlays, Bracket(r)) == overlays
  {
    var b := Bracket(r);
    var shown := [LoaderShown];
    assert shown == [] + [LoaderShown];
    CountsAppend([], LoaderShown, overlays);
    if r.Err? {
      var toasted := shown + [Toasted(r.error, Error)];
      CountsAppend(shown, Toasted(r.error, Error), overlays);
      CountsAppend(toasted, LoaderHidden, overlays);
      assert b == toasted + [LoaderHidden];
    } else {
      CountsAppend(shown, LoaderHidden, overlays);
      assert b == shown + [LoaderHidden];
    }
  }

  /** The headers and body of a JSON `request` issued while holding `token`. */
  ghost predicate IsJsonRequest(
    req: HttpRequest, url: string, verb: string, token: Option<string>, data: Option<Fields>)
  {
    && req.url == url
    && req.verb == verb
    && req.headers.Keys == (if Truthy(token) then {ContentType, Authorization} else {ContentType})
    && req.headers[ContentType] == JsonMime
    && (Truthy(token) ==> req.headers[Authorization] == "Bearer " + token.value)
    && req.body == (if data.Some? then Some(JsonText(data.value)) else None)
  }

  // ---------------------------------------------------------------------------------------
  // Endpoints
  // ---------------------------------------------------------------------------------------

  const LoginPath := "/auth/login"

  function ComplaintPath(id: string): string { "/complaints/" + id }
  function EvidencePath(complaintId: string): string { "/complaints/" + complaintId + "/evidence" }
  function CasePath(caseId: string): string { "/cases/" + caseId }
  function TrackPath(caseId: string): string { "/cases/" + caseId + "/track" }
  function AssignPath(caseId: string): string { "/admin/cases/" + caseId + "/assign" }
  function MonthlyReportPath(month: string, year: string): string
  {
    "/admin/reports/monthly?month=" + month + "&year=" + year
  }

  lemma AffixInjective(prefix: string, a: string, b: string, suffix: string)
    requires prefix + a + suffix == prefix + b + suffix
    ensures a == b
  {
    var sa, sb := prefix + a + suffix, prefix + b + suffix;
    assert |a| == |b|;
    forall k | 0 <= k < |a| ensures a[k] == b[k] {
      assert a[k] == sa[|prefix| + k];
      assert b[k] == sb[|prefix| + k];
    }
  }

  /** Each path builder tells its identifiers apart. */
  lemma PathsInjective(a: string, b: string)
    ensures ComplaintPath(a) == ComplaintPath(b) ==> a == b
    ensures EvidencePath(a) == EvidencePath(b) ==> a == b
    ensures CasePath(a) == CasePath(b) ==> a == b
    ensures TrackPath(a) == TrackPath(b) ==> a == b
    ensures AssignPath(a) == AssignPath(b) ==> a == b
  {
    if ComplaintPath(a) == ComplaintPath(b) {
      assert "/complaints/" + a + "" == "/complaints/" + b + "";
      AffixInjective("/complaints/", a, b, "");
    }
    if EvidencePath(a) == EvidencePath(b) { AffixInjective("/complaints/", a, b, "/evidence"); }
    if CasePath(a) == CasePath(b) {
      assert "/cases/" + a + "" == "/cases/" + b + "";
      AffixInjective("/cases/", a, b, "");
    }
    if TrackPath(a) == TrackPath(b) { AffixInjective("/cases/", a, b, "/track"); }
    if AssignPath(a) == AssignPath(b) { AffixInjective("/admin/cases/", a, b, "/assign"); }
  }

  /** The named passthroughs of `APIClient` that add nothing to `request`. */
  datatype Call =
    | Register(userData: Fields)
    | FileComplaint(complaintData: Fields)
    | GetMyComplaints
    | GetComplaintById(id: string)
    | TrackCase(caseId: string)
    | GetCaseDetails(caseId: string)
    | AnalyzeComplaint(text: string)
    | GetCrimePrediction(text: string)
    | GetProfile
    | UpdateProfile(profileData: Fields)
    | GetDashboardStats
    | GetRecentComplaints
    | GetAllComplaints
    | AssignOfficer(caseId: string, officerId: string)
    | GetMonthlyReport(month: string, year: string)
    | GetCrimeTrends

  /** The arguments a passthrough gives to `request(endpoint, method, data)`. */
  datatype Route = Route(endpoint: string, verb: string, data: Option<Fields>)

  function RouteOf(call: Call): Route
  {
    match call
    case Register(userData) => Route("/auth/register", "POST", Some(userData))
    case FileComplaint(complaintData) => Route("/complaints", "POST", Some(complaintData))
    case GetMyComplaints => Route("/complaints/my", "GET", None)
    case GetComplaintById(id) => Route(ComplaintPath(id), "GET", None)
    case TrackCase(caseId) => Route(TrackPath(caseId), "GET", None)
    case GetCaseDetails(caseId) => Route(CasePath(caseId), "GET", None)
    case AnalyzeComplaint(text) => Route("/ai/analyze", "POST", Some([("text", text)]))
    case GetCrimePrediction(text) => Route("/ai/predict", "POST", Some([("text", text)]))
    case GetProfile => Route("/user/profile", "GET", None)
    case UpdateProfile(profileData) => Route("/user/profile", "PUT", Some(profileData))
    case GetDashboardStats => Route("/dashboard/stats", "GET", None)
    case GetRecentComplaints => Route("/dashboard/recent", "GET", None)
    case GetAllComplaints => Route("/admin/complaints", "GET", None)
    case AssignOfficer(caseId, officerId) =>
      Route(AssignPath(caseId), "POST", Some([("officerId", officerId)]))
    case GetMonthlyReport(month, year) => Route(MonthlyReportPath(month, year), "GET", None)
    case GetCrimeTrends => Route("/admin/reports/trends", "GET", None)
  }

  /** The GET passthroughs are exactly those that send no body; every endpoint is absolute. */
  lemma RouteShape(call: Call)
    ensures RouteOf(call).verb == "GET" <==> RouteOf(call).data.None?
    ensures RouteOf(call).verb in {"GET", "POST", "PUT"}
    ensures StartsWith(RouteOf(call).endpoint, "/")
  {
  }

  /** Identifiers are inserted into paths unescaped: the complaint id "my" names the list of
      one's own complaints. */
  lemma ComplaintIdCollides()
    ensures RouteOf(GetComplaintById("my")) == RouteOf(GetMyComplaints)
  {
  }

  // ---------------------------------------------------------------------------------------
  // getStatusClass
  // ---------------------------------------------------------------------------------------

  /** `getStatusClass(status)`: the badge class of a case status, compared lower-cased. */
  function StatusClass(status: string): string
  {
    var s := ToLower(status);
    if s == "in progress" then "warning"
    else if s == "resolved" then "success"
    else if s == "escalated" then "danger"
    else if s == "assigned" then "info"
    else "warning"
  }

  /** Each badge class in terms of the lower-cased status. */
  lemma StatusClassIff(status: string)
    ensures StatusClass(status) == "success" <==> ToLower(status) == "resolved"
    ensures StatusClass(status) == "danger" <==> ToLower(status) == "escalated"
    ensures StatusClass(status) == "info" <==> ToLower(status) == "assigned"
    ensures StatusClass(status) == "warning" <==>
      ToLower(status) != "resolved" && ToLower(status) != "escalated" && ToLower(status) != "assigned"
  {
  }

  /** The letter case of a status does not matter. */
  lemma StatusClassIgnoresCase(status: string)
    ensures StatusClass(ToLower(status)) == StatusClass(status)
  {
    ToLowerIdempotent(status);
  }

  // ---------------------------------------------------------------------------------------
  // The client
  // ---------------------------------------------------------------------------------------

  class APIClient {
    const baseURL: string
    /** The page whose loader and toasts the client drives. */
    const page: Page
    var token: Option<string>
    /** `localStorage`, as a string map. */
    var store: map<string, string>
    /** Every `fetch` issued, oldest first. */
    var sent: seq<HttpRequest>

    /** The token field mirrors the stored token. */
    ghost predicate Synced()
      reads this
    {
      token == StoredToken(store)
    }

    /** `new APIClient()`: reads the stored token. */
    constructor (storage: map<string, string>, page: Page)
      ensures baseURL == BaseURL && this.page == page
      ensures store == storage && token == StoredToken(storage) && sent == []
      ensures Synced()
    {
      baseURL := BaseURL;
      this.page := page;
      store := storage;
      token := if TokenKey in storage then Some(storage[TokenKey]) else None;
      sent := [];
    }

    /** `setToken(token)` */
    method SetToken(t: string)
      modifies this`token, this`store
      ensures token == Some(t) && store == old(store)[TokenKey := t]
      ensures Synced()
    {
      token := Some(t);
      store := store[TokenKey := t];
    }

    /** `clearToken()` */
    method ClearToken()
      modifies this`token, this`store
      ensures token == None && store == old(store) - {TokenKey}
      ensures Synced()
    {
      token := None;
      store := store - {TokenKey};
    }

    /** `request(endpoint, method, data)`, with `reply` the outcome of the fetch. */
    method Request(endpoint: string, verb: string, data: Option<Fields>, reply: FetchOutcome)
      returns (r: Result<Reply>)
      modifies this`sent, page
      ensures r == Settle(reply)
      ensures |sent| == |old(sent)| + 1 && sent[..|old(sent)|] == old(sent)
      ensures IsJsonRequest(sent[|old(sent)|], baseURL + endpoint, verb, token, data)
      ensures Synced() && Truthy(StoredToken(store)) ==>
        sent[|old(sent)|].headers[Authorization] == "Bearer " + store[TokenKey]
      ensures page.events == old(page.events) + Bracket(r)
      ensures page.overlays == old(page.overlays)
    {
      var url := baseURL + endpoint;
      var headers := map[ContentType := JsonMime];
      if Truthy(token) {
        headers := headers[Authorization := "Bearer " + token.value];
      }
      var body: Option<RequestBody> := None;
      if data.Some? {
        body := Some(JsonText(data.value));
      }
      // try
      page.ShowLoader();
      sent := sent + [HttpRequest(url, verb, headers, body)];
      match reply {
        case Unreachable(e) => r := Err(e);
        case Received(ok, Malformed(e)) => r := Err(e);
        case Received(ok, JsonNull(t)) =>
          if !ok {
            r := Err(t);
          } else {
            r := Ok(None);
          }
        case Received(ok, Json(result)) =>
          if !ok {
            r := Err(if Truthy(result.message) then result.message.value else FallbackMessage);
          } else {
            r := Ok(Some(result));
          }
      }
      // catch
      if r.Err? {
        page.ShowToast(r.error, Error);
      }
      // finally
      page.HideLoader();
    }

    /** `login(email, password)`: keeps the reply's token only when it is truthy. */
    method Login(email: string, password: string, reply: FetchOutcome) returns (r: Result<Reply>)
      modifies this`token, this`store, this`sent, page
      ensures r == SettleLogin(reply)
      ensures |sent| == |old(sent)| + 1 && sent[..|old(sent)|] == old(sent)
      ensures IsJsonRequest(sent[|old(sent)|], baseURL + LoginPath, "POST", old(token),
                            Some([("email", email), ("password", password)]))
      ensures page.events == old(page.events) + Bracket(Settle(reply))
      ensures page.overlays == old(page.overlays)
      ensures if r.Ok? && r.value.Some? && Truthy(r.value.value.token)
              then token == r.value.value.token && store == old(store)[TokenKey := r.value.value.token.value]
              else token == old(token) && store == old(store)
      ensures old(Synced()) ==> Synced()
    {
      r := Request(LoginPath, "POST", Some([("email", email), ("password", password)]), reply);
      if r.Ok? {
        match r.value {
          case None =>
            // `data.token` on a `null` reply
            r := Err(reply.body.typeError);
          case Some(data) =>
            if Truthy(data.token) {
              SetToken(data.token.value);
            }
        }
      }
    }

    /** `logout()`: clears the session locally, without any request. */
    method Logout() returns (success: bool)
      modifies this`token, this`store
      ensures success
      ensures token == None && store == old(store) - {TokenKey}
      ensures sent == old(sent)
      ensures Synced()
    {
      ClearToken();
      success := true;
    }

    /** One of the named passthroughs. */
    method Invoke(call: Call, reply: FetchOutcome) returns (r: Result<Reply>)
      modifies this`sent, page
      ensures r == Settle(reply)
      ensures |sent| == |old(sent)| + 1 && sent[..|old(sent)|] == old(sent)
      ensures IsJsonRequest(sent[|old(sent)|], baseURL + RouteOf(call).endpoint,
                            RouteOf(call).verb, token, RouteOf(call).data)
      ensures Synced() && Truthy(StoredToken(store)) ==>
        sent[|old(sent)|].headers[Authorization] == "Bearer " + store[TokenKey]
      ensures page.events == old(page.events) + Bracket(r)
      ensures page.overlays == old(page.overlays)
    {
      var route := RouteOf(call);
      r := Request(route.endpoint, route.verb, route.data, reply);
    }

    /** `uploadEvidence(complaintId, files)`: a multipart POST that always sends the bearer
        header, never a content type, and does not look at the reply's status. */
    method UploadEvidence(complaintId: string, files: seq<Upload.File>, reply: FetchOutcome)
      returns (r: Result<Reply>)
      modifies this`sent, page
      ensures r == SettleUnchecked(reply)
      ensures sent == old(sent) + [HttpRequest(baseURL + EvidencePath(complaintId), "POST",
                                               map[Authorization := "Bearer " + TokenText(token)],
                                               Some(Multipart(files)))]
      ensures ContentType !in sent[|sent| - 1].headers
      ensures page.events == old(page.events) + Bracket(r)
      ensures page.overlays == old(page.overlays)
    {
      var evidence: seq<Upload.File> := [];
      for i := 0 to |files|
        invariant evidence == files[..i]
      {
        evidence := evidence + [files[i]];
      }
      assert files[..|files|] == files;
      var url := baseURL + "/complaints/" + complaintId + "/evidence";
      assert url == baseURL + EvidencePath(complaintId);
      // try
      page.ShowLoader();
      sent := sent + [HttpRequest(url, "POST", map[Authorization := "Bearer " + TokenText(token)],
                                  Some(Multipart(evidence)))];
      match reply {
        case Unreachable(e) => r := Err(e);
        case Received(_, Malformed(e)) => r := Err(e);
        case Received(_, JsonNull(_)) => r := Ok(None);
        case Received(_, Json(result)) => r := Ok(Some(result));
      }
      // catch
      if r.Err? {
        page.ShowToast(r.error, Error);
      }
      // finally
      page.HideLoader();
    }
  }

  /** A successful login with token "t1" is persisted, and the next request carries
      `Authorization: Bearer t1`. */
  method LoginThenFetch(email: string, password: string, extra: Fields)
    returns (stored: Option<string>, authorization: string)
    ensures stored == Some("t1")
    ensures authorization == "Bearer t1"
  {
    var page := new Page();
    var client := new APIClient(map[], page);
    var reply := Received(true, Json(Payload(None, Some("t1"), extra)));
    var r := client.Login(email, password, reply);
    stored := StoredToken(client.store);
    var r2 := client.Invoke(GetMyComplaints, Received(true, Json(Payload(None, None, []))));
    var last := client.sent[|client.sent| - 1];
    authorization := last.headers[Authorization];
  }
}
