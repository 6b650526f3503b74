/** The shared HTTP client's interceptors: the request side adds the bearer token and
    turns a non-GET body into form pairs; the response side unwraps `{code: 200}` bodies
    and turns every failure into one alert text, a 401 clean-up and a rejection. */
module Http {
  import opened Js
  import opened Text
  import opened BrowserStorage

  const FormContentType := "application/x-www-form-urlencoded"
  const GenericFailure := "请求失败"
  const EmptyDetailFailure := "请求失败，请检查输入"
  const TimeoutText := "请求超时，请检查网络连接"
  const NoResponseText := "服务器无响应，请稍后再试"
  const SendFailedPrefix := "请求发送失败: "
  const DetailSeparator := "; "
  const AuthPath := "/auth"

  // ---- the request interceptor ----------------------------------------------------

  /** A request body before the interceptor (`None` is `undefined`), or the form the
      interceptor replaced it by. */
  datatype Payload = Body(value: Option<Json>) | Form(pairs: seq<(string, string)>)

  /** The request being configured. The HTTP library lower-cases the method (`verb` here) before the
      interceptors run. A payload object stands for a JavaScript object, whose keys are
      distinct. */
  class RequestConfig {
    var verb: string
    var headers: map<string, string>
    var data: Payload

    constructor (verb: string, headers: map<string, string>, data: Option<Json>)
      ensures this.verb == verb && this.headers == headers && this.data == Body(data)
    {
      this.verb := verb;
      this.headers := headers;
      this.data := Body(data);
    }
  }

  /** The keys `for…in` visits: an object's members, an array's or a string's indices;
      other values have none. */
  function ForInKeys(data: Json): seq<string> {
    match data
    case JObj(members) => seq(|members|, i requires 0 <= i < |members| => members[i].0)
    case JArr(items) => seq(|items|, i requires 0 <= i < |items| => NatToString(i))
    case JStr(s) => seq(|s|, i requires 0 <= i < |s| => NatToString(i))
    case _ => []
  }

  /** `data[key]` for the `i`-th key `for…in` visits. */
  function ForInValue(data: Json, i: nat): Json
    requires i < |ForInKeys(data)|
  {
    match data
    case JObj(members) => members[i].1
    case JArr(items) => items[i]
    case JStr(s) => JStr([s[i]])
  }

  /** The form a payload becomes: one pair per visited key, the value turned into a
      string as `URLSearchParams.append` does (`show` is `String(v)`). */
  function FormOf(data: Json, show: Json -> string): seq<(string, string)> {
    var keys := ForInKeys(data);
    seq(|keys|, i requires 0 <= i < |keys| => (keys[i], ToJsString(ForInValue(data, i), show)))
  }

  /** A payload whose keys are those of a JavaScript value: an object body has one
      member per key. */
  predicate ObjectKeysDistinct(data: Payload) {
    data.Body? && data.value.Some? && data.value.value.JObj? ==> DistinctKeys(data.value.value.members)
  }

  /** `for…in` visits no key twice: an object's keys are distinct, and so are the
      decimal indices of an array or a string. */
  lemma ForInKeysDistinct(data: Json)
    requires data.JObj? ==> DistinctKeys(data.members)
    ensures forall i, j :: 0 <= i < j < |ForInKeys(data)| ==> ForInKeys(data)[i] != ForInKeys(data)[j]
  {
    var keys := ForInKeys(data);
    if data.JArr? || data.JStr? {
      forall i, j | 0 <= i < j < |keys| ensures keys[i] != keys[j] {
        assert keys[i] == NatToString(i) && keys[j] == NatToString(j);
        DigitsValueOfNatToString(i);
        DigitsValueOfNatToString(j);
      }
    }
  }

  /** The `for…in` loop that fills the `URLSearchParams`. */
  method BuildForm(data: Json, show: Json -> string) returns (pairs: seq<(string, string)>)
    ensures pairs == FormOf(data, show)
  {
    var keys := ForInKeys(data);
    pairs := [];
    var i := 0;
    while i < |keys|
      invariant 0 <= i <= |keys|
      invariant |pairs| == i
      invariant forall j :: 0 <= j < i ==> pairs[j] == (keys[j], ToJsString(ForInValue(data, j), show))
    {
      pairs := pairs + [(keys[i], ToJsString(ForInValue(data, i), show))];
      i := i + 1;
    }
  }

  /** An object becomes a form with exactly one pair per member, carrying the member's
      value; no pair comes from anywhere else. */
  lemma {:induction false} FormCarriesEachMember(members: seq<(string, Json)>, show: Json -> string)
    requires DistinctKeys(members)
    ensures var pairs := FormOf(JObj(members), show);
            && (forall key :: Member(members, key).Some? ==>
                  exists i :: 0 <= i < |pairs| && pairs[i] == (key, ToJsString(Member(members, key).value, show)) &&
                    forall j :: 0 <= j < |pairs| && j != i ==> pairs[j].0 != key)
            && (forall i :: 0 <= i < |pairs| ==> Member(members, pairs[i].0).Some?)
  {
    var pairs := FormOf(JObj(members), show);
    forall key | Member(members, key).Some?
      ensures exists i :: 0 <= i < |pairs| && pairs[i] == (key, ToJsString(Member(members, key).value, show)) &&
                forall j :: 0 <= j < |pairs| && j != i ==> pairs[j].0 != key
    {
      var i :| 0 <= i < |members| && members[i] == (key, Member(members, key).value) &&
               forall j :: i < j < |members| ==> members[j].0 != key;
      assert pairs[i] == (key, ToJsString(Member(members, key).value, show));
    }
    forall i | 0 <= i < |pairs| ensures Member(members, pairs[i].0).Some? {
      assert members[i].0 == pairs[i].0;
    }
  }

  /** The request interceptor: `Authorization` exactly when a token is stored;
      `Content-Type` and the form conversion only for a request that is not a GET, the
      conversion only for a truthy body. */
  method InterceptRequest(config: RequestConfig, store: LocalStorage, show: Json -> string)
    requires ObjectKeysDistinct(config.data)
    modifies config
    ensures var token := store.GetItem("token");
            var withAuth := if TruthyText(token) then old(config.headers)["Authorization" := "Bearer " + token.value]
                            else old(config.headers);
            config.headers == (if old(config.verb) != "get" then withAuth["Content-Type" := FormContentType] else withAuth)
    ensures config.data == (if old(config.data).Body? && TruthyOpt(old(config.data).value) && old(config.verb) != "get"
                            then Form(FormOf(old(config.data).value.value, show))
                            else old(config.data))
    ensures config.verb == old(config.verb)
  {
    var token := store.GetItem("token");
    if TruthyText(token) {
      config.headers := config.headers["Authorization" := "Bearer " + token.value];
    }
    if config.verb != "get" {
      config.headers := config.headers["Content-Type" := FormContentType];
    }
    if config.data.Body? && TruthyOpt(config.data.value) && config.verb != "get" {
      var pairs := BuildForm(config.data.value.value, show);
      config.data := Form(pairs);
    }
  }

  // ---- the success side of the response interceptor --------------------------------------

  /** A response as the HTTP library delivers it. */
  datatype Response = Response(status: int, data: Json)

  /** What a request resolves with: the body alone, or the whole response. */
  datatype Resolved = BodyOnly(body: Json) | WholeResponse(response: Response)

  predicate HasCode200(data: Json) {
    Truthy(data) && Get(data, "code") == Some(JNum(200.0))
  }

  function UnwrapSuccess(r: Response): (res: Resolved)
    ensures res.BodyOnly? <==> r.data.JObj? && Get(r.data, "code") == Some(JNum(200.0))
    ensures res.BodyOnly? ==> res.body == r.data
    ensures res.WholeResponse? ==> res.response == r
  {
    if HasCode200(r.data) then BodyOnly(r.data) else WholeResponse(r)
  }

  /** The resolved value as a caller's property reads see it: the whole response is an
      object whose `data` is the body. */
  function AsValue(res: Resolved): (v: Json)
    ensures res.WholeResponse? ==> Get(v, "data") == Some(res.response.data)
    ensures res.BodyOnly? ==> v == res.body
  {
    match res
    case BodyOnly(body) => body
    case WholeResponse(r) =>
      var members := [("data", r.data), ("status", JNum(r.status as real))];
      assert members[..1] == [("data", r.data)];
      assert Member(members[..1], "data") == Some(r.data);
      assert Member(members, "data") == Member(members[..1], "data");
      JObj(members)
  }

  // ---- the error side of the response interceptor ------------------------------------------

  /** A failed request: the library's error code, the response if one came back, whether
      a request was sent at all, and the error's message. */
  datatype HttpError = HttpError(code: Option<string>, response: Option<Response>, requestSent: bool, message: string)

  datatype ErrorBranch = TimedOut | GotResponse | NoResponse | NotSent

  /** The branch the error handler takes, in the order it tests them. */
  function BranchOf(e: HttpError): (b: ErrorBranch)
    ensures b == TimedOut <==> e.code == Some("ECONNABORTED")
    ensures b == GotResponse <==> e.code != Some("ECONNABORTED") && e.response.Some?
    ensures b == NoResponse <==> e.code != Some("ECONNABORTED") && e.response.None? && e.requestSent
    ensures b == NotSent <==> e.code != Some("ECONNABORTED") && e.response.None? && !e.requestSent
  {
    if e.code == Some("ECONNABORTED") then TimedOut
    else if e.response.Some? then GotResponse
    else if e.requestSent then NoResponse
    else NotSent
  }

  /** `pieces.join(sep)`. */
  function Join(pieces: seq<string>, sep: string): string
    decreases |pieces|
  {
    if pieces == [] then ""
    else if |pieces| == 1 then pieces[0]
    else pieces[0] + sep + Join(pieces[1..], sep)
  }

  /** A join with a non-empty separator is empty only for no pieces or one empty piece. */
  lemma {:induction false} JoinEmpty(pieces: seq<string>, sep: string)
    requires sep != ""
    ensures Join(pieces, sep) == "" <==> pieces == [] || (|pieces| == 1 && pieces[0] == "")
  {
    if |pieces| > 1 {
      assert |Join(pieces, sep)| >= |sep|;
    }
  }

  /** A text computed from the body, or the TypeError that reading `msg` of a `null`
      item throws. */
  datatype Extracted = Text(text: string) | TypeErrorThrown

  /** The text one item of an array `detail` contributes: `item.msg || item.message ||
      JSON.stringify(item)`, as `join` turns it into a string. */
  function DetailPiece(item: Json, stringify: Json -> string, show: Json -> string): string
    requires !item.JNull?
  {
    if TruthyOpt(Get(item, "msg")) then ToJsString(Get(item, "msg").value, show)
    else if TruthyOpt(Get(item, "message")) then ToJsString(Get(item, "message").value, show)
    else stringify(item)
  }

  /** The text of an array `detail`, or the TypeError when an item is `null`. */
  function DetailText(items: seq<Json>, stringify: Json -> string, show: Json -> string): Extracted {
    if exists i :: 0 <= i < |items| && items[i].JNull? then TypeErrorThrown
    else Text(Join(seq(|items|, i requires 0 <= i < |items| => DetailPiece(items[i], stringify, show)), DetailSeparator))
  }

  /** The message the handler alerts for a response body, by the first source that
      applies: a string `detail`, an array `detail`, a string `message`, the body itself
      when it is a string, else its JSON text; a falsy body gives the generic text. */
  function ErrorMessage(data: Json, stringify: Json -> string, show: Json -> string): (r: Extracted)
    ensures !Truthy(data) ==> r == Text(GenericFailure)
    ensures Truthy(data) && Get(data, "detail").Some? && Get(data, "detail").value.JStr? ==>
              r == Text(Get(data, "detail").value.s)
    ensures Truthy(data) && Get(data, "detail").Some? && Get(data, "detail").value.JArr? ==>
              var d := DetailText(Get(data, "detail").value.items, stringify, show);
              r == (if d == Text("") then Text(EmptyDetailFailure) else d)
    ensures Truthy(data) && !(Get(data, "detail").Some? && (Get(data, "detail").value.JStr? || Get(data, "detail").value.JArr?)) ==>
              r == (if Get(data, "message").Some? && Get(data, "message").value.JStr? then Text(Get(data, "message").value.s)
                    else if data.JStr? then Text(data.s)
                    else Text(stringify(data)))
    ensures r.TypeErrorThrown? ==> Truthy(data) && Get(data, "detail").Some? && Get(data, "detail").value.JArr?
  {
    if !Truthy(data) then Text(GenericFailure)
    else
      var detail := Get(data, "detail");
      var message := Get(data, "message");
      if detail.Some? && detail.value.JStr? then Text(detail.value.s)
      else if detail.Some? && detail.value.JArr? then
        var d := DetailText(detail.value.items, stringify, show);
        if d == Text("") then Text(EmptyDetailFailure) else d
      else if message.Some? && message.value.JStr? then Text(message.value.s)
      else if data.JStr? then Text(data.s)
      else Text(stringify(data))
  }

  /** An array `detail` without `null` items never yields an empty alert: no items, or a
      single item whose text is empty, give the fallback text. */
  lemma DetailNeverEmpty(items: seq<Json>, stringify: Json -> string, show: Json -> string)
    requires forall i :: 0 <= i < |items| ==> !items[i].JNull?
    ensures var d := DetailText(items, stringify, show);
            d.Text? && (d.text == "" <==> items == [] || (|items| == 1 && DetailPiece(items[0], stringify, show) == ""))
  {
    var pieces := seq(|items|, i requires 0 <= i < |items| => DetailPiece(items[i], stringify, show));
    JoinEmpty(pieces, DetailSeparator);
  }

  /** How the handler ends: always a rejection (with the original error, or with the
      TypeError the message extraction threw), after at most one alert and one redirect. */
  datatype ErrorOutcome = Rejected(typeError: bool, alert: Option<string>, redirect: Option<string>)

  /** The error interceptor. `pathname` is the current location's path. */
  method HandleError(e: HttpError, store: LocalStorage, pathname: string,
                     stringify: Json -> string, show: Json -> string) returns (outcome: ErrorOutcome)
    modifies store
    ensures BranchOf(e) == TimedOut ==> outcome == Rejected(false, Some(TimeoutText), None) && store.items == old(store.items)
    ensures BranchOf(e) == NoResponse ==> outcome == Rejected(false, Some(NoResponseText), None) && store.items == old(store.items)
    ensures BranchOf(e) == NotSent ==>
              outcome == Rejected(false, Some(SendFailedPrefix + e.message), None) && store.items == old(store.items)
    ensures BranchOf(e) == GotResponse ==>
              var m := ErrorMessage(e.response.value.data, stringify, show);
              var unauthorized := m.Text? && e.response.value.status == 401;
              && outcome == (if m.TypeErrorThrown? then Rejected(true, None, None)
                             else Rejected(false, Some(m.text),
                                           if unauthorized && !Contains(pathname, AuthPath) then Some(AuthPath) else None))
              && store.items == (if unauthorized then old(store.items) - {"token"} else old(store.items))
  {
    if e.code == Some("ECONNABORTED") {
      return Rejected(false, Some(TimeoutText), None);
    }
    if e.response.Some? {
      var m := ErrorMessage(e.response.value.data, stringify, show);
      if m.TypeErrorThrown? {
        return Rejected(true, None, None);
      }
      var redirect := None;
      if e.response.value.status == 401 {
        store.RemoveItem("token");
        if !Contains(pathname, AuthPath) {
          redirect := Some(AuthPath);
        }
      }
      outcome := Rejected(false, Some(m.text), redirect);
    } else if e.requestSent {
      outcome := Rejected(false, Some(NoResponseText), None);
    } else {
      outcome := Rejected(false, Some(SendFailedPrefix + e.message), None);
    }
  }

  /** On the sign-in pages a 401 never redirects, wherever `/auth` occurs in the path. */
  lemma NoRedirectOnAuthPages(prefix: string, suffix: string)
    ensures Contains(prefix + AuthPath + suffix, AuthPath)
  {
    var s := prefix + AuthPath + suffix;
    assert s[|prefix|..|prefix| + |AuthPath|] == AuthPath;
    assert OccursAt(s, AuthPath, |prefix|);
  }
}
