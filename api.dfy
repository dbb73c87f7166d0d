/** The HTTP side of weather_app.py as far as it decides anything:
    `make_api_request` (a bounded retry with a doubling delay) and
    `check_status_code`. The network is the function `answer`: what the
    k-th `requests.get` of one call produced. `time.sleep` is kept only as
    the list of delays slept. */
module Api {
  import opened Wrappers
  import opened Json
  import opened Text

  /** The outcome of one `requests.get`. */
  datatype Attempt = NoResponse | Response(status: int, body: Json)

  /** The exceptions `make_api_request` raises. */
  datatype ApiError =
    | ConnectionFailed
    | BadRequest
    | Unauthorized
    | HttpStatus(code: int)
    | NoData(message: string)

  /** The text each exception carries. */
  function Message(e: ApiError): string {
    match e
    case ConnectionFailed => "Не удалось подключиться"
    case BadRequest => "Ошибка в запросе, введите название города или координаты"
    case Unauthorized => "Ошибка авторизации. Проверьте API ключ"
    case HttpStatus(code) => "Ошибка API: " + IntToString(code)
    case NoData(message) => message
  }

  /** No response, a server error or "too many requests": worth retrying. */
  predicate Retryable(a: Attempt) {
    a.NoResponse? || a.status >= 500 || a.status == 429
  }

  /** `check_status_code`: `None` when the call passes, else what it raises. */
  function CheckStatusCode(status: int): (r: Option<ApiError>)
    ensures r.None? <==> status == 200
    ensures r.Some? ==> r.value.BadRequest? || r.value.Unauthorized? || r.value.HttpStatus?
  {
    if status != 200 then
      if status == 400 then Some(BadRequest)
      else if status == 401 then Some(Unauthorized)
      else Some(HttpStatus(status))
    else None
  }

  /** Every rejected status is reported under its own text: 400 and 401
      with their fixed messages, any other code inside "Ошибка API: <code>",
      from which the code reads back. */
  lemma StatusMessages(status: int)
    requires status != 200
    ensures status == 400 ==> Message(CheckStatusCode(status).value) == "Ошибка в запросе, введите название города или координаты"
    ensures status == 401 ==> Message(CheckStatusCode(status).value) == "Ошибка авторизации. Проверьте API ключ"
    ensures status != 400 && status != 401 ==>
      var m := Message(CheckStatusCode(status).value);
      var prefix := "Ошибка API: ";
      |m| > |prefix| && m[..|prefix|] == prefix && ParseInt(m[|prefix|..]) == Some(status)
  {
    if status != 400 && status != 401 {
      var prefix := "Ошибка API: ";
      var m := prefix + IntToString(status);
      assert m[|prefix|..] == IntToString(status);
      IntRoundTrip(status);
    }
  }

  /** What a call ends with once a response is not retried: the status
      check, then the empty-body check. */
  function Settle(a: Attempt, errorMsg: string): Result<Json, ApiError>
    requires !Retryable(a)
  {
    match CheckStatusCode(a.status)
    case Some(e) => Err(e)
    case None => if Truthy(a.body) then Ok(a.body) else Err(NoData(errorMsg))
  }

  /** `make_api_request(url, error_msg)`. `sleeps` lists the delays slept
      before each retry. */
  method MakeApiRequest(answer: nat -> Attempt, errorMsg: string) returns (r: Result<Json, ApiError>, sleeps: seq<nat>)
    ensures |sleeps| <= 3 && sleeps == [1, 2, 4][..|sleeps|]
    ensures forall j :: 0 <= j < |sleeps| ==> Retryable(answer(j))
    ensures Retryable(answer(|sleeps|)) ==> |sleeps| == 3 && r == Err(ConnectionFailed)
    ensures !Retryable(answer(|sleeps|)) ==> r == Settle(answer(|sleeps|), errorMsg)
    ensures r.Ok? ==> Truthy(r.value) && answer(|sleeps|) == Response(200, r.value)
  {
    var delay := 1;
    var k := 0;
    sleeps := [];
    var a := answer(0);
    while Retryable(a) && delay <= 4
      invariant 0 <= k <= 3
      invariant delay == [1, 2, 4, 8][k]
      invariant sleeps == [1, 2, 4][..k]
      invariant a == answer(k)
      invariant forall j :: 0 <= j < k ==> Retryable(answer(j))
      decreases 8 - delay
    {
      sleeps := sleeps + [delay];
      delay := delay * 2;
      k := k + 1;
      a := answer(k);
    }
    if Retryable(a) {
      r := Err(ConnectionFailed);
    } else {
      r := Settle(a, errorMsg);
    }
  }
}
