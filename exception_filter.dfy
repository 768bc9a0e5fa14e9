/** `GlobalExceptionFilter`: the redaction of request bodies before they are
    logged, and the status, message and error-log decision for every exception
    that escapes a handler. */
module GlobalExceptionFilter {
  import opened Common
  import opened Js

  /** Field-name fragments whose values must never reach the error log. */
  const SensitiveFields: seq<string> := ["password", "token", "secret", "apiKey", "refreshToken", "accessToken"]

  const Redacted: string := "[REDACTED]"

  /** A key is sensitive when its lower-case form contains the lower-case form of
      some sensitive field. */
  predicate IsSensitive(key: string)
  {
    exists i :: 0 <= i < |SensitiveFields| && Contains(ToLower(key), ToLower(SensitiveFields[i]))
  }

  /** `typeof value === 'object' && value !== null`: arrays and plain objects. */
  predicate IsObject(v: JsValue)
  {
    v.Arr? || v.Obj?
  }

  /** The keys of an object in entry order. */
  function Keys(entries: seq<Entry>): (ks: seq<string>)
    ensures |ks| == |entries| && forall i :: 0 <= i < |entries| ==> ks[i] == entries[i].key
  {
    seq(|entries|, i requires 0 <= i < |entries| => entries[i].key)
  }

  /** `sanitizeObject(obj)`: primitives and null as they are, arrays element by
      element, object entries redacted when their key is sensitive and
      sanitized when their value is an object. */
  function Sanitize(v: JsValue): (r: JsValue)
    ensures r.Arr? <==> v.Arr?
    ensures r.Obj? <==> v.Obj?
    ensures !IsObject(v) ==> r == v
    ensures v.Arr? ==> |r.items| == |v.items|
    ensures v.Obj? ==> Keys(r.entries) == Keys(v.entries)
    decreases v, 1
  {
    match v
    case Arr(items) => Arr(seq(|items|, i requires 0 <= i < |items| => Sanitize(items[i])))
    case Obj(entries) => Obj(seq(|entries|, i requires 0 <= i < |entries| => SanitizeEntry(entries[i], v)))
    case _ => v
  }

  /** One entry of a sanitized object, whose parent is `parent`. */
  function SanitizeEntry(e: Entry, parent: JsValue): (r: Entry)
    requires parent.Obj? && e in parent.entries
    ensures r.key == e.key
    decreases parent, 0
  {
    if IsSensitive(e.key) then Entry(e.key, Str(Redacted))
    else if IsObject(e.value) then Entry(e.key, Sanitize(e.value))
    else e
  }

  /** The source's loop: a fresh object filled entry by entry, with a recursive
      call on nested objects, and `map` over arrays. The entries of an object
      have distinct keys, so appending an entry is the assignment `sanitized[key] = …`. */
  method SanitizeObject(obj: JsValue) returns (r: JsValue)
    ensures r == Sanitize(obj)
    decreases obj
  {
    if !Truthy(obj) || !IsObject(obj) {
      return obj;
    }
    if obj.Arr? {
      var items: seq<JsValue> := [];
      for i := 0 to |obj.items|
        invariant |items| == i
        invariant forall j :: 0 <= j < i ==> items[j] == Sanitize(obj.items[j])
      {
        var x := SanitizeObject(obj.items[i]);
        items := items + [x];
      }
      return Arr(items);
    }
    var sanitized: seq<Entry> := [];
    for i := 0 to |obj.entries|
      invariant |sanitized| == i
      invariant forall j :: 0 <= j < i ==> sanitized[j] == SanitizeEntry(obj.entries[j], obj)
    {
      var e := obj.entries[i];
      assert e in obj.entries;
      if IsSensitive(e.key) {
        sanitized := sanitized + [Entry(e.key, Str(Redacted))];
      } else if IsObject(e.value) {
        var value := SanitizeObject(e.value);
        sanitized := sanitized + [Entry(e.key, value)];
      } else {
        sanitized := sanitized + [e];
      }
    }
    r := Obj(sanitized);
  }

  /** Arrays are sanitized element-wise, keeping order. */
  lemma SanitizeArray(items: seq<JsValue>)
    ensures |Sanitize(Arr(items)).items| == |items|
    ensures forall i :: 0 <= i < |items| ==> Sanitize(Arr(items)).items[i] == Sanitize(items[i])
  {
  }

  /** The entry rules: a sensitive key gets `[REDACTED]`; any other key keeps a
      primitive or null value and has an object or array value sanitized. */
  lemma SanitizeEntries(entries: seq<Entry>, i: int)
    requires 0 <= i < |entries|
    ensures Sanitize(Obj(entries)).entries[i].key == entries[i].key
    ensures IsSensitive(entries[i].key) ==> Sanitize(Obj(entries)).entries[i].value == Str(Redacted)
    ensures !IsSensitive(entries[i].key) && IsObject(entries[i].value) ==>
      Sanitize(Obj(entries)).entries[i].value == Sanitize(entries[i].value)
    ensures !IsSensitive(entries[i].key) && !IsObject(entries[i].value) ==>
      Sanitize(Obj(entries)).entries[i].value == entries[i].value
  {
    assert entries[i] in Obj(entries).entries;
  }

  /** Sanitizing twice equals sanitizing once. */
  lemma {:induction false} SanitizeIdempotent(v: JsValue)
    ensures Sanitize(Sanitize(v)) == Sanitize(v)
    decreases v
  {
    match v
    case Arr(items) =>
      var s := Sanitize(v);
      forall i | 0 <= i < |items|
        ensures Sanitize(s.items[i]) == s.items[i]
      {
        SanitizeIdempotent(items[i]);
      }
    case Obj(entries) =>
      var s := Sanitize(v);
      forall i | 0 <= i < |entries|
        ensures SanitizeEntry(s.entries[i], s) == s.entries[i]
      {
        assert entries[i] in v.entries;
        assert s.entries[i] == SanitizeEntry(entries[i], v);
        assert s.entries[i] in s.entries;
        if !IsSensitive(entries[i].key) && IsObject(entries[i].value) {
          SanitizeIdempotent(entries[i].value);
        }
      }
    case _ =>
  }

  /** Nowhere in the tree does a sensitive key carry anything but `[REDACTED]`. */
  predicate NoSecrets(v: JsValue)
    decreases v
  {
    match v
    case Arr(items) => forall i :: 0 <= i < |items| ==> NoSecrets(items[i])
    case Obj(entries) =>
      forall i :: 0 <= i < |entries| ==>
        (IsSensitive(entries[i].key) ==> entries[i].value == Str(Redacted)) && NoSecrets(entries[i].value)
    case _ => true
  }

  /** The sanitized body holds no secret at any depth. */
  lemma {:induction false} SanitizeHidesSecrets(v: JsValue)
    ensures NoSecrets(Sanitize(v))
    decreases v
  {
    match v
    case Arr(items) =>
      forall i | 0 <= i < |items|
        ensures NoSecrets(Sanitize(v).items[i])
      {
        SanitizeHidesSecrets(items[i]);
      }
    case Obj(entries) =>
      var s := Sanitize(v);
      forall i | 0 <= i < |entries|
        ensures NoSecrets(s.entries[i].value)
      {
        assert entries[i] in v.entries;
        assert s.entries[i] == SanitizeEntry(entries[i], v);
        if !IsSensitive(entries[i].key) && IsObject(entries[i].value) {
          SanitizeHidesSecrets(entries[i].value);
        }
      }
    case _ =>
  }

  /** Since `refreshtoken` and `accesstoken` contain `token`, a key is sensitive
      exactly when its lower-case form contains `password`, `token`, `secret` or `apikey`. */
  lemma SensitiveFragments(key: string)
    ensures IsSensitive(key) <==>
      Contains(ToLower(key), "password") || Contains(ToLower(key), "token") ||
      Contains(ToLower(key), "secret") || Contains(ToLower(key), "apikey")
  {
    var k := ToLower(key);
    assert ToLower(SensitiveFields[0]) == "password";
    assert ToLower(SensitiveFields[1]) == "token";
    assert ToLower(SensitiveFields[2]) == "secret";
    assert ToLower(SensitiveFields[3]) == "apikey";
    assert ToLower(SensitiveFields[4]) == "refresh" + "token";
    assert ToLower(SensitiveFields[5]) == "access" + "token";
    if Contains(k, ToLower(SensitiveFields[4])) {
      ContainsSuffixOfNeedle(k, "refresh", "token");
    }
    if Contains(k, ToLower(SensitiveFields[5])) {
      ContainsSuffixOfNeedle(k, "access", "token");
    }
  }

  /** What reached the filter: an `HttpException` (named by its class), another
      `Error` with its constructor name and message, or a thrown non-`Error` value. */
  datatype Thrown = HttpException(error: HttpError) | ErrorObject(className: string, message: string) | NonError

  /** The parts of the request the filter reads. `user` is what a guard attached,
      if any; `ip`, `forwardedFor` and `userAgent` are absent when the request lacks them. */
  datatype RequestInfo = RequestInfo(httpMethod: string, url: string, body: JsValue, params: JsValue, query: JsValue,
                                     user: Option<Principal>, ip: Option<string>, forwardedFor: Option<string>,
                                     userAgent: Option<string>)

  /** The `errorLog` row the filter asks the database to create. */
  datatype ErrorLog = ErrorLog(service: string, errorType: string, errorMessage: string,
                               userId: Option<int>, userRole: Option<string>, requestUrl: string,
                               requestMethod: string, ip: Option<string>, userAgent: Option<string>,
                               body: JsValue, params: JsValue, query: JsValue)

  /** The JSON body of the reply (the timestamp is left out). */
  datatype ErrorResponse = ErrorResponse(success: bool, statusCode: int, path: string, message: string)

  /** The reply, and the log row when the filter tries to write one. */
  datatype Handled = Handled(log: Option<ErrorLog>, response: ErrorResponse)

  const InternalServerError: int := 500

  function Status(ex: Thrown): int
  {
    if ex.HttpException? then ex.error.status else InternalServerError
  }

  function ErrorMessage(ex: Thrown): string
  {
    match ex
    case HttpException(e) => e.message
    case ErrorObject(_, m) => m
    case NonError => "Unknown error"
  }

  function ErrorType(ex: Thrown): string
  {
    match ex
    case HttpException(e) => e.className
    case ErrorObject(c, _) => c
    case NonError => "UnknownError"
  }

  /** `a || b || null` over optional strings, `""` being falsy. */
  function FirstTruthy(a: Option<string>, b: Option<string>): (r: Option<string>)
    ensures r.Some? ==> r.value != "" && (r == a || r == b)
    ensures a.Some? && a.value != "" ==> r == a
    ensures !(a.Some? && a.value != "") && b.Some? && b.value != "" ==> r == b
    ensures r.None? <==> (a.None? || a.value == "") && (b.None? || b.value == "")
  {
    if a.Some? && a.value != "" then a else if b.Some? && b.value != "" then b else None
  }

  /** The log row for a request: the body redacted at every depth, params and
      query as they are, and the user's id and role only when truthy. */
  function LogRow(ex: Thrown, req: RequestInfo): (row: ErrorLog)
    ensures NoSecrets(row.body) && Sanitize(row.body) == row.body
    ensures row.params == req.params && row.query == req.query
    ensures row.errorMessage == ErrorMessage(ex) && row.requestUrl == req.url
    ensures row.errorType == ErrorType(ex) && row.requestMethod == req.httpMethod
    ensures row.userId.Some? <==> req.user.Some? && req.user.value.userId != 0
    ensures row.userId.Some? ==> row.userId.value == req.user.value.userId
    ensures row.userRole.Some? <==> req.user.Some? && req.user.value.role != ""
    ensures row.userRole.Some? ==> row.userRole.value == req.user.value.role
    ensures row.ip == FirstTruthy(req.ip, req.forwardedFor)
    ensures row.userAgent == FirstTruthy(req.userAgent, None)
  {
    SanitizeHidesSecrets(req.body);
    SanitizeIdempotent(req.body);
    ErrorLog("users-service", ErrorType(ex), ErrorMessage(ex),
             if req.user.Some? && req.user.value.userId != 0 then Some(req.user.value.userId) else None,
             if req.user.Some? && req.user.value.role != "" then Some(req.user.value.role) else None,
             req.url, req.httpMethod, FirstTruthy(req.ip, req.forwardedFor), FirstTruthy(req.userAgent, None),
             Sanitize(req.body), req.params, req.query)
  }

  /** `catch(exception, host)`. Whether the database write succeeds is not an
      input: its failure is swallowed, so the reply is the same either way. */
  function Catch(ex: Thrown, req: RequestInfo): (h: Handled)
    ensures !h.response.success && h.response.path == req.url
    ensures h.log.Some? <==> h.response.statusCode >= 500
    ensures h.log.Some? ==> NoSecrets(h.log.value.body) && h.log.value.errorMessage == h.response.message
  {
    var status := Status(ex);
    Handled(if status >= 500 then Some(LogRow(ex, req)) else None,
            ErrorResponse(false, status, req.url, ErrorMessage(ex)))
  }

  /** The reply: always `success: false`, the exception's status (500 for anything
      but an `HttpException`), the request path and the exception's message
      (`Unknown error` for a non-`Error`). */
  lemma CatchResponse(ex: Thrown, req: RequestInfo)
    ensures !Catch(ex, req).response.success && Catch(ex, req).response.path == req.url
    ensures ex.HttpException? ==> Catch(ex, req).response.statusCode == ex.error.status &&
                                  Catch(ex, req).response.message == ex.error.message
    ensures ex.ErrorObject? ==> Catch(ex, req).response.statusCode == 500 && Catch(ex, req).response.message == ex.message
    ensures ex.NonError? ==> Catch(ex, req).response == ErrorResponse(false, 500, req.url, "Unknown error")
  {
  }

  /** A log row is attempted exactly for server errors: every non-`HttpException`
      and every `HttpException` with status of at least 500. The 4xx refusals of
      the guards and services are never logged to the database. */
  lemma LogOnlyServerErrors(ex: Thrown, req: RequestInfo)
    ensures Catch(ex, req).log.Some? <==> Catch(ex, req).response.statusCode >= 500
    ensures !ex.HttpException? ==> Catch(ex, req).log.Some?
    ensures ex.HttpException? && ex.error.status < 500 ==> Catch(ex, req).log.None?
    ensures Catch(ex, req).log.Some? ==> Catch(ex, req).log.value.errorMessage == Catch(ex, req).response.message
  {
  }

  /** What is logged: the body redacted at every depth and sanitized exactly once
      over, params and query unaltered, and the user's id and role only when truthy. */
  lemma LoggedRowRedacted(ex: Thrown, req: RequestInfo)
    requires Catch(ex, req).log.Some?
    ensures var row := Catch(ex, req).log.value;
      row.body == Sanitize(req.body) && NoSecrets(row.body) && Sanitize(row.body) == row.body &&
      row.params == req.params && row.query == req.query && row.service == "users-service"
    ensures var row := Catch(ex, req).log.value;
      (row.userId.Some? <==> req.user.Some? && req.user.value.userId != 0) &&
      (row.userRole.Some? <==> req.user.Some? && req.user.value.role != "")
    ensures var row := Catch(ex, req).log.value;
      (row.userId.Some? ==> row.userId.value == req.user.value.userId) &&
      (row.userRole.Some? ==> row.userRole.value == req.user.value.role)
  {
    SanitizeHidesSecrets(req.body);
    SanitizeIdempotent(req.body);
  }
}
