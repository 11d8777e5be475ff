/**
 * JsfUrlUtils: reading request parameters, where an absent parameter, an
 * empty one and the literal text "null" all mean "no value".
 */
module UrlParams {
  import opened Wrappers
  import opened JavaNumbers

  /** The request parameter map of the current request. */
  type RequestParams = map<string, string>

  /** The map's get: None stands for the null an absent parameter gives. */
  function Lookup(request: RequestParams, name: string): Option<string> {
    if name in request then Some(request[name]) else None
  }

  /** "" + value: Java's string concatenation writes a null as "null". */
  function Stringify(value: Option<string>): string {
    if value.None? then "null" else value.value
  }

  /** A parameter value that carries something: neither empty nor the text "null". */
  predicate Present(request: RequestParams, name: string) {
    name in request && request[name] != "" && request[name] != "null"
  }

  /** getUrlStringParam: the value, or None when it is absent, empty or "null". */
  function GetUrlStringParam(request: RequestParams, name: string): (r: Option<string>)
    ensures r.Some? <==> Present(request, name)
    ensures r.Some? ==> r.value == request[name]
  {
    var value := Stringify(Lookup(request, name));
    if !(value == "" || value == "null") then Some(value) else None
  }

  /**
   * getUrlLongParam: Long.parseLong of the raw value; the NumberFormatException
   * it throws, also for an absent (null) value, becomes None.
   */
  function GetUrlLongParam(request: RequestParams, name: string): (r: Option<Long>)
    ensures name !in request ==> r.None?
    ensures r.Some? <==> name in request && WellFormed(request[name])
                         && LONG_MIN <= SignedValue(request[name]) <= LONG_MAX
    ensures r.Some? ==> r.value == SignedValue(request[name])
  {
    match Lookup(request, name)
    case None => None
    case Some(s) => ParseLong(s)
  }

  /**
   * getUrlDateParam: only a value getUrlStringParam accepts is handed to the
   * date parser `parse` (SimpleDateFormat "yyyy-MM-dd HH:mm:ss", not part of
   * this model); a ParseException is None.
   */
  function GetUrlDateParam<D>(request: RequestParams, name: string, parse: string -> Option<D>): (r: Option<D>)
    ensures !Present(request, name) ==> r.None?
    ensures Present(request, name) ==> r == parse(request[name])
  {
    var text := GetUrlStringParam(request, name);
    if text.Some? then parse(text.value) else None
  }

  /** A number read by getUrlLongParam is also a value getUrlStringParam returns. */
  lemma LongParamIsStringParam(request: RequestParams, name: string)
    requires GetUrlLongParam(request, name).Some?
    ensures GetUrlStringParam(request, name) == Some(request[name])
  {
    var s := request[name];
    assert WellFormed(s);
  }

  /** Writing a long into the request and reading it back gives the long. */
  lemma LongParamRoundTrip(request: RequestParams, name: string, v: Long)
    ensures GetUrlLongParam(request[name := ToDecimal(v)], name) == Some(v)
  {
    ParseToDecimal(v, LONG_MIN, LONG_MAX);
  }

  /** Only the two blank spellings are dropped: every other value comes back as it was written. */
  lemma StringParamRoundTrip(request: RequestParams, name: string, value: string)
    ensures GetUrlStringParam(request[name := value], name)
            == if value == "" || value == "null" then None else Some(value)
  {
  }
}
