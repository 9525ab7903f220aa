/**
  An HTTP request (`App\Support\Request`): a path, attributes and headers, fixed at construction.
  `getPath` and `getHeaders` are the fields `path` and `headers`.
*/
module Requests {
  import opened Wrappers

  /** A PHP value held in the attribute or header arrays; `List` is a PHP array. */
  datatype Value = Null | Text(text: string) | Number(number: int) | Flag(flag: bool) | List(items: seq<Value>)

  /** The `TypeError` PHP raises when a value does not fit a declared return type. */
  datatype TypeError = TypeError

  /** PHP's `isset($m[$key])`: the key is present and its value is not null. */
  predicate IsSet(m: map<string, Value>, key: string)
  {
    key in m && m[key] != Null
  }

  /** The decimal digits of `n`, as PHP writes an integer converted to a string. */
  function Digits(n: nat): string
  {
    if n < 10 then ["0123456789"[n]] else Digits(n / 10) + ["0123456789"[n % 10]]
  }

  /**
    The value a function declared `: string` returns for `v` in PHP's default (coercive) mode:
    strings as they are, integers in decimal, booleans as "1" or ""; null and arrays raise.
  */
  function AsString(v: Value): (r: Result<string, TypeError>)
    ensures v.Text? ==> r == Success(v.text)
    ensures v.Null? || v.List? ==> r == Failure(TypeError)
  {
    match v
    case Text(s) => Success(s)
    case Number(n) => Success(if n < 0 then "-" + Digits(-n) else Digits(n))
    case Flag(b) => Success(if b then "1" else "")
    case Null => Failure(TypeError)
    case List(_) => Failure(TypeError)
  }

  datatype Request = Request(path: string, attributes: map<string, Value>, headers: map<string, Value>) {

    /** `has`: PHP's `isset` on the attribute: present and not null. */
    predicate Has(key: string)
      ensures Has(key) ==> key in attributes && attributes[key] != Null
      ensures key in attributes && attributes[key] != Null ==> Has(key)
    {
      IsSet(attributes, key)
    }

    /** `get`: the attribute when it is set, `default` otherwise. */
    function Get(key: string, default: Value): (r: Value)
      ensures r == default || (key in attributes && r == attributes[key])
    {
      if Has(key) then attributes[key] else default
    }

    /** The lookup of `getHeader` before its declared return type is applied. */
    function Header(key: string, default: Value): (r: Value)
      ensures r == default || (key in headers && r == headers[key])
    {
      if IsSet(headers, key) then headers[key] else default
    }

    /**
      `getHeader` as written: declared `: array`, so it returns normally only when the header, or
      the default when the header is not set, is an array; any other value raises a `TypeError`.
    */
    function GetHeader(key: string, default: Value): (r: Result<Value, TypeError>)
      ensures r.Success? ==> r.value.List? && r.value == Header(key, default)
      ensures r.Failure? ==> !Header(key, default).List?
    {
      var v := Header(key, default);
      if v.List? then Success(v) else Failure(TypeError)
    }

    /**
      `getMethod` as written: declared `: string` over `getHeader`, declared `: array`. No value
      passes both, so every call raises a `TypeError`.
    */
    function GetMethod(): (r: Result<string, TypeError>)
      ensures r == Failure(TypeError)
    {
      match GetHeader("REQUEST_METHOD", Null)
      case Failure(e) => Failure(e)
      case Success(v) => AsString(v)
    }

    /**
      `getMethod` as evidently intended: the REQUEST_METHOD header converted to a string; a
      missing header (a null default) or an array still raises a `TypeError`.
    */
    function Method(): (r: Result<string, TypeError>)
      ensures IsSet(headers, "REQUEST_METHOD") && headers["REQUEST_METHOD"].Text? ==>
                r == Success(headers["REQUEST_METHOD"].text)
      ensures !IsSet(headers, "REQUEST_METHOD") ==> r == Failure(TypeError)
    {
      AsString(Header("REQUEST_METHOD", Null))
    }
  }

  /**
    `getHeader` returns the header whenever it is set, whatever the default; only an unset header
    falls back to the default. With the declared `: array`, a string header such as a method name
    raises instead.
  */
  lemma HeaderAgreesWithIsSet(req: Request, key: string, d1: Value, d2: Value)
    ensures IsSet(req.headers, key) ==> req.Header(key, d1) == req.Header(key, d2) == req.headers[key]
    ensures !IsSet(req.headers, key) ==> req.Header(key, d1) == d1
    ensures IsSet(req.headers, key) && req.headers[key].Text? ==> req.GetHeader(key, d1) == Failure(TypeError)
  {
  }

  /** A GET request: `getMethod` as written raises, while the intended reading gives "GET". */
  lemma GetRequestMethod(path: string)
    ensures var req := Request(path, map[], map["REQUEST_METHOD" := Text("GET")]);
            req.GetMethod() == Failure(TypeError) && req.Method() == Success("GET")
  {
  }

  /**
    `has` and `get` agree: an attribute is set exactly when `get` with a null default gives a
    non-null value, and then `get` returns it whatever the default.
  */
  lemma HasAgreesWithGet(req: Request, key: string, d1: Value, d2: Value)
    ensures req.Has(key) <==> req.Get(key, Null) != Null
    ensures req.Has(key) ==> req.Get(key, d1) == req.Get(key, d2) == req.attributes[key]
    ensures !req.Has(key) ==> req.Get(key, d1) == d1
  {
  }

  /** An attribute present with a null value is not set: `get` falls back to the default. */
  lemma NullAttributeIsUnset(path: string, key: string, d: Value)
    ensures var req := Request(path, map[key := Null], map[]);
            !req.Has(key) && req.Get(key, d) == d
  {
  }

  /** A request built with the attribute "testcase" set to "present" has it and returns it. */
  lemma PresentAttributeIsReturned()
    ensures var req := Request("/", map["testcase" := Text("present")], map[]);
            req.Has("testcase") && req.Get("testcase", Null) == Text("present")
  {
  }
}
