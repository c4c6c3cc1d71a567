/**
 * The request the platform hands to the handler and the response object it
 * mutates: `res.setHeader`, `res.status(code)`, `res.json(body)` and
 * `res.end()`.
 */
module Http {
  import opened Wrappers
  import opened JsValues

  /** `req.method` (as verb), `req.url` and the parsed `req.body` (`Undefined` when there is none). */
  datatype Request = Request(verb: string, url: string, body: Value)

  /** What a finished response carries: its status code and its JSON body, if any. */
  datatype Reply = Reply(status: int, body: Option<Value>)

  class Response {
    var headers: map<string, string>
    var statusCode: int
    var payload: Option<Value>
    var finished: bool

    /** A fresh response: no headers, the default status 200, nothing sent. */
    constructor ()
      ensures headers == map[] && statusCode == 200 && payload == None && !finished
    {
      headers := map[];
      statusCode := 200;
      payload := None;
      finished := false;
    }

    /** The status and body sent so far. */
    function Sent(): Reply
      reads this
    {
      Reply(statusCode, payload)
    }

    /** `res.setHeader(name, value)`. */
    method SetHeader(name: string, value: string)
      modifies this
      ensures headers == old(headers)[name := value]
      ensures statusCode == old(statusCode) && payload == old(payload) && finished == old(finished)
    {
      headers := headers[name := value];
    }

    /** `res.status(code)`. */
    method Status(code: int)
      modifies this
      ensures statusCode == code
      ensures headers == old(headers) && payload == old(payload) && finished == old(finished)
    {
      statusCode := code;
    }

    /** `res.json(body)`: sends the body and finishes the response. */
    method Json(body: Value)
      modifies this
      ensures payload == Some(body) && finished
      ensures headers == old(headers) && statusCode == old(statusCode)
    {
      payload := Some(body);
      finished := true;
    }

    /** `res.end()`: finishes the response with an empty body. */
    method End()
      modifies this
      ensures payload == None && finished
      ensures headers == old(headers) && statusCode == old(statusCode)
    {
      payload := None;
      finished := true;
    }
  }
}
