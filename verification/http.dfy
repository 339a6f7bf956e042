/** The part of Next.js's request and response objects the two API routes use. */
module Http {
  import opened Wrappers

  /** The three headers both routes set before looking at the request. */
  const CorsHeaders: map<string, string> := map[
    "Access-Control-Allow-Origin" := "*",
    "Access-Control-Allow-Methods" := "POST, OPTIONS",
    "Access-Control-Allow-Headers" := "Content-Type"
  ]

  /** An incoming request: its HTTP method and its parsed body, None when
      `req.body` is undefined (destructuring it then throws). */
  datatype Request<B> = Request(verb: string, body: Option<B>)

  /** The mutable `res` object: headers, status code, JSON body, and whether
      the response has been ended. */
  class ServerResponse<B> {
    var headers: map<string, string>
    var statusCode: int
    var body: Option<B>
    var finished: bool

    /** A response as a route receives it: no headers, status 200, nothing sent. */
    constructor ()
      ensures headers == map[] && statusCode == 200 && body == None && !finished
    {
      headers := map[];
      statusCode := 200;
      body := None;
      finished := false;
    }

    /** `res.setHeader(name, value)`. */
    method SetHeader(name: string, value: string)
      modifies this
      ensures headers == old(headers)[name := value]
      ensures statusCode == old(statusCode) && body == old(body) && finished == old(finished)
    {
      headers := headers[name := value];
    }

    /** `res.status(code)`. */
    method Status(code: int)
      modifies this
      ensures statusCode == code
      ensures headers == old(headers) && body == old(body) && finished == old(finished)
    {
      statusCode := code;
    }

    /** `res.json(payload)`: sends the body and ends the response. */
    method Json(payload: B)
      modifies this
      ensures body == Some(payload) && finished
      ensures headers == old(headers) && statusCode == old(statusCode)
    {
      body := Some(payload);
      finished := true;
    }

    /** `res.end()`: ends the response without a body. */
    method End()
      modifies this
      ensures finished
      ensures headers == old(headers) && statusCode == old(statusCode) && body == old(body)
    {
      finished := true;
    }
  }

  /** The three `res.setHeader` calls at the top of each route. */
  method SetCorsHeaders<B>(res: ServerResponse<B>)
    modifies res
    ensures res.headers == old(res.headers) + CorsHeaders
    ensures res.statusCode == old(res.statusCode) && res.body == old(res.body)
    ensures res.finished == old(res.finished)
  {
    res.SetHeader("Access-Control-Allow-Origin", "*");
    res.SetHeader("Access-Control-Allow-Methods", "POST, OPTIONS");
    res.SetHeader("Access-Control-Allow-Headers", "Content-Type");
  }
}
