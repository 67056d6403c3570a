/** The per-request context of the HTTP framework: headers, path parameters, request-scoped
    values, the response written and whether the handler chain goes on. */
module Gin {
  import opened Wrappers
  import opened Values

  const StatusOK := 200
  const StatusCreated := 201
  const StatusBadRequest := 400
  const StatusUnauthorized := 401
  const StatusForbidden := 403
  const StatusNotFound := 404
  const StatusConflict := 409
  const StatusInternalServerError := 500

  datatype Body =
    | ErrorBody(error: string)
    | ErrorDetail(error: string, field: string, value: string)   // an error with one extra field
    | NoBody
    | KeyCreated(data: Fields, apiSecret: string)
    | KeyAssigned(apiKey: string, userId: string, clientId: string)
    | Welcome(user: Option<CtxValue>)

  datatype Response = Response(status: int, body: Body)

  /** A value stored in the request context with `c.Set`. */
  datatype CtxValue = CtxString(s: string) | CtxList(items: seq<string>)

  class Context {
    const headers: map<string, string>
    const host: string
    const params: map<string, string>
    var keys: map<string, CtxValue>
    var response: Option<Response>
    var aborted: bool
    var nextCalled: bool

    constructor (headers: map<string, string>, host: string, params: map<string, string>)
      ensures this.headers == headers && this.host == host && this.params == params
      ensures keys == map[] && response == None && !aborted && !nextCalled
    {
      this.headers := headers;
      this.host := host;
      this.params := params;
      keys := map[];
      response := None;
      aborted := false;
      nextCalled := false;
    }

    /** c.GetHeader: the header's value, or "" when it is absent. */
    function GetHeader(name: string): string {
      if name in headers then headers[name] else ""
    }

    /** c.Param: the path parameter, or "" when it is absent. */
    function Param(name: string): string {
      if name in params then params[name] else ""
    }

    /** c.AbortWithStatusJSON: writes the response and stops the handler chain. */
    method Abort(r: Response)
      modifies this`response, this`aborted
      ensures response == Some(r) && aborted
    {
      response := Some(r);
      aborted := true;
    }

    /** c.JSON: writes the response. */
    method Respond(r: Response)
      modifies this`response
      ensures response == Some(r)
    {
      response := Some(r);
    }

    /** c.Set */
    method Set(key: string, v: CtxValue)
      modifies this`keys
      ensures keys == old(keys)[key := v]
    {
      keys := keys[key := v];
    }

    /** c.Next: hands the request to the next handler in the chain. */
    method Next()
      modifies this`nextCalled
      ensures nextCalled
    {
      nextCalled := true;
    }
  }
}
