/** McpWebUtils: reads the current HTTP request's headers, parameters and
    client address. The request a thread is serving is passed explicitly;
    None stands for a thread with no current request. */
module WebUtils {
  import opened Wrappers
  import opened JavaText

  /** What the helpers read of an HttpServletRequest: its headers in
      arrival order, its parameters with their values, and the peer address. */
  datatype HttpRequest = HttpRequest(headers: seq<(string, string)>, parameters: map<string, seq<string>>,
                                     remoteAddr: string)

  /** getHeader(name): the first header whose name equals name ignoring
      case, or null. */
  function Header(headers: seq<(string, string)>, name: string): (value: Option<string>)
    ensures value.Some? ==> exists i | 0 <= i < |headers| :: EqualsIgnoreCase(headers[i].0, name) && headers[i].1 == value.value
    ensures value.None? ==> forall i | 0 <= i < |headers| :: !EqualsIgnoreCase(headers[i].0, name)
  {
    if headers == [] then None
    else if EqualsIgnoreCase(headers[0].0, name) then Some(headers[0].1)
    else
      var rest := Header(headers[1..], name);
      assert forall i | 1 <= i < |headers| :: headers[i] == headers[1..][i - 1];
      rest
  }

  /** getRequestHeader(headerName). */
  function GetRequestHeader(request: Option<HttpRequest>, headerName: string): Option<string>
  {
    if request.Some? then Header(request.value.headers, headerName) else None
  }

  /** getRequestParam(paramName): the parameter's first value, or null. */
  function GetRequestParam(request: Option<HttpRequest>, paramName: string): (value: Option<string>)
    ensures value.Some? ==> request.Some? && paramName in request.value.parameters
  {
    if request.Some? && paramName in request.value.parameters && request.value.parameters[paramName] != []
    then Some(request.value.parameters[paramName][0])
    else None
  }

  /** The message of the ArrayIndexOutOfBoundsException that indexing an
      empty array at 0 raises. */
  const EmptySplitMessage: string := "0"

  /** getClientIpAddress(): the first entry of X-Forwarded-For, trimmed,
      when that header is non-empty; else a non-empty X-Real-IP as it is;
      else the peer address. A forwarded header of commas only splits into
      nothing, and reading its first entry throws. */
  function GetClientIpAddress(request: Option<HttpRequest>): Result<Option<string>>
  {
    if request.None? then Ok(None)
    else
      var forwardedFor := Header(request.value.headers, "X-Forwarded-For");
      if forwardedFor.Some? && forwardedFor.value != [] then
        var parts := SplitComma(forwardedFor.value);
        if parts == [] then Thrown(EmptySplitMessage) else Ok(Some(Trim(parts[0])))
      else
        var realIp := Header(request.value.headers, "X-Real-IP");
        if realIp.Some? && realIp.value != [] then Ok(Some(realIp.value))
        else Ok(Some(request.value.remoteAddr))
  }

  /** Without a current request every helper answers null. */
  lemma NoRequestNoAnswers(name: string)
    ensures GetRequestHeader(None, name) == None
    ensures GetRequestParam(None, name) == None
    ensures GetClientIpAddress(None) == Ok(None)
  {
  }

  /** A non-empty X-Forwarded-For decides the address, whatever X-Real-IP
      says: its text up to the first comma, trimmed, or a failure when it
      holds nothing but commas. */
  lemma ForwardedForWins(request: HttpRequest)
    requires Header(request.headers, "X-Forwarded-For").Some?
    requires Header(request.headers, "X-Forwarded-For").value != []
    ensures var xff := Header(request.headers, "X-Forwarded-For").value;
      && (OnlyCommas(xff) <==> GetClientIpAddress(Some(request)) == Thrown(EmptySplitMessage))
      && (!OnlyCommas(xff) ==>
            GetClientIpAddress(Some(request)) == Ok(Some(Trim(if ',' in xff then xff[..IndexOf(xff, ',')] else xff))))
  {
    SplitCommaHead(Header(request.headers, "X-Forwarded-For").value);
  }

  /** Without a usable X-Forwarded-For, a non-empty X-Real-IP is answered
      verbatim, and otherwise the peer address. */
  lemma RealIpThenRemoteAddr(request: HttpRequest)
    requires var xff := Header(request.headers, "X-Forwarded-For"); xff.None? || xff.value == []
    ensures var realIp := Header(request.headers, "X-Real-IP");
      GetClientIpAddress(Some(request))
      == Ok(Some(if realIp.Some? && realIp.value != [] then realIp.value else request.remoteAddr))
  {
  }

  /** The forwarded address has no surrounding blanks. */
  lemma ForwardedAddressTrimmed(request: HttpRequest)
    requires GetClientIpAddress(Some(request)).Ok?
    requires var xff := Header(request.headers, "X-Forwarded-For"); xff.Some? && xff.value != []
    ensures var ip := GetClientIpAddress(Some(request)).value.value;
      ip == [] || (ip[0] > ' ' && ip[|ip| - 1] > ' ')
  {
    var parts := SplitComma(Header(request.headers, "X-Forwarded-For").value);
    TrimSpec(parts[0]);
  }
}
