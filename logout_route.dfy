/** The sign-out endpoint (`app/account/logout/route.ts`): the session is
    cleared, then the browser is sent to the login page on a base URL taken
    from the configured application URL, the request's host, or the local
    default. The environment variable and the two headers are inputs. */
module LogoutRoute {
  import opened Common

  const LocalBase: string := "http://localhost:3000"
  const LoginPath: string := "/auth/login"

  /** `appUrl || (host ? proto://host : local)`, with `x-forwarded-proto`
      read through `?? 'https'`. */
  function BaseUrl(appUrl: Option<string>, host: Option<string>, proto: Option<string>): (base: string)
    ensures StrTruthy(appUrl) ==> base == appUrl.value
    ensures !StrTruthy(appUrl) && StrTruthy(host) ==> base == OrElse(proto, "https") + "://" + host.value
    ensures !StrTruthy(appUrl) && !StrTruthy(host) ==> base == LocalBase
    ensures base != ""
  {
    if StrTruthy(appUrl) then appUrl.value
    else if StrTruthy(host) then OrElse(proto, "https") + "://" + host.value
    else LocalBase
  }

  /** What the handler does, in order. */
  datatype Step = ClearSession | Redirect(path: string, base: string)

  function Post(appUrl: Option<string>, host: Option<string>, proto: Option<string>): (steps: seq<Step>)
    ensures |steps| == 2 && steps[0] == ClearSession
    ensures steps[1] == Redirect(LoginPath, BaseUrl(appUrl, host, proto))
  {
    [ClearSession, Redirect(LoginPath, BaseUrl(appUrl, host, proto))]
  }

  /** Only truthiness is tested: an empty configured URL or an empty host
      header is treated as a missing one, and without a host the protocol
      header is never read. */
  lemma EmptyValuesActAsMissing(host: Option<string>, proto: Option<string>, otherProto: Option<string>)
    ensures Post(Some(""), host, proto) == Post(None, host, proto)
    ensures Post(None, Some(""), proto) == Post(None, None, otherProto)
  {
  }
}
