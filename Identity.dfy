/**
 * How `ParticipateFromRequest` and `ConvertFromRequest` choose the client id
 * from the incoming request (sixpack.go:130-140, 175-185): reuse the
 * `sixpack_client_id` cookie when the request carries one, otherwise take a
 * freshly generated UUID and write it back as a cookie that expires 30 days
 * later. The clock and the UUID are parameters.
 */
module Identity {
  import opened Wrappers

  const CookieName := "sixpack_client_id"

  /** `30 * 24 * time.Hour`, in seconds. */
  const CookieLifetime := 30 * 24 * 60 * 60

  /** A cookie as a request carries it back: a name and a value. */
  datatype RequestCookie = RequestCookie(name: string, value: string)

  /** A cookie as the response sets it. */
  datatype SetCookie = SetCookie(name: string, value: string, expires: int)

  /** The client id chosen, and the cookie written when there was none to reuse. */
  datatype Resolution = Resolution(clientId: string, written: Option<SetCookie>)

  /** `r.Cookie(name)`: the first cookie of the request with that name. */
  function FindCookie(jar: seq<RequestCookie>, name: string): (r: Option<RequestCookie>)
    ensures r.Some? ==> r.value in jar && r.value.name == name
    ensures r.None? <==> forall i :: 0 <= i < |jar| ==> jar[i].name != name
  {
    if jar == [] then None
    else if jar[0].name == name then Some(jar[0])
    else FindCookie(jar[1..], name)
  }

  /**
   * `Cookie.String()` for a cookie that has only a name and a value: the
   * `name=value` form of a Cookie header. Go's quoting of values that hold a
   * space or a comma is not modelled.
   */
  function Serialized(c: RequestCookie): string
  {
    c.name + "=" + c.value
  }

  /** What the browser sends back on the next request for a cookie it was told to set. */
  function SentBack(c: SetCookie): RequestCookie
  {
    RequestCookie(c.name, c.value)
  }

  /** The cookie choice as written: a found cookie is reused in its serialised `name=value` form. */
  function ResolveIdentityAsWritten(jar: seq<RequestCookie>, generated: string, now: int): (r: Resolution)
    ensures FindCookie(jar, CookieName).Some? ==>
              r.clientId == CookieName + "=" + FindCookie(jar, CookieName).value.value && r.written.None?
    ensures FindCookie(jar, CookieName).None? ==>
              r.clientId == generated && r.written == Some(SetCookie(CookieName, generated, now + CookieLifetime))
  {
    match FindCookie(jar, CookieName)
    case Some(cookie) => Resolution(Serialized(cookie), None)
    case None => Resolution(generated, Some(SetCookie(CookieName, generated, now + CookieLifetime)))
  }

  /** The corrected choice: a found cookie is reused by its value. */
  function ResolveIdentity(jar: seq<RequestCookie>, generated: string, now: int): (r: Resolution)
    ensures FindCookie(jar, CookieName).Some? ==>
              r.clientId == FindCookie(jar, CookieName).value.value && r.written.None?
    ensures FindCookie(jar, CookieName).None? ==>
              r.clientId == generated && r.written == Some(SetCookie(CookieName, generated, now + CookieLifetime))
  {
    match FindCookie(jar, CookieName)
    case Some(cookie) => Resolution(cookie.value, None)
    case None => Resolution(generated, Some(SetCookie(CookieName, generated, now + CookieLifetime)))
  }

  /**
   * As written, a visitor without a cookie is sent as `generated` on the first
   * call and as `sixpack_client_id=generated` on every later call that carries the
   * cookie back, so the server sees two different clients.
   */
  lemma ReusedIdentityDiffersAsWritten(generated: string, now: int, later: int)
    ensures var first := ResolveIdentityAsWritten([], generated, now);
            && first.written.Some?
            && var second := ResolveIdentityAsWritten([SentBack(first.written.value)], "", later);
            && second.clientId == CookieName + "=" + generated
            && second.clientId != first.clientId
  {
  }

  /**
   * Corrected, the id written on the first call is the id sent on every later
   * call that carries the cookie back, whatever other cookies the request has,
   * and no new cookie is written. A generated UUID is never empty, so neither
   * is the id that is kept.
   */
  lemma {:induction false} ReusedIdentityRoundTrip(generated: string, now: int, before: seq<RequestCookie>,
                                                   after: seq<RequestCookie>, other: string, later: int)
    requires generated != ""
    requires forall i :: 0 <= i < |before| ==> before[i].name != CookieName
    ensures var first := ResolveIdentity(before, generated, now);
            && first.written.Some?
            && var second := ResolveIdentity(before + [SentBack(first.written.value)] + after, other, later);
            && second.clientId == first.clientId == generated
            && second.clientId != ""
            && second.written.None?
  {
    var jar := before + [SentBack(SetCookie(CookieName, generated, now + CookieLifetime))] + after;
    FindAfterOthers(before, [SentBack(SetCookie(CookieName, generated, now + CookieLifetime))] + after, CookieName);
    assert jar == before + ([SentBack(SetCookie(CookieName, generated, now + CookieLifetime))] + after);
  }

  /** Cookies with other names in front do not change which cookie `r.Cookie` finds. */
  lemma {:induction false} FindAfterOthers(before: seq<RequestCookie>, rest: seq<RequestCookie>, name: string)
    requires forall i :: 0 <= i < |before| ==> before[i].name != name
    ensures FindCookie(before + rest, name) == FindCookie(rest, name)
  {
    if before == [] {
      assert before + rest == rest;
    } else {
      assert (before + rest)[0] == before[0];
      assert (before + rest)[1..] == before[1..] + rest;
      FindAfterOthers(before[1..], rest, name);
    }
  }
}
