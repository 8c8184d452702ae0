/** The part of the web framework's request context the flows touch: the
    cookie jar. A cookie the response sets is its value with either an
    expiry date or `maxAge: 0` (the attributes every cookie here shares,
    `httpOnly`, `path`, `sameSite` and `secure`, are not modelled). */
module Astro {
  import opened Wrappers

  datatype CookieExpiry = ExpiresAt(ms: int) | MaxAgeZero

  datatype Cookie = Cookie(value: string, expiry: CookieExpiry)

  /** The cookie jar of one request: the cookies the request carried, and
      the cookies the response sets, by name. */
  class Cookies {
    const incoming: map<string, string>
    var outgoing: map<string, Cookie>

    constructor (incoming: map<string, string>)
      ensures this.incoming == incoming && outgoing == map[]
    {
      this.incoming := incoming;
      outgoing := map[];
    }

    /** `cookies.get(name)?.value ?? null`: the value the request carried. */
    function Get(name: string): (value: Option<string>)
      ensures value.Some? <==> name in incoming
      ensures value.Some? ==> value.value == incoming[name]
    {
      if name in incoming then Some(incoming[name]) else None
    }

    /** `cookies.set(name, value, options)`: the response now sets exactly
        this cookie under that name. */
    method Set(name: string, cookie: Cookie)
      modifies this`outgoing
      ensures outgoing == old(outgoing)[name := cookie]
    {
      outgoing := outgoing[name := cookie];
    }
  }
}
