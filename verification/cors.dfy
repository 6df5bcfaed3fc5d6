/** The shop API's CORS `origin` callback: which request origins may make
    credentialed cross-origin requests. */
module Cors {
  import opened Wrappers

  /** The shop API's fixed allow-list. */
  const AllowList: seq<string> := ["http://localhost:5173", "https://petcare-suite-client.vercel.app"]

  /** The message of the error the callback reports for a refused origin. */
  const NotAllowed: string := "Not allowed by CORS"

  /** What the callback reports: `callback(null, true)` or `callback(new Error(...))`. */
  datatype Decision = Allowed | Refused(message: string)

  /** A missing `Origin` header, or an empty one, is falsy. */
  predicate Falsy(origin: Option<string>) {
    origin.None? || origin.value == ""
  }

  /** The callback over any allow-list: falsy origins pass, otherwise the origin
      must equal one entry exactly (`Array.prototype.includes`). */
  function CheckOrigin(allowList: seq<string>, origin: Option<string>): (d: Decision)
    ensures d.Allowed? <==> Falsy(origin) || origin.value in allowList
    ensures d.Refused? ==> d.message == NotAllowed
  {
    if Falsy(origin) then Allowed
    else if origin.value in allowList then Allowed
    else Refused(NotAllowed)
  }

  /** The callback as configured on the shop API. */
  function ShopOrigin(origin: Option<string>): (d: Decision)
    ensures d.Allowed? <==>
      origin == None || origin == Some("")
      || origin == Some("http://localhost:5173")
      || origin == Some("https://petcare-suite-client.vercel.app")
  {
    assert forall o :: o in AllowList <==> o == AllowList[0] || o == AllowList[1];
    CheckOrigin(AllowList, origin)
  }

  /** Matching is not by prefix: an allowed origin with anything appended (a
      trailing slash, a path, another port digit) is refused. */
  lemma ExtendedOriginRefused(o: string, suffix: string)
    requires o in AllowList
    requires suffix != ""
    ensures ShopOrigin(Some(o + suffix)) == Refused(NotAllowed)
  {
    var x := o + suffix;
    assert |AllowList[0]| == 21 && |AllowList[1]| == 39;
    if o == AllowList[0] {
      assert x[4] == ':' != AllowList[1][4];
    }
    assert x != AllowList[0] && x != AllowList[1];
  }

  /** No case folding and no scheme substitution. */
  lemma NearMissesRefused()
    ensures ShopOrigin(Some("HTTP://LOCALHOST:5173")).Refused?
    ensures ShopOrigin(Some("https://localhost:5173")).Refused?
    ensures ShopOrigin(Some("http://localhost:5173/")).Refused?
  {
  }
}
