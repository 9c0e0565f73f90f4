/** The cross-origin policy of the API: which request origins it serves. */
module Cors {
  import opened Base
  import opened Text

  /** The explicitly listed origins. */
  const AllowedOrigins: seq<string> := [
    "https://goodwork-nine.vercel.app",
    "http://localhost:3000",
    "http://localhost:5173"
  ]

  /** Any deployment on the hosting platform. */
  const PlatformSuffix: string := ".vercel.app"

  /** `isAllowedOrigin(origin)`: a chain of early returns. */
  function IsAllowedOrigin(origin: Option<string>): (allowed: bool)
    ensures allowed <==>
      || origin.None? || origin.value == ""
      || origin.value in AllowedOrigins
      || EndsWith(origin.value, PlatformSuffix)
  {
    if origin.None? || origin.value == "" then true
    else if origin.value in AllowedOrigins then true
    else if EndsWith(origin.value, PlatformSuffix) then true
    else false
  }

  /** Requests without an Origin header (non-browser clients) are served. */
  lemma NoOriginAllowed()
    ensures IsAllowedOrigin(None) && IsAllowedOrigin(Some(""))
  {
  }

  /** Every listed origin is served. */
  lemma ListedOriginsAllowed(i: nat)
    requires i < |AllowedOrigins|
    ensures IsAllowedOrigin(Some(AllowedOrigins[i]))
  {
  }

  /** Any platform subdomain is served, whoever deployed it. */
  lemma PlatformSubdomainAllowed(name: string)
    ensures IsAllowedOrigin(Some("https://" + name + PlatformSuffix))
  {
    var o := "https://" + name + PlatformSuffix;
    assert o[|o| - |PlatformSuffix|..] == PlatformSuffix;
  }

  /** The first listed origin is already covered by the platform rule. */
  lemma FirstListedIsPlatform()
    ensures EndsWith(AllowedOrigins[0], PlatformSuffix)
  {
  }

  /** Origins outside all three rules are refused: another localhost port,
      and the platform's bare domain, which lacks the leading dot. */
  lemma OthersRejected()
    ensures !IsAllowedOrigin(Some("http://localhost:8080"))
    ensures !IsAllowedOrigin(Some("https://vercel.app"))
  {
    var a := "http://localhost:8080";
    assert a[|a| - |PlatformSuffix|..][0] != PlatformSuffix[0];
    var b := "https://vercel.app";
    assert b[|b| - |PlatformSuffix|..][0] != PlatformSuffix[0];
  }
}
