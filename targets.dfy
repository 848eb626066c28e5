/** How a vessel turns the monitoring centre's host or URL into the address of
    its signaling endpoint. */
module Targets {

  predicate IsAlpha(c: char) {
    'a' <= c <= 'z' || 'A' <= c <= 'Z'
  }

  predicate IsSchemeChar(c: char) {
    IsAlpha(c) || '0' <= c <= '9' || c == '+' || c == '-' || c == '.'
  }

  /** The first `n` characters of `s` form a URL scheme: a letter followed by
      letters, digits, `+`, `-` or `.`. */
  predicate SchemeAt(s: string, n: nat)
    requires 1 <= n <= |s|
  {
    IsAlpha(s[0]) && forall j :: 1 <= j < n ==> IsSchemeChar(s[j])
  }

  /** `s` is accepted as an absolute URL: it begins with a scheme and a colon. */
  predicate IsAbsoluteUrl(s: string) {
    exists n :: 1 <= n < |s| && s[n] == ':' && SchemeAt(s, n)
  }

  /** The address composed for a bare host. */
  function VesselUrl(host: string, mmsi: string): string {
    "https://" + host + "/vessels/" + mmsi
  }

  lemma VesselUrlIsAbsolute(host: string, mmsi: string)
    ensures IsAbsoluteUrl(VesselUrl(host, mmsi))
  {
    var u := VesselUrl(host, mmsi);
    assert u[..8] == "https://";
    assert u[5] == ':' && SchemeAt(u, 5);
  }

  /** `contactMOC`'s choice of target: an absolute URL is kept as given,
      anything else is taken for a host and gets the vessel path of `mmsi`.
      Either way the target is absolute. */
  function ResolveTarget(hostOrUrl: string, mmsi: string): (url: string)
    ensures IsAbsoluteUrl(url)
    ensures IsAbsoluteUrl(hostOrUrl) ==> url == hostOrUrl
    ensures !IsAbsoluteUrl(hostOrUrl) ==> url == VesselUrl(hostOrUrl, mmsi)
  {
    if IsAbsoluteUrl(hostOrUrl) then hostOrUrl
    else
      VesselUrlIsAbsolute(hostOrUrl, mmsi);
      VesselUrl(hostOrUrl, mmsi)
  }

  /** A composed target ends with the vessel's identity. */
  lemma {:induction false} ComposedEndsWithMmsi(host: string, mmsi: string)
    requires !IsAbsoluteUrl(host)
    ensures var url := ResolveTarget(host, mmsi);
      |url| >= |mmsi| + 9 && url[|url| - |mmsi|..] == mmsi && url[|url| - |mmsi| - 9..|url| - |mmsi|] == "/vessels/"
  {
    var url := ResolveTarget(host, mmsi);
    assert url == "https://" + host + "/vessels/" + mmsi;
  }
}
