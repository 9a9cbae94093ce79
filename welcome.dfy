/** The banner printed when the backend starts, with the URL that carries the access token. */
module Welcome {
  import opened Common

  /** The host used when no allowed host is configured. */
  const DefaultFrontendHost := "localhost:3000"
  const Rule := "***"
  const UrlIndent := "  http://"

  /** The frontend host the banner points to: the first allowed host, if any. */
  function FrontendHost(allowedHosts: seq<string>): string {
    if allowedHosts != [] then allowedHosts[0] else DefaultFrontendHost
  }

  function Heading(allowedHosts: seq<string>): string {
    if |allowedHosts| == 1 then "To start, open the following URL:"
    else "To start, open one of the following URLs:"
  }

  /** The lines `welcome_lifespan` prints, in order. */
  function Banner(allowedHosts: seq<string>, token: string): seq<string> {
    [Rule, "Welcome to R-Pilot", Heading(allowedHosts),
     UrlIndent + FrontendHost(allowedHosts) + "#token=" + token, Rule]
  }

  /**
   * The banner is framed by rules, uses the singular heading exactly when one host is allowed,
   * and holds exactly one URL line, for the frontend host and ending in the token, whatever the
   * number of hosts.
   */
  lemma BannerShape(allowedHosts: seq<string>, token: string)
    ensures var b := Banner(allowedHosts, token);
      |b| == 5 && b[0] == Rule && b[|b| - 1] == Rule
      && (b[2] == "To start, open the following URL:" <==> |allowedHosts| == 1)
      && (forall i :: 0 <= i < |b| ==> (StartsWith(b[i], UrlIndent) <==> i == 3))
      && b[3] == UrlIndent + FrontendHost(allowedHosts) + "#token=" + token
      && EndsWith(b[3], "#token=" + token)
  {
    var b := Banner(allowedHosts, token);
    assert b[3][..|UrlIndent|] == UrlIndent;
    assert b[3][|b[3]| - |"#token=" + token|..] == "#token=" + token;
    assert !StartsWith(b[0], UrlIndent) && !StartsWith(b[4], UrlIndent);
    assert !StartsWith(b[1], UrlIndent) by { assert b[1][0] != UrlIndent[0]; }
    assert !StartsWith(b[2], UrlIndent) by {
      if |allowedHosts| == 1 {
        assert b[2][0] == 'T';
      } else {
        assert b[2][0] == 'T';
      }
    }
    assert "To start, open the following URL:" != "To start, open one of the following URLs:" by {
      assert "To start, open the following URL:"[16] != "To start, open one of the following URLs:"[16];
    }
  }

  /** The URL points to the first allowed host, or to `localhost:3000` when none is configured. */
  lemma BannerHost(allowedHosts: seq<string>, token: string)
    ensures allowedHosts != [] ==> Banner(allowedHosts, token)[3] == "  http://" + allowedHosts[0] + "#token=" + token
    ensures allowedHosts == [] ==> Banner(allowedHosts, token)[3] == "  http://localhost:3000#token=" + token
  {
  }
}
